/** Option and result types shared by every module, and the searches over
    sequences that stand for the "first row" and "newest row" queries. */
module Wrappers {

  datatype Option<+T> = None | Some(value: T)

  /** The HTTP error a service raises; a raised error leaves the store as it was. */
  datatype Error =
    | Unauthorized    // 401
    | Forbidden       // 403
    | NotFound        // 404
    | Conflict        // 409
    | Unprocessable   // 422
    | Internal        // 500

  datatype Result<+T> = Ok(value: T) | Err(error: Error) {
    predicate IsFailure() {
      Err?
    }

    function PropagateFailure<U>(): Result<U>
      requires Err?
    {
      Err(error)
    }

    function Extract(): T
      requires Ok?
    {
      value
    }
  }

  /** One column of a partial update: left out of the payload, or set. */
  datatype Patch<+T> = Keep | Set(value: T) {
    function Or(current: T): T {
      if Keep? then current else value
    }
  }

  /** The column has the given value, or the one it had. */
  predicate Patched<T(==)>(before: T, patch: Patch<T>, after: T) {
    match patch
    case Set(value) => after == value
    case Keep => after == before
  }

  /** Python's truth value of an optional string. */
  predicate Given(text: Option<string>) {
    text.Some? && text.value != ""
  }

  /** Index of the first element satisfying `f`. */
  function FirstWhere<T>(xs: seq<T>, f: T -> bool): (r: Option<nat>)
    ensures r.Some? ==> r.value < |xs| && f(xs[r.value])
    ensures r.Some? ==> forall k :: 0 <= k < r.value ==> !f(xs[k])
    ensures r.None? ==> forall k :: 0 <= k < |xs| ==> !f(xs[k])
  {
    if xs == [] then None
    else if f(xs[0]) then Some(0)
    else
      var rest := FirstWhere(xs[1..], f);
      assert forall k :: 1 <= k < |xs| ==> xs[k] == xs[1..][k - 1];
      if rest.Some? then Some(rest.value + 1) else None
  }

  /** Index of the last element satisfying `f`. */
  function LastWhere<T>(xs: seq<T>, f: T -> bool): (r: Option<nat>)
    ensures r.Some? ==> r.value < |xs| && f(xs[r.value])
    ensures r.Some? ==> forall k :: r.value < k < |xs| ==> !f(xs[k])
    ensures r.None? ==> forall k :: 0 <= k < |xs| ==> !f(xs[k])
  {
    if xs == [] then None
    else if f(xs[|xs| - 1]) then Some(|xs| - 1)
    else
      var n := |xs| - 1;
      assert forall k :: 0 <= k < n ==> xs[k] == xs[..n][k];
      LastWhere(xs[..n], f)
  }

  /** Decimal text of an identifier. */
  function IdText(id: nat): string {
    if id < 10 then ["0123456789"[id]] else IdText(id / 10) + ["0123456789"[id % 10]]
  }
}
