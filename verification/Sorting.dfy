/** Python's stable `sorted(rows, key=...)`, and the fact that it only reorders. */
module Sorting {

  function Insert<T>(x: T, xs: seq<T>, key: T -> int): seq<T> {
    if xs == [] || key(x) <= key(xs[0]) then [x] + xs else [xs[0]] + Insert(x, xs[1..], key)
  }

  function SortBy<T>(xs: seq<T>, key: T -> int): seq<T> {
    if xs == [] then [] else Insert(xs[0], SortBy(xs[1..], key), key)
  }

  ghost predicate Sorted<T>(xs: seq<T>, key: T -> int) {
    forall i, j :: 0 <= i < j < |xs| ==> key(xs[i]) <= key(xs[j])
  }

  /** Any two rows at different positions differ. */
  ghost predicate Apart<T>(xs: seq<T>, differ: (T, T) -> bool) {
    forall i, j :: 0 <= i < j < |xs| ==> differ(xs[i], xs[j])
  }

  ghost predicate Symmetric<T(!new)>(differ: (T, T) -> bool) {
    forall a, b :: differ(a, b) ==> differ(b, a)
  }

  lemma {:induction false} InsertKeeps<T(!new)>(x: T, xs: seq<T>, key: T -> int, differ: (T, T) -> bool)
    requires Symmetric(differ) && Sorted(xs, key)
    ensures |Insert(x, xs, key)| == |xs| + 1
    ensures forall y :: y in Insert(x, xs, key) <==> y == x || y in xs
    ensures Sorted(Insert(x, xs, key), key)
    ensures Apart(xs, differ) && (forall y :: y in xs ==> differ(x, y)) ==> Apart(Insert(x, xs, key), differ)
  {
    if xs != [] && key(x) > key(xs[0]) {
      InsertKeeps(x, xs[1..], key, differ);
      var rest := Insert(x, xs[1..], key);
      forall k | 0 <= k < |rest|
        ensures key(xs[0]) <= key(rest[k])
        ensures Apart(xs, differ) && (forall y :: y in xs ==> differ(x, y)) ==> differ(xs[0], rest[k])
      {
        assert rest[k] in rest;
      }
      assert forall y :: y in xs[1..] ==> y in xs;
    }
  }

  /** Sorting keeps the rows, their number, and their being apart. */
  lemma {:induction false} SortKeeps<T(!new)>(xs: seq<T>, key: T -> int, differ: (T, T) -> bool)
    requires Symmetric(differ)
    ensures |SortBy(xs, key)| == |xs|
    ensures forall y :: y in SortBy(xs, key) <==> y in xs
    ensures Sorted(SortBy(xs, key), key)
    ensures Apart(xs, differ) ==> Apart(SortBy(xs, key), differ)
  {
    if xs != [] {
      SortKeeps(xs[1..], key, differ);
      InsertKeeps(xs[0], SortBy(xs[1..], key), key, differ);
      assert forall y :: y in xs <==> y == xs[0] || y in xs[1..];
      assert forall y :: y in xs[1..] ==> exists k :: 1 <= k < |xs| && xs[k] == y;
    }
  }
}
