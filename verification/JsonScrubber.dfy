/** The scrubber that every stored payload goes through:
    `safe_json` and `scrub_safe_value` of workflow_engine.py. */
module JsonScrubber {
  import opened Wrappers

  datatype Json =
    | Null
    | Bool(b: bool)
    | Num(n: real)
    | Str(s: string)
    | List(items: seq<Json>)
    | Obj(fields: map<string, Json>)

  type Object = map<string, Json>

  const MASK := Str("***")

  // -- The code -------------------------------------------------------------

  const KELVIN := '\U{212A}'

  /** `str.lower` as far as the words below can see it: besides A to Z, the Kelvin sign
      is the only character whose lower case is one of their letters. */
  function LowerChar(c: char): char {
    if 'A' <= c <= 'Z' then (c as int + 32) as char
    else if c == KELVIN then 'k'
    else c
  }

  function Lower(s: string): string {
    seq(|s|, i requires 0 <= i < |s| => LowerChar(s[i]))
  }

  predicate PartAt(s: string, part: string, i: int) {
    0 <= i <= |s| - |part| && s[i..i + |part|] == part
  }

  predicate Contains(s: string, part: string) {
    exists i | 0 <= i <= |s| :: PartAt(s, part, i)
  }

  predicate Sensitive(key: string) {
    var lowered := Lower(key);
    || lowered in {"password", "token", "secret", "authorization", "cookie", "headers"}
    || Contains(lowered, "password") || Contains(lowered, "token") || Contains(lowered, "secret")
  }

  function Scrub(key: string, value: Json): Json
    decreases value
  {
    if Sensitive(key) then MASK
    else
      match value
      case Obj(m) => Obj(map k | k in m :: Scrub(k, m[k]))
      case List(xs) => List(seq(|xs|, i requires 0 <= i < |xs| => Scrub(key, xs[i])))
      case _ => value
  }

  function ScrubObject(value: Object): Object {
    map k | k in value :: Scrub(k, value[k])
  }

  function SafeJson(value: Option<Object>): Option<Object> {
    if value.None? then None else Some(ScrubObject(value.value))
  }

  // -- Which keys are sensitive ---------------------------------------------

  /** `c` is the letter `d` in either case. */
  predicate Folds(c: char, d: char) {
    c == d || ('A' <= c <= 'Z' && c as int + 32 == d as int) || (c == KELVIN && d == 'k')
  }

  /** `s` is the lower-case word, in any case. */
  predicate Spells(s: string, word: string) {
    |s| == |word| && forall i :: 0 <= i < |s| ==> Folds(s[i], word[i])
  }

  predicate SpellsAt(key: string, word: string, i: nat) {
    i + |word| <= |key| && Spells(key[i..i + |word|], word)
  }

  predicate Mentions(key: string, word: string) {
    exists i :: 0 <= i <= |key| && SpellsAt(key, word, i)
  }

  predicate LowerCase(word: string) {
    forall c :: c in word ==> 'a' <= c <= 'z'
  }

  lemma SpellsIff(s: string, word: string)
    requires LowerCase(word)
    ensures Lower(s) == word <==> Spells(s, word)
  {
    if Spells(s, word) {
      forall i | 0 <= i < |s| ensures Lower(s)[i] == word[i] {
        assert word[i] in word;
      }
    }
  }

  lemma LowerLength(s: string)
    ensures |Lower(s)| == |s|
  {
  }

  lemma MentionsIff(key: string, word: string)
    requires LowerCase(word)
    ensures Contains(Lower(key), word) <==> Mentions(key, word)
  {
    forall i: nat ensures PartAt(Lower(key), word, i) <==> SpellsAt(key, word, i) {
      if i + |word| <= |key| {
        assert Lower(key[i..i + |word|]) == Lower(key)[i..i + |word|];
        SpellsIff(key[i..i + |word|], word);
      }
    }
    hide SpellsAt, PartAt, Lower;
    assert |Lower(key)| == |key| by { LowerLength(key); }
  }

  /** The keys that are masked, in any mix of cases: those that mention a password, a token
      or a secret anywhere, and the three names of headers. */
  lemma SensitiveIff(key: string)
    ensures Sensitive(key) <==>
              || Mentions(key, "password") || Mentions(key, "token") || Mentions(key, "secret")
              || Spells(key, "authorization") || Spells(key, "cookie") || Spells(key, "headers")
  {
    MentionsIff(key, "password");
    MentionsIff(key, "token");
    MentionsIff(key, "secret");
    SpellsIff(key, "authorization");
    SpellsIff(key, "cookie");
    SpellsIff(key, "headers");
    WholeMentions(key, "password");
    WholeMentions(key, "token");
    WholeMentions(key, "secret");
    hide Mentions, Spells, Contains, Lower;
  }

  lemma WholeMentions(key: string, word: string)
    ensures Lower(key) == word ==> Contains(Lower(key), word)
  {
    if Lower(key) == word {
      assert word[0..0 + |word|] == word;
      assert PartAt(Lower(key), word, 0);
    }
  }

  // -- What it means: positions inside a document ---------------------------

  datatype Step = Key(k: string) | Index(i: nat)

  /** The value found by following `path` from `v`. */
  function At(v: Json, path: seq<Step>): Option<Json>
    decreases |path|
  {
    if path == [] then Some(v)
    else
      match (path[0], v)
      case (Key(k), Obj(m)) => if k in m then At(m[k], path[1..]) else None
      case (Index(i), List(xs)) => if i < |xs| then At(xs[i], path[1..]) else None
      case _ => None
  }

  /** No step of the path goes through a sensitive key. */
  predicate Clean(path: seq<Step>) {
    forall s :: s in path && s.Key? ==> !Sensitive(s.k)
  }

  /** Same constructor, same scalar, same keys, same length. */
  predicate SameShape(a: Json, b: Json) {
    match (a, b)
    case (Obj(m), Obj(n)) => m.Keys == n.Keys
    case (List(xs), List(ys)) => |xs| == |ys|
    case _ => a == b
  }

  /** Along a clean path the scrubbed document has a value exactly where the
      original has one, and it has the same shape. */
  lemma {:induction false} ScrubKeepsShape(key: string, v: Json, path: seq<Step>)
    requires !Sensitive(key) && Clean(path)
    ensures At(Scrub(key, v), path).Some? <==> At(v, path).Some?
    ensures At(v, path).Some? ==> SameShape(At(v, path).value, At(Scrub(key, v), path).value)
    decreases |path|
  {
    if path != [] {
      assert path[0] in path;
      assert Clean(path[1..]) by {
        forall s | s in path[1..] && s.Key? ensures !Sensitive(s.k) { assert s in path; }
      }
      match (path[0], v)
      case (Key(k), Obj(m)) =>
        if k in m { ScrubKeepsShape(k, m[k], path[1..]); }
      case (Index(i), List(xs)) =>
        if i < |xs| { ScrubKeepsShape(key, xs[i], path[1..]); }
      case _ =>
    }
  }

  /** Directly under every sensitive key that a clean path reaches, the mask. */
  lemma {:induction false} ScrubMasks(key: string, v: Json, path: seq<Step>, k: string)
    requires !Sensitive(key) && Clean(path) && Sensitive(k)
    requires At(v, path).Some? && At(v, path).value.Obj? && k in At(v, path).value.fields
    ensures At(Scrub(key, v), path + [Key(k)]) == Some(MASK)
    decreases |path|
  {
    if path == [] {
      assert [Key(k)][1..] == [];
    } else {
      assert path[0] in path;
      assert Clean(path[1..]) by {
        forall s | s in path[1..] && s.Key? ensures !Sensitive(s.k) { assert s in path; }
      }
      assert (path + [Key(k)])[1..] == path[1..] + [Key(k)];
      match path[0]
      case Key(c) => ScrubMasks(c, v.fields[c], path[1..], k);
      case Index(i) => ScrubMasks(key, v.items[i], path[1..], k);
    }
  }

  lemma {:induction false} ScrubIdempotent(key: string, v: Json)
    ensures Scrub(key, Scrub(key, v)) == Scrub(key, v)
    decreases v
  {
    if !Sensitive(key) {
      match v
      case Obj(m) =>
        forall k | k in m ensures Scrub(k, Scrub(k, m[k])) == Scrub(k, m[k]) { ScrubIdempotent(k, m[k]); }
        assert Scrub(key, Scrub(key, v)).fields == Scrub(key, v).fields;
      case List(xs) =>
        forall i | 0 <= i < |xs| ensures Scrub(key, Scrub(key, xs[i])) == Scrub(key, xs[i]) {
          ScrubIdempotent(key, xs[i]);
        }
        assert Scrub(key, Scrub(key, v)).items == Scrub(key, v).items;
      case _ =>
    }
  }

  /** The same three laws for the entry point: a top-level object. */
  lemma SafeJsonLaw(value: Object, path: seq<Step>, k: string)
    requires Clean(path) && Sensitive(k)
    ensures SafeJson(SafeJson(Some(value))) == SafeJson(Some(value))
    ensures At(Obj(ScrubObject(value)), path).Some? <==> At(Obj(value), path).Some?
    ensures At(Obj(value), path).Some? ==>
              SameShape(At(Obj(value), path).value, At(Obj(ScrubObject(value)), path).value)
    ensures At(Obj(value), path).Some? && At(Obj(value), path).value.Obj? && k in At(Obj(value), path).value.fields ==>
              At(Obj(ScrubObject(value)), path + [Key(k)]) == Some(MASK)
  {
    var plain := "result";
    PlainKey(plain);
    assert Scrub(plain, Obj(value)) == Obj(ScrubObject(value));
    ScrubIdempotent(plain, Obj(value));
    ScrubKeepsShape(plain, Obj(value), path);
    if At(Obj(value), path).Some? && At(Obj(value), path).value.Obj? && k in At(Obj(value), path).value.fields {
      ScrubMasks(plain, Obj(value), path, k);
    }
  }

  /** A lower-case key without the letters the forbidden words need is not masked. */
  lemma PlainKey(key: string)
    requires forall i :: 0 <= i < |key| ==> !('A' <= key[i] <= 'Z') && key[i] != KELVIN
    requires 'p' !in key && 'k' !in key && ('c' !in key || 't' !in key)
    requires key !in {"authorization", "headers"}
    ensures !Sensitive(key)
  {
    assert Lower(key) == key;
    if Contains(key, "password") { ContainsChar(key, "password", 0); }
    if Contains(key, "token") { ContainsChar(key, "token", 2); }
    if Contains(key, "secret") { ContainsChar(key, "secret", 2); ContainsChar(key, "secret", 5); }
  }

  lemma ContainsChar(s: string, part: string, i: nat)
    requires Contains(s, part) && i < |part|
    ensures part[i] in s
  {
  }

  predicate Scalar(v: Json) {
    !v.Obj? && !v.List?
  }

  /** A payload of scalars and already scrubbed objects under harmless keys is a
      fixed point of the scrubber: the second scrub of a result placed in an
      outbox payload changes nothing. */
  lemma ScrubFixesPayload(payload: Object)
    requires forall k :: k in payload ==> !Sensitive(k)
    requires forall k :: k in payload ==>
               Scalar(payload[k]) || exists o: Object :: payload[k] == Obj(ScrubObject(o))
    ensures ScrubObject(payload) == payload
  {
    forall k | k in payload ensures Scrub(k, payload[k]) == payload[k] {
      if !Scalar(payload[k]) {
        var o: Object :| payload[k] == Obj(ScrubObject(o));
        assert Scrub(k, Obj(o)) == Obj(ScrubObject(o));
        ScrubIdempotent(k, Obj(o));
      }
    }
    assert ScrubObject(payload) == payload;
  }

  lemma TransitionKeyPlain() ensures !Sensitive("transition") { PlainKey("transition"); }

  lemma FromKeyPlain() ensures !Sensitive("from_state_id") { PlainKey("from_state_id"); }

  lemma ToKeyPlain() ensures !Sensitive("to_state_id") { PlainKey("to_state_id"); }

  lemma ResultKeyPlain() ensures !Sensitive("result") { PlainKey("result"); }

  /** The payload of WORKFLOW_TRANSITION_EXECUTED, with the result already scrubbed. */
  function ExecutedPayload(transition: string, source: string, target: string, result: Option<Object>): Object {
    map["transition" := Str(transition), "from_state_id" := Str(source), "to_state_id" := Str(target),
        "result" := if result.None? then Null else Obj(result.value)]
  }

  lemma ResultScrubbedOnce(transition: string, source: string, target: string, result: Option<Object>)
    ensures var payload := ExecutedPayload(transition, source, target, SafeJson(result));
            ScrubObject(payload) == payload
  {
    var payload := ExecutedPayload(transition, source, target, SafeJson(result));
    TransitionKeyPlain();
    FromKeyPlain();
    ToKeyPlain();
    ResultKeyPlain();
    assert payload.Keys == {"transition", "from_state_id", "to_state_id", "result"};
    assert forall k :: k in payload && k != "result" ==> Scalar(payload[k]);
    assert result.Some? ==> payload["result"] == Obj(ScrubObject(result.value));
    ScrubFixesPayload(payload);
  }
}
