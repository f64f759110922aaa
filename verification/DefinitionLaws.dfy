/** What every run of the definition service keeps: versions, immutability,
    soundness of published definitions, and the isomorphism of a new version. */
module DefinitionLaws {
  import opened Wrappers
  import opened WorkflowModel
  import opened Reachability
  import opened DefinitionService
  import opened Sorting

  // -- The invariant --------------------------------------------------------

  predicate StatesDiffer(a: State, b: State) { a.id != b.id && a.code != b.code }

  predicate TransitionsDiffer(a: Transition, b: Transition) { a.id != b.id && a.code != b.code }

  predicate PoliciesDiffer(a: SlaPolicy, b: SlaPolicy) { a.id != b.id && a.code != b.code }

  ghost predicate PolicyOk(q: SlaPolicy) {
    q.durationMinutes > 0 && (q.warningBeforeMinutes.Some? ==> q.warningBeforeMinutes.value >= 0)
  }

  ghost predicate IdsBelow(d: Definition, nextId: Id) {
    && (forall s :: s in d.states ==> s.id < nextId)
    && (forall t :: t in d.transitions ==> t.id < nextId)
    && (forall q :: q in d.policies ==> q.id < nextId)
  }

  ghost predicate DefinitionOk(d: Definition, nextId: Id) {
    && IdsBelow(d, nextId)
    && Apart(d.states, StatesDiffer) && Apart(d.transitions, TransitionsDiffer) && Apart(d.policies, PoliciesDiffer)
    && (forall t :: t in d.transitions ==> t.fromId in StateIds(d.states) && t.toId in StateIds(d.states))
    && (forall q :: q in d.policies ==> PolicyOk(q))
    && (d.isPublished ==> Sound(d))
  }

  function VersionsOf(defs: seq<Definition>, code: string): seq<nat> {
    if defs == [] then []
    else
      var rest := VersionsOf(defs[..|defs| - 1], code);
      var d := defs[|defs| - 1];
      if d.code == code then rest + [d.version] else rest
  }

  /** The versions of a code are 1, 2, ..., n in the order of creation. */
  ghost predicate Numbered(defs: seq<Definition>) {
    forall code :: VersionsOf(defs, code) == OneTo(|VersionsOf(defs, code)|)
  }

  function OneTo(n: nat): (r: seq<nat>)
    ensures |r| == n
  {
    seq(n, k => k + 1)
  }

  ghost predicate CatalogOk(c: Catalog) {
    && (forall i :: 0 <= i < |c.defs| ==> DefinitionOk(c.defs[i], c.nextId))
    && Numbered(c.defs)
  }

  // -- Versions -------------------------------------------------------------

  lemma {:induction false} MaxIsLast(defs: seq<Definition>, code: string)
    requires forall code :: VersionsOf(defs, code) == OneTo(|VersionsOf(defs, code)|)
    ensures MaxVersion(defs, code) == |VersionsOf(defs, code)|
  {
    if defs != [] {
      var init := defs[..|defs| - 1];
      forall c ensures VersionsOf(init, c) == OneTo(|VersionsOf(init, c)|) {
        var v := VersionsOf(defs, c);
        assert VersionsOf(init, c) == v[..|VersionsOf(init, c)|];
      }
      MaxIsLast(init, code);
      if defs[|defs| - 1].code == code {
        var v := VersionsOf(defs, code);
        assert v[|v| - 1] == |v|;
      }
    }
  }

  lemma AppendNumbered(defs: seq<Definition>, d: Definition)
    requires Numbered(defs) && d.version == |VersionsOf(defs, d.code)| + 1
    ensures Numbered(defs + [d])
  {
  }

  lemma {:induction false} PutVersions(defs: seq<Definition>, i: nat, d: Definition, code: string)
    requires i < |defs| && d.code == defs[i].code && d.version == defs[i].version
    ensures VersionsOf(defs[i := d], code) == VersionsOf(defs, code)
  {
    var n := |defs| - 1;
    if i < n {
      assert defs[i := d][..n] == defs[..n][i := d];
      PutVersions(defs[..n], i, d, code);
    } else {
      assert defs[i := d][..n] == defs[..n];
    }
  }

  // -- Preservation ---------------------------------------------------------

  lemma PutKeeps(c: Catalog, i: nat, d: Definition, nextId: Id)
    requires CatalogOk(c) && i < |c.defs| && nextId >= c.nextId
    requires d.code == c.defs[i].code && d.version == c.defs[i].version && DefinitionOk(d, nextId)
    ensures CatalogOk(Put(c, i, d).(nextId := nextId))
  {
    var after := c.defs[i := d];
    forall code ensures VersionsOf(after, code) == OneTo(|VersionsOf(after, code)|) {
      PutVersions(c.defs, i, d, code);
    }
  }

  lemma AppendKeeps(c: Catalog, d: Definition, nextId: Id)
    requires CatalogOk(c) && nextId >= c.nextId
    requires d.version == MaxVersion(c.defs, d.code) + 1 && DefinitionOk(d, nextId)
    ensures CatalogOk(Catalog(c.defs + [d], nextId))
  {
    MaxIsLast(c.defs, d.code);
    AppendNumbered(c.defs, d);
  }

  lemma AddStateKeeps(c: Catalog, def: nat, p: StateDraft)
    requires CatalogOk(c) && AddStateTo(c, def, p).Ok?
    ensures CatalogOk(AddStateTo(c, def, p).value)
  {
    var d := c.defs[def];
    var after := AddStateTo(c, def, p).value;
    var r := after.defs[def];
    assert StateIds(d.states) <= StateIds(r.states) by {
      forall s | s in d.states ensures s in r.states { }
    }
    PutKeeps(c, def, r, after.nextId);
  }

  lemma UpdateStateKeeps(c: Catalog, def: nat, id: Id, p: StatePatch)
    requires CatalogOk(c) && UpdateStateOf(c, def, id, p).Ok?
    ensures CatalogOk(UpdateStateOf(c, def, id, p).value)
  {
    var d := c.defs[def];
    var r := UpdateStateOf(c, def, id, p).value.defs[def];
    forall x | x in StateIds(d.states) ensures x in StateIds(r.states) {
      var i :| 0 <= i < |d.states| && d.states[i].id == x;
      assert r.states[i].id == x;
    }
    PutKeeps(c, def, r, c.nextId);
  }

  lemma AddTransitionKeeps(c: Catalog, def: nat, p: TransitionDraft)
    requires CatalogOk(c) && AddTransitionTo(c, def, p).Ok?
    ensures CatalogOk(AddTransitionTo(c, def, p).value)
  {
    var after := AddTransitionTo(c, def, p).value;
    PutKeeps(c, def, after.defs[def], after.nextId);
  }

  lemma UpdateTransitionKeeps(c: Catalog, def: nat, id: Id, p: TransitionPatch)
    requires CatalogOk(c) && UpdateTransitionOf(c, def, id, p).Ok?
    ensures CatalogOk(UpdateTransitionOf(c, def, id, p).value)
  {
    PutKeeps(c, def, UpdateTransitionOf(c, def, id, p).value.defs[def], c.nextId);
  }

  lemma AddPolicyKeeps(c: Catalog, def: nat, p: PolicyDraft)
    requires CatalogOk(c) && AddPolicyTo(c, def, p).Ok?
    ensures CatalogOk(AddPolicyTo(c, def, p).value)
  {
    var after := AddPolicyTo(c, def, p).value;
    PutKeeps(c, def, after.defs[def], after.nextId);
  }

  lemma UpdatePolicyKeeps(c: Catalog, def: nat, id: Id, p: PolicyPatch)
    requires CatalogOk(c) && UpdatePolicyOf(c, def, id, p).Ok?
    ensures CatalogOk(UpdatePolicyOf(c, def, id, p).value)
  {
    var d := c.defs[def];
    var r := UpdatePolicyOf(c, def, id, p).value.defs[def];
    assert DefinitionOk(d, c.nextId);
    var k := FirstWhere(d.policies, (q: SlaPolicy) => q.id == id).value;
    assert d.policies[k] in d.policies;
    assert PolicyOk(r.policies[k]) && r.policies[k].id == d.policies[k].id && r.policies[k].code == d.policies[k].code;
    assert DefinitionOk(r, c.nextId);
    PutKeeps(c, def, r, c.nextId);
  }

  /** Soundness is a matter of states and transitions alone. */
  lemma SoundRows(d: Definition, e: Definition)
    requires Sound(d) && e.states == d.states && e.transitions == d.transitions
    ensures Sound(e)
  {
  }

  lemma PublishKeeps(c: Catalog, def: nat, permissions: set<string>)
    requires CatalogOk(c) && PublishIn(c, def, permissions).Ok?
    ensures CatalogOk(PublishIn(c, def, permissions).value)
  {
    var d := c.defs[def];
    var published := d.(isPublished := true);
    assert Sound(published) by { SoundRows(d, published); }
    assert DefinitionOk(published, c.nextId) by {
      assert DefinitionOk(d, c.nextId);
      hide Sound;
    }
    hide DefinitionOk, Sound;
    PutKeeps(c, def, published, c.nextId);
  }

  /** Every operation of the service keeps the invariant. */
  lemma CatalogStepKeeps(c: Catalog, step: CatalogStep)
    requires CatalogOk(c) && ApplyCatalog(c, step).Ok?
    ensures CatalogOk(ApplyCatalog(c, step).value)
  {
    match step
    case CreateDefinition(code, name, entityType) =>
      AppendKeeps(c, Definition(code, name, entityType, MaxVersion(c.defs, code) + 1, true, false, [], [], []), c.nextId);
    case CreateVersion(source) => CloneKeeps(c, source);
    case UpdateDefinition(def, name, active) =>
      PutKeeps(c, def, c.defs[def].(name := name.Or(c.defs[def].name), isActive := active.Or(c.defs[def].isActive)), c.nextId);
    case AddState(def, p) => AddStateKeeps(c, def, p);
    case UpdateState(def, id, p) => UpdateStateKeeps(c, def, id, p);
    case AddTransition(def, p) => AddTransitionKeeps(c, def, p);
    case UpdateTransition(def, id, p) => UpdateTransitionKeeps(c, def, id, p);
    case AddPolicy(def, p) => AddPolicyKeeps(c, def, p);
    case UpdatePolicy(def, id, p) => UpdatePolicyKeeps(c, def, id, p);
    case Publish(def, permissions) => PublishKeeps(c, def, permissions);
    case Deactivate(def) => PutKeeps(c, def, c.defs[def].(isActive := false), c.nextId);
  }

  // -- A new version -------------------------------------------------------

  /** The old-to-new map: defined on exactly the old ids, injective, onto the fresh ones. */
  lemma AppendStateId(states: seq<State>, n: nat)
    requires n + 1 == |states|
    ensures StateIds(states) == StateIds(states[..n]) + {states[n].id}
    ensures forall k :: 0 <= k < |states| ==> states[k].id in StateIds(states)
  {
    assert states == states[..n] + [states[n]];
  }

  lemma {:induction false} OldToNewIs(states: seq<State>, first: Id)
    requires Apart(states, StatesDiffer)
    ensures OldToNew(states, first).Keys == StateIds(states)
    ensures forall k :: 0 <= k < |states| ==> OldToNew(states, first)[states[k].id] == first + k
  {
    if states != [] {
      var n := |states| - 1;
      var rest := OldToNew(states[..n], first);
      OldToNewIs(states[..n], first);
      AppendStateId(states, n);
      hide StateIds;
      forall k | 0 <= k < n ensures states[k].id != states[n].id && rest[states[k].id] == first + k {
        assert StatesDiffer(states[k], states[n]);
        assert states[..n][k] == states[k];
      }
    }
  }

  ghost predicate Injective(f: map<Id, Id>) {
    forall x, y :: x in f && y in f && f[x] == f[y] ==> x == y
  }

  /** A state carried to another definition: every column but the id. */
  function Carried(s: State, f: map<Id, Id>): State
    requires s.id in f
  {
    s.(id := f[s.id])
  }

  /** `t2` is `t1` with both ends moved along `f`, every other column but the id the same. */
  predicate Moved(t1: Transition, t2: Transition, f: map<Id, Id>) {
    && t1.fromId in f && t1.toId in f
    && t2 == t1.(id := t2.id, fromId := f[t1.fromId], toId := f[t1.toId])
  }

  ghost predicate HasImage(t: Transition, e: Definition, f: map<Id, Id>) {
    exists t2 :: t2 in e.transitions && Moved(t, t2, f)
  }

  ghost predicate HasSource(t2: Transition, d: Definition, f: map<Id, Id>) {
    exists t :: t in d.transitions && Moved(t, t2, f)
  }

  ghost predicate StateHasImage(s: State, e: Definition, f: map<Id, Id>) {
    s.id in f && Carried(s, f) in e.states
  }

  ghost predicate StateHasSource(s2: State, d: Definition, f: map<Id, Id>) {
    exists s :: s in d.states && s.id in f && s2 == Carried(s, f)
  }

  /** `f` is an isomorphism from the state graph of `d` onto that of `e`. */
  ghost predicate Isomorphism(d: Definition, e: Definition, f: map<Id, Id>) {
    && f.Keys == StateIds(d.states) && Injective(f)
    && |e.states| == |d.states| && |e.transitions| == |d.transitions|
    && (forall s {:trigger StateHasImage(s, e, f)} :: s in d.states ==> StateHasImage(s, e, f))
    && (forall s2 {:trigger StateHasSource(s2, d, f)} :: s2 in e.states ==> StateHasSource(s2, d, f))
    && (forall t {:trigger HasImage(t, e, f)} :: t in d.transitions ==> HasImage(t, e, f))
    && (forall t2 {:trigger HasSource(t2, d, f)} :: t2 in e.transitions ==> HasSource(t2, d, f))
  }

  lemma SortedStates(d: Definition, first: Id)
    requires Apart(d.states, StatesDiffer)
    ensures var states := SortBy(d.states, StateOrder); var f := OldToNew(states, first);
            && |states| == |d.states| && (forall s :: s in states <==> s in d.states)
            && f.Keys == StateIds(d.states)
            && forall k :: 0 <= k < |states| ==> states[k].id in f && f[states[k].id] == first + k
  {
    SortKeeps(d.states, StateOrder, StatesDiffer);
    OldToNewIs(SortBy(d.states, StateOrder), first);
    assert StateIds(SortBy(d.states, StateOrder)) == StateIds(d.states);
  }

  lemma SortedTransitions(d: Definition)
    ensures var ts := SortBy(d.transitions, TransitionOrder);
            |ts| == |d.transitions| && forall t :: t in ts <==> t in d.transitions
  {
    SortKeeps(d.transitions, TransitionOrder, TransitionsDiffer);
  }

  /** In every reachable catalogue the old-id lookup never misses. */
  lemma CloneSucceeds(c: Catalog, source: nat)
    requires CatalogOk(c) && source < |c.defs|
    ensures !Misses(SortBy(c.defs[source].transitions, TransitionOrder), VersionMap(c, source))
    ensures VersionMap(c, source).Keys == StateIds(c.defs[source].states)
  {
    SortedStates(c.defs[source], c.nextId);
    SortedTransitions(c.defs[source]);
  }

  /** The rows of `d` listed as `states` and `ts`; `f` numbers the states from `n`. */
  ghost predicate Listing(d: Definition, states: seq<State>, ts: seq<Transition>, f: map<Id, Id>, n: Id) {
    && |states| == |d.states| && |ts| == |d.transitions|
    && (forall s :: s in states <==> s in d.states)
    && (forall t :: t in ts <==> t in d.transitions)
    && f.Keys == StateIds(d.states)
    && (forall k :: 0 <= k < |states| ==> states[k].id in f && f[states[k].id] == n + k)
    && !Misses(ts, f)
  }

  lemma RenumberedStates(d: Definition, version: nat, states: seq<State>, ts: seq<Transition>, f: map<Id, Id>, n: Id)
    requires Listing(d, states, ts, f, n)
    ensures var e := Renumber(d, version, states, ts, f, n);
            && Injective(f) && (forall s :: s in d.states ==> StateHasImage(s, e, f))
            && (forall s2 :: s2 in e.states ==> StateHasSource(s2, d, f))
  {
    var e := Renumber(d, version, states, ts, f, n);
    forall x, y | x in f && y in f && f[x] == f[y] ensures x == y {
      var s1 :| s1 in states && s1.id == x;
      var s2 :| s2 in states && s2.id == y;
    }
    forall s | s in d.states ensures StateHasImage(s, e, f) {
      var k :| 0 <= k < |states| && states[k] == s;
      assert e.states[k] == Carried(s, f);
    }
    forall s2 | s2 in e.states ensures StateHasSource(s2, d, f) {
      var k :| 0 <= k < |e.states| && e.states[k] == s2;
      assert states[k] in d.states && s2 == Carried(states[k], f);
    }
  }

  lemma RenumberedTransitions(d: Definition, version: nat, states: seq<State>, ts: seq<Transition>, f: map<Id, Id>, n: Id)
    requires Listing(d, states, ts, f, n)
    ensures var e := Renumber(d, version, states, ts, f, n);
            && (forall t :: t in d.transitions ==> HasImage(t, e, f))
            && (forall t2 :: t2 in e.transitions ==> HasSource(t2, d, f))
  {
    var e := Renumber(d, version, states, ts, f, n);
    forall t | t in d.transitions ensures HasImage(t, e, f) {
      var k :| 0 <= k < |ts| && ts[k] == t;
      assert e.transitions[k] in e.transitions && Moved(t, e.transitions[k], f);
    }
    forall t2 | t2 in e.transitions ensures HasSource(t2, d, f) {
      var k :| 0 <= k < |e.transitions| && e.transitions[k] == t2;
      assert ts[k] in d.transitions && Moved(ts[k], t2, f);
    }
  }

  lemma RenumberedIsomorphic(d: Definition, version: nat, states: seq<State>, ts: seq<Transition>, f: map<Id, Id>, n: Id)
    requires Listing(d, states, ts, f, n)
    ensures Isomorphism(d, Renumber(d, version, states, ts, f, n), f)
  {
    hide Injective, StateHasImage, StateHasSource, HasImage, HasSource, StateIds;
    RenumberedStates(d, version, states, ts, f, n);
    RenumberedTransitions(d, version, states, ts, f, n);
  }

  lemma NewVersionIsomorphic(c: Catalog, source: nat)
    requires source < |c.defs| && Apart(c.defs[source].states, StatesDiffer)
    requires !Misses(SortBy(c.defs[source].transitions, TransitionOrder), VersionMap(c, source))
    ensures Isomorphism(c.defs[source], NewVersion(c, source), VersionMap(c, source))
  {
    var d := c.defs[source];
    SortedStates(d, c.nextId);
    SortedTransitions(d);
    RenumberedIsomorphic(d, NextVersion(c.defs, d), SortBy(d.states, StateOrder), SortBy(d.transitions, TransitionOrder),
                         VersionMap(c, source), c.nextId);
  }

  /** A new version is an unpublished draft numbered after the last one, without
      SLA policies, isomorphic to its source along fresh ids; every existing row
      is untouched. */
  lemma CloneIsomorphic(c: Catalog, source: nat)
    requires CatalogOk(c) && source < |c.defs|
    ensures Clone(c, source).Ok?
    ensures var after := Clone(c, source).value; var e := after.defs[|c.defs|]; var f := VersionMap(c, source);
            && |after.defs| == |c.defs| + 1 && after.defs[..|c.defs|] == c.defs
            && e.version == |VersionsOf(c.defs, e.code)| + 1 && e.code == c.defs[source].code
            && !e.isPublished && e.isActive && e.policies == []
            && Isomorphism(c.defs[source], e, f)
            && (forall s :: s in e.states ==> s.id >= c.nextId)
            && (forall t :: t in e.transitions ==> t.id >= c.nextId)
  {
    CloneSucceeds(c, source);
    NewVersionIsomorphic(c, source);
    SourceVersion(c.defs, source);
    MaxIsLast(c.defs, c.defs[source].code);
  }

  lemma {:induction false} SourceVersion(defs: seq<Definition>, i: nat)
    requires i < |defs|
    ensures |VersionsOf(defs, defs[i].code)| > 0
  {
    if i < |defs| - 1 {
      SourceVersion(defs[..|defs| - 1], i);
    }
  }

  lemma CloneKeeps(c: Catalog, source: nat)
    requires CatalogOk(c) && source < |c.defs|
    ensures Clone(c, source).Ok?
    ensures CatalogOk(Clone(c, source).value)
  {
    CloneIsomorphic(c, source);
    MaxIsLast(c.defs, c.defs[source].code);
    var after := Clone(c, source).value;
    var d := c.defs[source];
    var e := after.defs[|c.defs|];
    var states := SortBy(d.states, StateOrder);
    SortKeeps(d.states, StateOrder, StatesDiffer);
    SortKeeps(d.transitions, TransitionOrder, TransitionsDiffer);
    var f := VersionMap(c, source);
    forall t2 | t2 in e.transitions ensures t2.fromId in StateIds(e.states) && t2.toId in StateIds(e.states) {
      assert HasSource(t2, d, f);
      var t :| t in d.transitions && Moved(t, t2, f);
      var s1 :| s1 in d.states && s1.id == t.fromId;
      var s2 :| s2 in d.states && s2.id == t.toId;
      assert StateHasImage(s1, e, f) && StateHasImage(s2, e, f);
    }
    AppendKeeps(c, e, after.nextId);
  }

  // -- What an isomorphism preserves ----------------------------------------

  /** Reachability commutes with the map, in both directions. */
  lemma IsomorphismReaches(d: Definition, e: Definition, f: map<Id, Id>, x: Id, y: Id)
    requires Isomorphism(d, e, f) && x in f && y in f
    requires forall t :: t in d.transitions ==> t.fromId in f && t.toId in f
    ensures Connected(x, y, d.transitions) <==> Connected(f[x], f[y], e.transitions)
  {
    if Connected(x, y, d.transitions) {
      var path :| Walk(path, x, y, d.transitions);
      var ids := set z | z in f && Connected(f[x], f[z], e.transitions);
      ConnectedSelf(f[x], e.transitions);
      forall t | t in d.transitions && t.isActive && t.fromId in ids ensures t.toId in ids {
        assert HasImage(t, e, f);
        var t2 :| t2 in e.transitions && Moved(t, t2, f);
        ConnectedStep(f[x], t2, e.transitions);
      }
      ClosedHoldsWalk(ids, path, x, y, d.transitions);
    }
    if Connected(f[x], f[y], e.transitions) {
      var path :| Walk(path, f[x], f[y], e.transitions);
      var ids := set z | z in f && Connected(x, z, d.transitions) :: f[z];
      ConnectedSelf(x, d.transitions);
      forall t2 | t2 in e.transitions && t2.isActive && t2.fromId in ids ensures t2.toId in ids {
        assert HasSource(t2, d, f);
        var t :| t in d.transitions && Moved(t, t2, f);
        var z :| z in f && Connected(x, z, d.transitions) && f[z] == t2.fromId;
        ConnectedStep(x, t, d.transitions);
      }
      ClosedHoldsWalk(ids, path, f[x], f[y], e.transitions);
    }
  }

  lemma IsomorphismActive(d: Definition, e: Definition, f: map<Id, Id>)
    requires Isomorphism(d, e, f)
    requires Apart(d.states, StatesDiffer)
    ensures forall x :: x in f ==> (x in ActiveStateIds(d.states) <==> f[x] in ActiveStateIds(e.states))
  {
    forall x | x in f
      ensures x in ActiveStateIds(d.states) <==> f[x] in ActiveStateIds(e.states)
    {
      var s :| s in d.states && s.id == x;
      assert StateHasImage(s, e, f);
      if f[x] in ActiveStateIds(e.states) {
        var s2 :| s2 in e.states && s2.isActive && s2.id == f[x];
        assert StateHasSource(s2, d, f);
        var s1 :| s1 in d.states && s1.id in f && s2 == Carried(s1, f);
      }
    }
  }

  lemma SoundForward(d: Definition, e: Definition, f: map<Id, Id>)
    requires Isomorphism(d, e, f) && Sound(d)
    requires forall t :: t in d.transitions ==> t.fromId in f && t.toId in f
    requires Apart(d.states, StatesDiffer)
    ensures Sound(e)
  {
    var i :| SoleInitial(d.states, i) && forall s :: s in d.states && s.isActive ==> Connected(i.id, s.id, d.transitions);
    assert StateHasImage(i, e, f);
    var j := Carried(i, f);
    forall s2 | s2 in e.states && s2.isActive && s2.isInitial ensures s2 == j {
      assert StateHasSource(s2, d, f);
    }
    assert SoleInitial(e.states, j);
    forall s2 | s2 in e.states && s2.isActive ensures Connected(j.id, s2.id, e.transitions) {
      assert StateHasSource(s2, d, f);
      var s :| s in d.states && s.id in f && s2 == Carried(s, f);
      IsomorphismReaches(d, e, f, i.id, s.id);
    }
    IsomorphismActive(d, e, f);
    forall t2 | t2 in e.transitions && t2.isActive
      ensures t2.fromId in ActiveStateIds(e.states) && t2.toId in ActiveStateIds(e.states)
    {
      assert HasSource(t2, d, f);
      var t :| t in d.transitions && Moved(t, t2, f);
    }
  }

  lemma SoundBackward(d: Definition, e: Definition, f: map<Id, Id>)
    requires Isomorphism(d, e, f) && Sound(e)
    requires forall t :: t in d.transitions ==> t.fromId in f && t.toId in f
    requires Apart(d.states, StatesDiffer)
    ensures Sound(d)
  {
    var j :| SoleInitial(e.states, j) && forall s :: s in e.states && s.isActive ==> Connected(j.id, s.id, e.transitions);
    assert StateHasSource(j, d, f);
    var i :| i in d.states && i.id in f && j == Carried(i, f);
    forall s | s in d.states && s.isActive && s.isInitial ensures s == i {
      assert StateHasImage(s, e, f);
    }
    assert SoleInitial(d.states, i);
    forall s | s in d.states && s.isActive ensures Connected(i.id, s.id, d.transitions) {
      assert StateHasImage(s, e, f);
      IsomorphismReaches(d, e, f, i.id, s.id);
    }
    IsomorphismActive(d, e, f);
    forall t | t in d.transitions && t.isActive
      ensures t.fromId in ActiveStateIds(d.states) && t.toId in ActiveStateIds(d.states)
    {
      assert HasImage(t, e, f);
      var t2 :| t2 in e.transitions && Moved(t, t2, f);
    }
  }

  /** The clone passes the publish check exactly when its source does. */
  lemma ClonePublishable(c: Catalog, source: nat, permissions: set<string>)
    requires CatalogOk(c) && source < |c.defs|
    ensures Clone(c, source).Ok?
    ensures Publishable(Clone(c, source).value.defs[|c.defs|], permissions) <==> Publishable(c.defs[source], permissions)
  {
    CloneIsomorphic(c, source);
    var d := c.defs[source];
    var e := Clone(c, source).value.defs[|c.defs|];
    var f := VersionMap(c, source);
    if Publishable(d, permissions) {
      SoundForward(d, e, f);
      forall t2 | t2 in e.transitions && t2.isActive
        ensures ConfigurationOk(t2.configuration) && (t2.permission.Some? ==> t2.permission.value in permissions)
      {
        assert HasSource(t2, d, f);
        var t :| t in d.transitions && Moved(t, t2, f);
      }
    }
    if Publishable(e, permissions) {
      SoundBackward(d, e, f);
      forall t | t in d.transitions && t.isActive
        ensures ConfigurationOk(t.configuration) && (t.permission.Some? ==> t.permission.value in permissions)
      {
        assert HasImage(t, e, f);
        var t2 :| t2 in e.transitions && Moved(t, t2, f);
      }
    }
  }

  // -- Immutability ---------------------------------------------------------

  /** What the engine reads of a definition. */
  ghost predicate SameContents(d: Definition, e: Definition) {
    e == d.(isActive := e.isActive)
  }

  /** No operation touches the contents of a published definition: only
      `is_active` may change, and never the published flag. */
  lemma PublishedImmutable(c: Catalog, step: CatalogStep, i: nat)
    requires ApplyCatalog(c, step).Ok? && i < |c.defs| && c.defs[i].isPublished
    ensures i < |ApplyCatalog(c, step).value.defs| && SameContents(c.defs[i], ApplyCatalog(c, step).value.defs[i])
  {
  }

  /** A service call, refused or not. */
  ghost function CatalogAfter(c: Catalog, step: CatalogStep): Catalog {
    if ApplyCatalog(c, step).Ok? then ApplyCatalog(c, step).value else c
  }

  ghost function CatalogRun(c: Catalog, steps: seq<CatalogStep>): Catalog {
    if steps == [] then c else CatalogAfter(CatalogRun(c, steps[..|steps| - 1]), steps[|steps| - 1])
  }

  /** Over every run: the invariant holds, and what is published stays sound and the same. */
  lemma {:induction false} CatalogRunKeeps(c: Catalog, steps: seq<CatalogStep>, i: nat)
    requires CatalogOk(c)
    ensures CatalogOk(CatalogRun(c, steps))
    ensures |c.defs| <= |CatalogRun(c, steps).defs|
    ensures i < |c.defs| && c.defs[i].isPublished ==>
              SameContents(c.defs[i], CatalogRun(c, steps).defs[i]) && Sound(CatalogRun(c, steps).defs[i])
  {
    if steps != [] {
      var init := steps[..|steps| - 1];
      var mid := CatalogRun(c, init);
      CatalogRunKeeps(c, init, i);
      if ApplyCatalog(mid, steps[|steps| - 1]).Ok? {
        CatalogStepKeeps(mid, steps[|steps| - 1]);
        assert |mid.defs| <= |CatalogRun(c, steps).defs|;
        if i < |c.defs| && c.defs[i].isPublished {
          PublishedImmutable(mid, steps[|steps| - 1], i);
        }
      }
    }
  }
}
