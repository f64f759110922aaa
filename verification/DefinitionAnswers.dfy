/** What the calls of the definition service answer, said on the columns of the rows. */
module DefinitionAnswers {
  import opened Wrappers
  import opened WorkflowModel
  import opened Reachability
  import opened DefinitionService
  import opened DefinitionLaws
  import opened Sorting

  // -- Drafts ---------------------------------------------------------------

  predicate IsDraft(c: Catalog, def: nat) {
    def < |c.defs| && !c.defs[def].isPublished
  }

  /** The definition a step edits, if it edits one. */
  function Edits(step: CatalogStep): Option<nat> {
    match step
    case CreateDefinition(_, _, _) => None
    case CreateVersion(_) => None
    case UpdateDefinition(def, _, _) => Some(def)
    case AddState(def, _) => Some(def)
    case UpdateState(def, _, _) => Some(def)
    case AddTransition(def, _) => Some(def)
    case UpdateTransition(def, _, _) => Some(def)
    case AddPolicy(def, _) => Some(def)
    case UpdatePolicy(def, _, _) => Some(def)
    case Publish(def, _) => Some(def)
    case Deactivate(_) => None
  }

  /** Minutes as the payload schema has them: a duration above zero, no negative warning. */
  predicate WellTimed(duration: int, warning: Option<int>) {
    duration > 0 && (warning.Some? ==> warning.value >= 0)
  }

  predicate WellTimedStep(step: CatalogStep) {
    match step
    case AddPolicy(_, p) => WellTimed(p.durationMinutes, p.warningBeforeMinutes)
    case UpdatePolicy(_, _, p) =>
      WellTimed(if p.durationMinutes.Set? then p.durationMinutes.value else 1,
                if p.warningBeforeMinutes.Set? then p.warningBeforeMinutes.value else None)
    case _ => true
  }

  /** Only drafts are edited: an unknown definition is not found, a published one a conflict. */
  lemma EditsDraftsOnly(c: Catalog, step: CatalogStep)
    requires Edits(step).Some? && !IsDraft(c, Edits(step).value)
    ensures ApplyCatalog(c, step) == Err(if !WellTimedStep(step) then Unprocessable
                                         else if Edits(step).value >= |c.defs| then NotFound else Conflict)
  {
  }

  /** The catalogue with another row for one definition. */
  predicate Replaced(c: Catalog, c2: Catalog, def: nat, d: Definition, drawn: nat) {
    def < |c.defs| && c2.defs == c.defs[def := d] && c2.nextId == c.nextId + drawn
  }

  lemma UpdateDefinitionAnswer(c: Catalog, def: nat, name: Patch<string>, active: Patch<bool>)
    requires IsDraft(c, def)
    ensures var done := ApplyCatalog(c, UpdateDefinition(def, name, active)); var d := c.defs[def];
            done.Ok? && def < |done.value.defs|
            && var e := done.value.defs[def];
               && Replaced(c, done.value, def, d.(name := e.name, isActive := e.isActive), 0)
               && Patched(d.name, name, e.name) && Patched(d.isActive, active, e.isActive)
  {
  }

  // -- States ---------------------------------------------------------------

  /** Another active initial state, besides the one of that id. */
  predicate InitialTaken(states: seq<State>, except: Option<Id>) {
    exists s :: s in states && s.isInitial && s.isActive && (except.Some? ==> s.id != except.value)
  }

  predicate NewState(s: State, p: StateDraft, id: Id) {
    && s.id == id && s.code == p.code && s.name == p.name && s.stateType == p.stateType && s.sortOrder == p.sortOrder
    && s.isInitial == p.isInitial && s.isTerminal == p.isTerminal && s.isActive == p.isActive
  }

  /** A state is added at the end under a fresh id, unless a second initial state or a
      second state of its code would arise. */
  lemma AddStateAnswer(c: Catalog, def: nat, p: StateDraft)
    requires IsDraft(c, def)
    ensures var done := ApplyCatalog(c, AddState(def, p)); var d := c.defs[def];
            var taken := p.isInitial && InitialTaken(d.states, None);
            var twice := exists s :: s in d.states && s.code == p.code;
            && (done.Ok? <==> !taken && !twice)
            && (taken ==> done == Err(Conflict)) && (!taken && twice ==> done == Err(Internal))
            && (done.Ok? ==> exists s :: NewState(s, p, c.nextId) && Replaced(c, done.value, def, d.(states := d.states + [s]), 1))
  {
    var d := c.defs[def];
    assert OtherInitial(d.states, None) <==> InitialTaken(d.states, None);
    var s := State(c.nextId, p.code, p.name, p.stateType, p.sortOrder, p.isInitial, p.isTerminal, p.isActive);
    assert NewState(s, p, c.nextId);
  }

  predicate StatePatched(s: State, s2: State, p: StatePatch) {
    && s2.id == s.id && s2.code == s.code
    && Patched(s.name, p.name, s2.name) && Patched(s.stateType, p.stateType, s2.stateType)
    && Patched(s.sortOrder, p.sortOrder, s2.sortOrder) && Patched(s.isInitial, p.isInitial, s2.isInitial)
    && Patched(s.isTerminal, p.isTerminal, s2.isTerminal) && Patched(s.isActive, p.isActive, s2.isActive)
  }

  /** A state is patched in place, unless it would become a second initial state. */
  lemma UpdateStateAnswer(c: Catalog, def: nat, id: Id, p: StatePatch)
    requires IsDraft(c, def)
    ensures var done := ApplyCatalog(c, UpdateState(def, id, p)); var d := c.defs[def];
            var known := exists s :: s in d.states && s.id == id;
            var taken := p.isInitial == Set(true) && InitialTaken(d.states, Some(id));
            && (done.Ok? <==> known && !taken)
            && (!known ==> done == Err(NotFound)) && (known && taken ==> done == Err(Conflict))
            && (done.Ok? ==> exists k: nat, s :: k < |d.states| && d.states[k].id == id && StatePatched(d.states[k], s, p)
                                               && Replaced(c, done.value, def, d.(states := d.states[k := s]), 0))
  {
    var d := c.defs[def];
    assert OtherInitial(d.states, Some(id)) <==> InitialTaken(d.states, Some(id));
    if ApplyCatalog(c, UpdateState(def, id, p)).Ok? {
      var k := FirstWhere(d.states, (s: State) => s.id == id).value;
      assert StatePatched(d.states[k], PatchState(d.states[k], p), p);
    }
  }

  // -- Transitions ----------------------------------------------------------

  predicate HasState(states: seq<State>, id: Id) {
    exists s :: s in states && s.id == id
  }

  predicate SafeKeys(configuration: Option<Configuration>) {
    configuration.Some? ==>
      forall key :: key in configuration.value.keys ==>
        || key == "required_fields" || key == "required_attachment_categories" || key == "minimum_attachment_count"
        || key == "allowed_actor_types" || key == "allowed_permissions"
  }

  lemma SafeKeysOk(configuration: Option<Configuration>)
    ensures ConfigurationOk(configuration) <==> SafeKeys(configuration)
  {
  }

  lemma HasStateId(states: seq<State>, id: Id)
    ensures id in StateIds(states) <==> HasState(states, id)
  {
  }

  predicate NewTransition(t: Transition, p: TransitionDraft, id: Id) {
    && t.id == id && t.code == p.code && t.name == p.name && t.fromId == p.fromId && t.toId == p.toId && t.permission == p.permission
    && t.requiresComment == p.requiresComment && t.requiresReason == p.requiresReason && t.sortOrder == p.sortOrder
    && t.isActive == p.isActive && t.configuration == p.configuration
  }

  /** A transition is added between states of the definition, under a safe configuration
      and a code of its own. */
  lemma AddTransitionAnswer(c: Catalog, def: nat, p: TransitionDraft)
    requires IsDraft(c, def)
    ensures var done := ApplyCatalog(c, AddTransition(def, p)); var d := c.defs[def];
            var fits := HasState(d.states, p.fromId) && HasState(d.states, p.toId) && SafeKeys(p.configuration);
            var twice := exists t :: t in d.transitions && t.code == p.code;
            && (done.Ok? <==> fits && !twice)
            && (!fits ==> done == Err(Unprocessable)) && (fits && twice ==> done == Err(Internal))
            && (done.Ok? ==> exists t :: NewTransition(t, p, c.nextId)
                                      && Replaced(c, done.value, def, d.(transitions := d.transitions + [t]), 1))
  {
    var d := c.defs[def];
    HasStateId(d.states, p.fromId);
    HasStateId(d.states, p.toId);
    SafeKeysOk(p.configuration);
    hide ConfigurationOk, SafeKeys, StateIds, HasState;
    var t := Transition(c.nextId, p.code, p.name, p.fromId, p.toId, p.permission, p.requiresComment, p.requiresReason, p.sortOrder,
                        p.isActive, p.configuration);
    assert NewTransition(t, p, c.nextId);
  }

  predicate TransitionPatched(t: Transition, t2: Transition, p: TransitionPatch) {
    && t2.id == t.id && t2.code == t.code
    && Patched(t.name, p.name, t2.name) && Patched(t.fromId, p.fromId, t2.fromId) && Patched(t.toId, p.toId, t2.toId)
    && Patched(t.permission, p.permission, t2.permission) && Patched(t.requiresComment, p.requiresComment, t2.requiresComment)
    && Patched(t.requiresReason, p.requiresReason, t2.requiresReason) && Patched(t.sortOrder, p.sortOrder, t2.sortOrder)
    && Patched(t.isActive, p.isActive, t2.isActive) && Patched(t.configuration, p.configuration, t2.configuration)
  }

  /** What a patched transition has to meet: ends in the definition, safe configuration. */
  predicate PatchFits(d: Definition, t: Transition, p: TransitionPatch) {
    && HasState(d.states, if p.fromId.Set? then p.fromId.value else t.fromId)
    && HasState(d.states, if p.toId.Set? then p.toId.value else t.toId)
    && SafeKeys(if p.configuration.Set? then p.configuration.value else t.configuration)
  }

  lemma UpdateTransitionAnswer(c: Catalog, def: nat, id: Id, p: TransitionPatch, k: nat)
    requires IsDraft(c, def) && k < |c.defs[def].transitions| && c.defs[def].transitions[k].id == id
    requires forall j :: 0 <= j < k ==> c.defs[def].transitions[j].id != id
    ensures var done := ApplyCatalog(c, UpdateTransition(def, id, p)); var d := c.defs[def];
            && (done.Ok? <==> PatchFits(d, d.transitions[k], p)) && (done.Err? ==> done.error == Unprocessable)
            && (done.Ok? ==> exists t :: TransitionPatched(d.transitions[k], t, p)
                                      && Replaced(c, done.value, def, d.(transitions := d.transitions[k := t]), 0))
  {
    var d := c.defs[def];
    var t := PatchTransition(d.transitions[k], p);
    HasStateId(d.states, t.fromId);
    HasStateId(d.states, t.toId);
    SafeKeysOk(t.configuration);
    hide ConfigurationOk, SafeKeys, StateIds, HasState;
    assert FirstWhere(d.transitions, (t: Transition) => t.id == id) == Some(k);
    assert TransitionPatched(d.transitions[k], t, p);
  }

  lemma UpdateTransitionUnknown(c: Catalog, def: nat, id: Id, p: TransitionPatch)
    requires IsDraft(c, def) && forall t :: t in c.defs[def].transitions ==> t.id != id
    ensures ApplyCatalog(c, UpdateTransition(def, id, p)) == Err(NotFound)
  {
  }

  // -- SLA policies ---------------------------------------------------------

  predicate NewPolicy(q: SlaPolicy, p: PolicyDraft, id: Id) {
    && q.id == id && q.code == p.code && q.stateId == p.stateId && q.transitionId == p.transitionId
    && q.durationMinutes == p.durationMinutes && q.warningBeforeMinutes == p.warningBeforeMinutes && q.isActive == p.isActive
  }

  lemma AddPolicyAnswer(c: Catalog, def: nat, p: PolicyDraft)
    requires IsDraft(c, def)
    ensures var done := ApplyCatalog(c, AddPolicy(def, p)); var d := c.defs[def];
            var fits := && WellTimed(p.durationMinutes, p.warningBeforeMinutes)
                        && (p.stateId.Some? ==> HasState(d.states, p.stateId.value))
                        && (p.transitionId.Some? ==> exists t :: t in d.transitions && t.id == p.transitionId.value);
            var twice := exists q :: q in d.policies && q.code == p.code;
            && (done.Ok? <==> fits && !twice)
            && (!fits ==> done == Err(Unprocessable)) && (fits && twice ==> done == Err(Internal))
            && (done.Ok? ==> exists q :: NewPolicy(q, p, c.nextId) && Replaced(c, done.value, def, d.(policies := d.policies + [q]), 1))
  {
    var d := c.defs[def];
    if p.stateId.Some? { HasStateId(d.states, p.stateId.value); }
    hide StateIds, HasState;
    var q := SlaPolicy(c.nextId, p.code, p.stateId, p.transitionId, p.durationMinutes, p.warningBeforeMinutes, p.isActive);
    assert NewPolicy(q, p, c.nextId);
  }

  predicate PolicyPatched(q: SlaPolicy, q2: SlaPolicy, p: PolicyPatch) {
    && q2 == q.(durationMinutes := q2.durationMinutes, warningBeforeMinutes := q2.warningBeforeMinutes, isActive := q2.isActive)
    && Patched(q.durationMinutes, p.durationMinutes, q2.durationMinutes)
    && Patched(q.warningBeforeMinutes, p.warningBeforeMinutes, q2.warningBeforeMinutes) && Patched(q.isActive, p.isActive, q2.isActive)
  }

  lemma UpdatePolicyAnswer(c: Catalog, def: nat, id: Id, p: PolicyPatch)
    requires IsDraft(c, def)
    ensures var done := ApplyCatalog(c, UpdatePolicy(def, id, p)); var d := c.defs[def];
            var timed := WellTimedStep(UpdatePolicy(def, id, p)); var known := exists q :: q in d.policies && q.id == id;
            && (done.Ok? <==> timed && known)
            && (!timed ==> done == Err(Unprocessable)) && (timed && !known ==> done == Err(NotFound))
            && (done.Ok? ==> exists k: nat, q :: k < |d.policies| && d.policies[k].id == id && PolicyPatched(d.policies[k], q, p)
                                               && Replaced(c, done.value, def, d.(policies := d.policies[k := q]), 0))
  {
    var d := c.defs[def];
    if ApplyCatalog(c, UpdatePolicy(def, id, p)).Ok? {
      var k := FirstWhere(d.policies, (q: SlaPolicy) => q.id == id).value;
      assert PolicyPatched(d.policies[k], PatchPolicy(d.policies[k], p), p);
    }
  }

  // -- Publication ----------------------------------------------------------

  /** An active transition leads from one state to the other. */
  predicate StepsTo(ts: seq<Transition>, a: Id, b: Id) {
    exists t :: t in ts && t.isActive && t.fromId == a && t.toId == b
  }

  /** `ids` is a way from `a` to `b`, state by state. */
  predicate Way(ids: seq<Id>, a: Id, b: Id, ts: seq<Transition>) {
    && |ids| > 0 && ids[0] == a && ids[|ids| - 1] == b
    && forall k :: 0 <= k < |ids| - 1 ==> StepsTo(ts, ids[k], ids[k + 1])
  }

  ghost predicate LeadsTo(a: Id, b: Id, ts: seq<Transition>) {
    exists ids :: Way(ids, a, b, ts)
  }

  lemma {:induction false} WalkIsWay(path: seq<Transition>, a: Id, b: Id, ts: seq<Transition>) returns (ids: seq<Id>)
    requires Walk(path, a, b, ts)
    ensures Way(ids, a, b, ts)
  {
    if path == [] {
      ids := [a];
    } else {
      var last := path[|path| - 1];
      var rest := WalkIsWay(path[..|path| - 1], a, last.fromId, ts);
      ids := rest + [b];
      assert StepsTo(ts, last.fromId, b);
    }
  }

  lemma {:induction false} WayConnects(ids: seq<Id>, a: Id, b: Id, ts: seq<Transition>)
    requires Way(ids, a, b, ts)
    ensures Connected(a, b, ts)
  {
    if |ids| == 1 {
      ConnectedSelf(a, ts);
    } else {
      var n := |ids| - 1;
      WayConnects(ids[..n], a, ids[n - 1], ts);
      assert StepsTo(ts, ids[n - 1], ids[n - 1 + 1]);
      var t :| t in ts && t.isActive && t.fromId == ids[n - 1] && t.toId == b;
      ConnectedStep(a, t, ts);
    }
  }

  lemma ConnectedAnswer(a: Id, b: Id, ts: seq<Transition>)
    ensures Connected(a, b, ts) <==> LeadsTo(a, b, ts)
  {
    if Connected(a, b, ts) {
      var path :| Walk(path, a, b, ts);
      var ids := WalkIsWay(path, a, b, ts);
    }
    if LeadsTo(a, b, ts) {
      var ids :| Way(ids, a, b, ts);
      WayConnects(ids, a, b, ts);
    }
  }

  predicate HasActive(states: seq<State>, id: Id) {
    exists s :: s in states && s.isActive && s.id == id
  }

  predicate Begins(states: seq<State>, s: State) {
    s in states && s.isInitial && s.isActive && forall u :: u in states && u.isInitial && u.isActive ==> u == s
  }

  /** One active initial state; active transitions with active ends, safe configuration and
      known permission; every active state on a way from the initial one. */
  ghost predicate Presentable(d: Definition, permissions: set<string>) {
    && (forall t :: t in d.transitions && t.isActive ==>
          && HasActive(d.states, t.fromId) && HasActive(d.states, t.toId) && SafeKeys(t.configuration)
          && (t.permission.Some? ==> t.permission.value in permissions))
    && exists s :: Begins(d.states, s) && forall u :: u in d.states && u.isActive ==> LeadsTo(s.id, u.id, d.transitions)
  }

  lemma PresentableIff(d: Definition, permissions: set<string>)
    ensures Publishable(d, permissions) <==> Presentable(d, permissions)
  {
    hide Connected, LeadsTo, ConfigurationOk, SafeKeys;
    forall a, b ensures Connected(a, b, d.transitions) <==> LeadsTo(a, b, d.transitions) {
      ConnectedAnswer(a, b, d.transitions);
    }
    forall t ensures ConfigurationOk(t) <==> SafeKeys(t) {
      SafeKeysOk(t);
    }
    forall id ensures id in ActiveStateIds(d.states) <==> HasActive(d.states, id) {
    }
    forall s ensures SoleInitial(d.states, s) <==> Begins(d.states, s) {
    }
    hide SoleInitial, Begins, HasActive, ActiveStateIds;
  }

  /** A draft is published exactly when it is presentable; nothing but the flag changes. */
  lemma PublishAnswer(c: Catalog, def: nat, permissions: set<string>)
    requires IsDraft(c, def)
    ensures var done := ApplyCatalog(c, Publish(def, permissions)); var d := c.defs[def];
            && (done.Ok? <==> Presentable(d, permissions)) && (done.Err? ==> done.error == Unprocessable)
            && (done.Ok? ==> Replaced(c, done.value, def, d.(isPublished := true), 0))
  {
    PresentableIff(c.defs[def], permissions);
    hide Publishable, Presentable;
  }

  // -- Whole definitions ----------------------------------------------------

  /** Switching off works on drafts and published definitions alike. */
  lemma DeactivateAnswer(c: Catalog, def: nat)
    ensures var done := ApplyCatalog(c, Deactivate(def));
            && (done.Ok? <==> def < |c.defs|) && (done.Err? ==> done.error == NotFound)
            && (done.Ok? ==> Replaced(c, done.value, def, c.defs[def].(isActive := false), 0))
  {
  }

  lemma {:induction false} MaxVersionAnswer(defs: seq<Definition>, code: string)
    ensures forall d :: d in defs && d.code == code ==> d.version <= MaxVersion(defs, code)
    ensures MaxVersion(defs, code) > 0 ==> exists d :: d in defs && d.code == code && d.version == MaxVersion(defs, code)
  {
    if defs != [] {
      MaxVersionAnswer(defs[..|defs| - 1], code);
      var d := defs[|defs| - 1];
      assert forall x :: x in defs <==> x in defs[..|defs| - 1] || x == d;
    }
  }

  /** A new definition is an empty, active draft; its version is one above the highest of
      its code, or one. */
  lemma CreateDefinitionAnswer(c: Catalog, code: string, name: string, entityType: string)
    ensures var done := ApplyCatalog(c, CreateDefinition(code, name, entityType));
            done.Ok? && |done.value.defs| == |c.defs| + 1
            && var d := done.value.defs[|c.defs|];
               && done.value == c.(defs := c.defs + [d]) && d.code == code && d.name == name && d.entityType == entityType
               && d.isActive && !d.isPublished && d.states == [] && d.transitions == [] && d.policies == []
               && (forall x :: x in c.defs && x.code == code ==> x.version < d.version)
               && (d.version == 1 || exists x :: x in c.defs && x.code == code && x.version + 1 == d.version)
  {
    MaxVersionAnswer(c.defs, code);
  }

  /** A new version keeps what it was made from and adds one draft: the columns of the
      source, the states and transitions in sort order under consecutive fresh ids. */
  lemma CreateVersionAnswer(c: Catalog, source: nat)
    requires CatalogOk(c) && source < |c.defs|
    ensures var done := ApplyCatalog(c, CreateVersion(source)); var d := c.defs[source];
            done.Ok? && |done.value.defs| == |c.defs| + 1 && done.value.defs[..|c.defs|] == c.defs
            && var e := done.value.defs[|c.defs|];
               && e == Definition(d.code, d.name, d.entityType, e.version, true, false, e.states, e.transitions, [])
               && (forall x :: x in c.defs && x.code == d.code ==> x.version < e.version)
               && (exists x :: x in c.defs && x.code == d.code && x.version + 1 == e.version)
               && Sorted(e.states, StateOrder) && Sorted(e.transitions, TransitionOrder)
               && (forall k :: 0 <= k < |e.states| ==> e.states[k].id == c.nextId + k)
               && (forall k :: 0 <= k < |e.transitions| ==> e.transitions[k].id == c.nextId + |e.states| + k)
               && done.value.nextId == c.nextId + |e.states| + |e.transitions|
  {
    CloneIsomorphic(c, source);
    var d := c.defs[source];
    MaxVersionAnswer(c.defs, d.code);
    MaxIsLast(c.defs, d.code);
    SourceVersion(c.defs, source);
    SortKeeps(d.states, StateOrder, StatesDiffer);
    SortKeeps(d.transitions, TransitionOrder, TransitionsDiffer);
    hide Isomorphism, DefinitionOk, OldToNew, SortBy, Numbered;
  }

  lemma CreateVersionUnknown(c: Catalog, source: nat)
    requires source >= |c.defs|
    ensures ApplyCatalog(c, CreateVersion(source)) == Err(NotFound)
  {
  }
}
