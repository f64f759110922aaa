/** workflow_definition_service.py in its own form: the publish check and the cloning
    loop, updating the tables step by step. */
module DefinitionCalls {
  import opened Wrappers
  import opened WorkflowModel
  import opened Reachability
  import opened DefinitionService
  import opened DefinitionLaws
  import opened EngineLaws
  import opened Sorting
  import opened Storage

  /** The catalogue became what `spec` says, or nothing changed and its error is raised. */
  ghost predicate Became(before: Platform, after: Platform, spec: Result<Catalog>, error: Option<Error>) {
    match spec
    case Ok(c) => after == before.(catalog := c) && error.None?
    case Err(e) => after == before && error == Some(e)
  }

  function ErrorOf<T>(r: Result<T>): Option<Error> {
    if r.Err? then Some(r.error) else None
  }

  /** The invariants of the catalogue and of the engine's rows are kept. */
  ghost predicate Keeps(before: Platform, after: Platform) {
    (CatalogOk(before.catalog) ==> CatalogOk(after.catalog)) && (PlatformOk(before) ==> PlatformOk(after))
  }

  lemma EditKeeps(p: Platform, step: CatalogStep)
    ensures forall after, error {:trigger Became(p, after, ApplyCatalog(p.catalog, step), error)} ::
              Became(p, after, ApplyCatalog(p.catalog, step), error) ==> Keeps(p, after)
  {
    hide CatalogOk, PlatformOk, ApplyCatalog;
    if ApplyCatalog(p.catalog, step).Ok? {
      if CatalogOk(p.catalog) { CatalogStepKeeps(p.catalog, step); }
      if PlatformOk(p) { CatalogKeepsPlatform(p, step); }
    }
  }

  /** The rows that are both active and initial, each once, and the active ids. */
  method ActiveStates(states: seq<State>) returns (initials: seq<State>, ids: set<Id>)
    requires Apart(states, StatesDiffer)
    ensures ids == ActiveStateIds(states)
    ensures forall s :: s in initials <==> s in states && s.isActive && s.isInitial
    ensures forall i, j :: 0 <= i < j < |initials| ==> initials[i] != initials[j]
  {
    initials, ids := [], {};
    for k := 0 to |states|
      invariant ids == ActiveStateIds(states[..k])
      invariant forall s :: s in initials <==> s in states[..k] && s.isActive && s.isInitial
      invariant forall i, j :: 0 <= i < j < |initials| ==> initials[i] != initials[j]
    {
      assert states[..k + 1] == states[..k] + [states[k]];
      assert states[k] !in states[..k];
      if states[k].isActive {
        ids := ids + {states[k].id};
        if states[k].isInitial {
          initials := initials + [states[k]];
        }
      }
    }
    assert states[..|states|] == states;
  }

  lemma NoSoleInitial(states: seq<State>, initials: seq<State>)
    requires forall s :: s in initials <==> s in states && s.isActive && s.isInitial
    requires forall i, j :: 0 <= i < j < |initials| ==> initials[i] != initials[j]
    requires |initials| != 1
    ensures !exists initial :: SoleInitial(states, initial)
  {
    if |initials| > 1 {
      assert initials[0] in initials && initials[1] in initials;
    }
  }

  /** `validate_publishable_definition`. */
  method ValidatePublishable(d: Definition, permissions: set<string>) returns (ok: bool)
    requires Apart(d.states, StatesDiffer)
    ensures ok <==> Publishable(d, permissions)
  {
    var initials, ids := ActiveStates(d.states);
    if |initials| != 1 {
      NoSoleInitial(d.states, initials);
      return false;
    }
    assert initials[0] in initials;
    for k := 0 to |d.transitions|
      invariant forall j :: 0 <= j < k && d.transitions[j].isActive ==>
                  var t := d.transitions[j];
                  t.fromId in ids && t.toId in ids && ConfigurationOk(t.configuration)
                  && (t.permission.Some? ==> t.permission.value in permissions)
    {
      var t := d.transitions[k];
      if t.isActive {
        if t.fromId !in ids || t.toId !in ids { return false; }
        if !ConfigurationOk(t.configuration) { return false; }
        if t.permission.Some? && t.permission.value !in permissions { return false; }
      }
    }
    var reachable := ReachableStateIds(initials[0].id, d.transitions);
    var unreachable := ids - reachable;
    ok := unreachable == {};
    assert SoleInitial(d.states, initials[0]);
    CoverageIff(d, initials[0], ids, reachable);
  }

  lemma CoverageIff(d: Definition, initial: State, ids: set<Id>, reachable: set<Id>)
    requires ids == ActiveStateIds(d.states) && SoleInitial(d.states, initial)
    requires forall x :: x in reachable <==> Connected(initial.id, x, d.transitions)
    ensures ids - reachable == {} <==> forall s :: s in d.states && s.isActive ==> Connected(initial.id, s.id, d.transitions)
  {
    if ids - reachable == {} {
      forall s | s in d.states && s.isActive ensures Connected(initial.id, s.id, d.transitions) {
        assert s.id in ids;
        assert s.id !in ids - reachable;
      }
    }
  }

  /** `publish_workflow_definition`. */
  method PublishWorkflowDefinition(db: Database, def: nat, permissions: set<string>) returns (r: Result<nat>)
    requires forall k :: 0 <= k < |db.definitions| ==> Apart(db.definitions[k].states, StatesDiffer)
    modifies db
    ensures r.Ok? ==> r.value == def
    ensures Became(old(db.Rows()), db.Rows(), ApplyCatalog(old(db.Rows()).catalog, Publish(def, permissions)), ErrorOf(r))
    ensures Keeps(old(db.Rows()), db.Rows())
  {
    EditKeeps(db.Rows(), Publish(def, permissions));
    hide Keeps;
    if def >= |db.definitions| { return Err(NotFound); }
    if db.definitions[def].isPublished { return Err(Conflict); }
    var ok := ValidatePublishable(db.definitions[def], permissions);
    if !ok { return Err(Unprocessable); }
    db.definitions := db.definitions[def := db.definitions[def].(isPublished := true)];
    r := Ok(def);
  }

  /** The catalogue with row `n` growing. */
  function WithRow(p: Platform, n: nat, d: Definition, nextId: Id): Platform
    requires n < |p.catalog.defs|
  {
    p.(catalog := Catalog(p.catalog.defs[n := d], nextId))
  }

  /** Copies states into row `n`, filling `state_by_old_id`. */
  method CopyStates(db: Database, n: nat, states: seq<State>) returns (stateByOldId: map<Id, Id>)
    requires n < |db.definitions| && db.definitions[n].states == []
    modifies db
    ensures stateByOldId == OldToNew(states, old(db.nextId))
    ensures db.Rows() == WithRow(old(db.Rows()), n, old(db.definitions)[n].(states := CloneStates(states, old(db.nextId))),
                                 old(db.nextId) + |states|)
  {
    ghost var before, first := db.Rows(), db.nextId;
    var blank := db.definitions[n];
    stateByOldId := map[];
    assert CloneStates([], first) == [];
    assert states[..0] == [];
    for k := 0 to |states|
      invariant stateByOldId == OldToNew(states[..k], first)
      invariant db.Rows() == WithRow(before, n, blank.(states := CloneStates(states[..k], first)), first + k)
    {
      assert states[..k + 1][..k] == states[..k];
      assert CloneStates(states[..k + 1], first) == CloneStates(states[..k], first) + [states[k].(id := first + k)];
      var d := db.definitions[n];
      db.definitions := db.definitions[n := d.(states := d.states + [states[k].(id := db.nextId)])];
      stateByOldId := stateByOldId[states[k].id := db.nextId];
      db.nextId := db.nextId + 1;
    }
    assert states[..|states|] == states;
  }

  /** Copies transitions into row `n`; stops at an end the map misses. */
  method CopyTransitions(db: Database, n: nat, ts: seq<Transition>, stateByOldId: map<Id, Id>) returns (ok: bool)
    requires n < |db.definitions| && db.definitions[n].transitions == []
    modifies db
    ensures ok <==> !Misses(ts, stateByOldId)
    ensures ok ==> db.Rows() == WithRow(old(db.Rows()), n,
              old(db.definitions)[n].(transitions := CloneTransitions(ts, stateByOldId, old(db.nextId))), old(db.nextId) + |ts|)
  {
    ghost var before, first := db.Rows(), db.nextId;
    var blank := db.definitions[n];
    assert ts[..0] == [];
    assert CloneTransitions([], stateByOldId, first) == [];
    for k := 0 to |ts|
      invariant forall t :: t in ts[..k] ==> t.fromId in stateByOldId && t.toId in stateByOldId
      invariant db.Rows() == WithRow(before, n, blank.(transitions := CloneTransitions(ts[..k], stateByOldId, first)), first + k)
    {
      var t := ts[k];
      if t.fromId !in stateByOldId || t.toId !in stateByOldId {
        assert t in ts;
        return false;
      }
      assert ts[..k + 1] == ts[..k] + [t];
      var copy := t.(id := db.nextId, fromId := stateByOldId[t.fromId], toId := stateByOldId[t.toId]);
      assert CloneTransitions(ts[..k + 1], stateByOldId, first) == CloneTransitions(ts[..k], stateByOldId, first) + [copy];
      var d := db.definitions[n];
      db.definitions := db.definitions[n := d.(transitions := d.transitions + [copy])];
      db.nextId := db.nextId + 1;
    }
    assert ts[..|ts|] == ts;
    ok := true;
  }

  /** `create_workflow_version`; a missing old id is a KeyError, and nothing stays. */
  method CreateWorkflowVersion(db: Database, source: nat) returns (r: Result<nat>)
    modifies db
    ensures r.Ok? ==> r.value == |old(db.definitions)|
    ensures Became(old(db.Rows()), db.Rows(), ApplyCatalog(old(db.Rows()).catalog, CreateVersion(source)), ErrorOf(r))
    ensures Keeps(old(db.Rows()), db.Rows())
  {
    EditKeeps(db.Rows(), CreateVersion(source));
    hide Keeps, OldToNew, SortBy, MaxVersion;
    if source >= |db.definitions| { return Err(NotFound); }
    var before := db.Rows();
    var src := db.definitions[source];
    var n := |db.definitions|;
    db.definitions := db.definitions
      + [Definition(src.code, src.name, src.entityType, NextVersion(db.definitions, src), true, false, [], [], [])];
    var stateByOldId := CopyStates(db, n, SortBy(src.states, StateOrder));
    var ok := CopyTransitions(db, n, SortBy(src.transitions, TransitionOrder), stateByOldId);
    if !ok {
      db.Rollback(before);
      return Err(Internal);
    }
    r := Ok(n);
  }

  // -- Editing drafts -------------------------------------------------------

  /** `ensure_draft`. */
  method EnsureDraft(db: Database, def: nat) returns (error: Option<Error>)
    ensures match Draft(db.Rows().catalog, def)
      case Ok(d) => error.None?
      case Err(e) => error == Some(e)
  {
    if def >= |db.definitions| { return Some(NotFound); }
    if db.definitions[def].isPublished { return Some(Conflict); }
    error := None;
  }

  /** `create_workflow_definition`. */
  method CreateWorkflowDefinition(db: Database, code: string, name: string, entityType: string)
    modifies db
    ensures Became(old(db.Rows()), db.Rows(), ApplyCatalog(old(db.Rows()).catalog, CreateDefinition(code, name, entityType)), None)
    ensures Keeps(old(db.Rows()), db.Rows())
  {
    EditKeeps(db.Rows(), CreateDefinition(code, name, entityType));
    hide Keeps;
    var latest := MaxVersion(db.definitions, code);
    db.definitions := db.definitions + [Definition(code, name, entityType, latest + 1, true, false, [], [], [])];
  }

  /** `update_workflow_definition`. */
  method UpdateWorkflowDefinition(db: Database, def: nat, name: Patch<string>, active: Patch<bool>) returns (error: Option<Error>)
    modifies db
    ensures Became(old(db.Rows()), db.Rows(), ApplyCatalog(old(db.Rows()).catalog, UpdateDefinition(def, name, active)), error)
    ensures Keeps(old(db.Rows()), db.Rows())
  {
    EditKeeps(db.Rows(), UpdateDefinition(def, name, active));
    hide Keeps;
    error := EnsureDraft(db, def);
    if error.Some? { return; }
    if name.Set? { db.definitions := db.definitions[def := db.definitions[def].(name := name.value)]; }
    if active.Set? { db.definitions := db.definitions[def := db.definitions[def].(isActive := active.value)]; }
  }

  /** `deactivate_workflow_definition`: published or not. */
  method DeactivateWorkflowDefinition(db: Database, def: nat) returns (error: Option<Error>)
    modifies db
    ensures Became(old(db.Rows()), db.Rows(), ApplyCatalog(old(db.Rows()).catalog, Deactivate(def)), error)
    ensures Keeps(old(db.Rows()), db.Rows())
  {
    EditKeeps(db.Rows(), Deactivate(def));
    hide Keeps;
    if def >= |db.definitions| { return Some(NotFound); }
    db.definitions := db.definitions[def := db.definitions[def].(isActive := false)];
    error := None;
  }

  /** `add_workflow_state`. */
  method AddWorkflowState(db: Database, def: nat, p: StateDraft) returns (error: Option<Error>)
    modifies db
    ensures Became(old(db.Rows()), db.Rows(), ApplyCatalog(old(db.Rows()).catalog, AddState(def, p)), error)
    ensures Keeps(old(db.Rows()), db.Rows())
  {
    EditKeeps(db.Rows(), AddState(def, p));
    hide Keeps;
    error := EnsureDraft(db, def);
    if error.Some? { return; }
    var d := db.definitions[def];
    if p.isInitial && OtherInitial(d.states, None) { return Some(Conflict); }
    if exists s :: s in d.states && s.code == p.code { return Some(Internal); }
    var s := State(db.nextId, p.code, p.name, p.stateType, p.sortOrder, p.isInitial, p.isTerminal, p.isActive);
    db.definitions := db.definitions[def := d.(states := d.states + [s])];
    db.nextId := db.nextId + 1;
  }

  /** `update_workflow_state`. */
  method UpdateWorkflowState(db: Database, def: nat, id: Id, p: StatePatch) returns (error: Option<Error>)
    modifies db
    ensures Became(old(db.Rows()), db.Rows(), ApplyCatalog(old(db.Rows()).catalog, UpdateState(def, id, p)), error)
    ensures Keeps(old(db.Rows()), db.Rows())
  {
    EditKeeps(db.Rows(), UpdateState(def, id, p));
    hide Keeps;
    error := EnsureDraft(db, def);
    if error.Some? { return; }
    var d := db.definitions[def];
    var k := FirstWhere(d.states, (s: State) => s.id == id);
    if k.None? { return Some(NotFound); }
    if p.isInitial == Set(true) && OtherInitial(d.states, Some(id)) { return Some(Conflict); }
    var s := PatchState(d.states[k.value], p);
    db.definitions := db.definitions[def := d.(states := d.states[k.value := s])];
  }

  /** `add_workflow_transition`. */
  method AddWorkflowTransition(db: Database, def: nat, p: TransitionDraft) returns (error: Option<Error>)
    modifies db
    ensures Became(old(db.Rows()), db.Rows(), ApplyCatalog(old(db.Rows()).catalog, AddTransition(def, p)), error)
    ensures Keeps(old(db.Rows()), db.Rows())
  {
    EditKeeps(db.Rows(), AddTransition(def, p));
    hide Keeps;
    error := EnsureDraft(db, def);
    if error.Some? { return; }
    var d := db.definitions[def];
    var ids := StateIds(d.states);
    if p.fromId !in ids || p.toId !in ids { return Some(Unprocessable); }
    if !ConfigurationOk(p.configuration) { return Some(Unprocessable); }
    if exists t :: t in d.transitions && t.code == p.code { return Some(Internal); }
    var t := Transition(db.nextId, p.code, p.name, p.fromId, p.toId, p.permission, p.requiresComment, p.requiresReason,
                        p.sortOrder, p.isActive, p.configuration);
    db.definitions := db.definitions[def := d.(transitions := d.transitions + [t])];
    db.nextId := db.nextId + 1;
  }

  /** `update_workflow_transition`. */
  method UpdateWorkflowTransition(db: Database, def: nat, id: Id, p: TransitionPatch) returns (error: Option<Error>)
    modifies db
    ensures Became(old(db.Rows()), db.Rows(), ApplyCatalog(old(db.Rows()).catalog, UpdateTransition(def, id, p)), error)
    ensures Keeps(old(db.Rows()), db.Rows())
  {
    EditKeeps(db.Rows(), UpdateTransition(def, id, p));
    hide Keeps;
    error := EnsureDraft(db, def);
    if error.Some? { return; }
    var d := db.definitions[def];
    var k := FirstWhere(d.transitions, (t: Transition) => t.id == id);
    if k.None? { return Some(NotFound); }
    var t := PatchTransition(d.transitions[k.value], p);
    var ids := StateIds(d.states);
    if t.fromId !in ids || t.toId !in ids { return Some(Unprocessable); }
    if !ConfigurationOk(t.configuration) { return Some(Unprocessable); }
    db.definitions := db.definitions[def := d.(transitions := d.transitions[k.value := t])];
  }

  /** `add_sla_policy`. */
  method AddSlaPolicy(db: Database, def: nat, p: PolicyDraft) returns (error: Option<Error>)
    modifies db
    ensures Became(old(db.Rows()), db.Rows(), ApplyCatalog(old(db.Rows()).catalog, AddPolicy(def, p)), error)
    ensures Keeps(old(db.Rows()), db.Rows())
  {
    EditKeeps(db.Rows(), AddPolicy(def, p));
    hide Keeps;
    if !PolicyPayloadOk(Set(p.durationMinutes), Set(p.warningBeforeMinutes)) { return Some(Unprocessable); }
    error := EnsureDraft(db, def);
    if error.Some? { return; }
    var d := db.definitions[def];
    if p.stateId.Some? && p.stateId.value !in StateIds(d.states) { return Some(Unprocessable); }
    if p.transitionId.Some? && !(exists t :: t in d.transitions && t.id == p.transitionId.value) { return Some(Unprocessable); }
    if exists q :: q in d.policies && q.code == p.code { return Some(Internal); }
    var q := SlaPolicy(db.nextId, p.code, p.stateId, p.transitionId, p.durationMinutes, p.warningBeforeMinutes, p.isActive);
    db.definitions := db.definitions[def := d.(policies := d.policies + [q])];
    db.nextId := db.nextId + 1;
  }

  /** `update_sla_policy`. */
  method UpdateSlaPolicy(db: Database, def: nat, id: Id, p: PolicyPatch) returns (error: Option<Error>)
    modifies db
    ensures Became(old(db.Rows()), db.Rows(), ApplyCatalog(old(db.Rows()).catalog, UpdatePolicy(def, id, p)), error)
    ensures Keeps(old(db.Rows()), db.Rows())
  {
    EditKeeps(db.Rows(), UpdatePolicy(def, id, p));
    hide Keeps;
    if !PolicyPayloadOk(p.durationMinutes, p.warningBeforeMinutes) { return Some(Unprocessable); }
    error := EnsureDraft(db, def);
    if error.Some? { return; }
    var d := db.definitions[def];
    var k := FirstWhere(d.policies, (q: SlaPolicy) => q.id == id);
    if k.None? { return Some(NotFound); }
    var q := PatchPolicy(d.policies[k.value], p);
    db.definitions := db.definitions[def := d.(policies := d.policies[k.value := q])];
  }
}
