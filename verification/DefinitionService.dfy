/** workflow_definition_service.py as functions on the catalogue of definitions. */
module DefinitionService {
  import opened Wrappers
  import opened WorkflowModel
  import opened Reachability
  import opened Sorting

  const SAFE_CONFIG_KEYS := {"required_fields", "required_attachment_categories", "minimum_attachment_count",
                             "allowed_actor_types", "allowed_permissions"}

  datatype StateDraft = StateDraft(
    code: string, name: string, stateType: StateType, sortOrder: int,
    isInitial: bool, isTerminal: bool, isActive: bool)

  datatype StatePatch = StatePatch(
    name: Patch<string>, stateType: Patch<StateType>, sortOrder: Patch<int>,
    isInitial: Patch<bool>, isTerminal: Patch<bool>, isActive: Patch<bool>)

  datatype TransitionDraft = TransitionDraft(
    code: string, name: string, fromId: Id, toId: Id, permission: Option<string>,
    requiresComment: bool, requiresReason: bool, sortOrder: int, isActive: bool,
    configuration: Option<Configuration>)

  datatype TransitionPatch = TransitionPatch(
    name: Patch<string>, fromId: Patch<Id>, toId: Patch<Id>, permission: Patch<Option<string>>,
    requiresComment: Patch<bool>, requiresReason: Patch<bool>, sortOrder: Patch<int>, isActive: Patch<bool>,
    configuration: Patch<Option<Configuration>>)

  datatype PolicyDraft = PolicyDraft(
    code: string, stateId: Option<Id>, transitionId: Option<Id>,
    durationMinutes: int, warningBeforeMinutes: Option<int>, isActive: bool)

  datatype PolicyPatch = PolicyPatch(
    durationMinutes: Patch<int>, warningBeforeMinutes: Patch<Option<int>>, isActive: Patch<bool>)

  datatype CatalogStep =
    | CreateDefinition(code: string, name: string, entityType: string)
    | CreateVersion(source: nat)
    | UpdateDefinition(def: nat, newName: Patch<string>, newActive: Patch<bool>)
    | AddState(def: nat, state: StateDraft)
    | UpdateState(def: nat, stateId: Id, statePatch: StatePatch)
    | AddTransition(def: nat, transition: TransitionDraft)
    | UpdateTransition(def: nat, transitionId: Id, transitionPatch: TransitionPatch)
    | AddPolicy(def: nat, policy: PolicyDraft)
    | UpdatePolicy(def: nat, policyId: Id, policyPatch: PolicyPatch)
    | Publish(def: nat, permissions: set<string>)
    | Deactivate(def: nat)

  // -- Guards ---------------------------------------------------------------

  predicate ConfigurationOk(c: Option<Configuration>) {
    c.None? || c.value.keys <= SAFE_CONFIG_KEYS
  }

  /** The payload schema of SLA policies: gt=0, ge=0. */
  predicate PolicyPayloadOk(duration: Patch<int>, warning: Patch<Option<int>>) {
    && (duration.Set? ==> duration.value > 0)
    && (warning.Set? && warning.value.Some? ==> warning.value.value >= 0)
  }

  predicate OtherInitial(states: seq<State>, except: Option<Id>) {
    exists s :: s in states && Some(s.id) != except && s.isInitial && s.isActive
  }

  /** `validate_publishable_definition`, for the permission codes known to be active. */
  ghost predicate Publishable(d: Definition, permissions: set<string>) {
    && Sound(d)
    && forall t :: t in d.transitions && t.isActive ==>
         ConfigurationOk(t.configuration) && (t.permission.Some? ==> t.permission.value in permissions)
  }

  /** `initial` is the one row that is both active and initial. */
  ghost predicate SoleInitial(states: seq<State>, initial: State) {
    && initial in states && initial.isActive && initial.isInitial
    && forall s :: s in states && s.isActive && s.isInitial ==> s == initial
  }

  /** One active initial state, active transitions join active states, and
      every active state is reached from the initial one. */
  ghost predicate Sound(d: Definition) {
    && (forall t :: t in d.transitions && t.isActive ==>
          t.fromId in ActiveStateIds(d.states) && t.toId in ActiveStateIds(d.states))
    && exists initial ::
         && SoleInitial(d.states, initial)
         && forall s :: s in d.states && s.isActive ==> Connected(initial.id, s.id, d.transitions)
  }

  // -- Versions -------------------------------------------------------------

  function MaxVersion(defs: seq<Definition>, code: string): nat {
    if defs == [] then 0
    else
      var m := MaxVersion(defs[..|defs| - 1], code);
      var d := defs[|defs| - 1];
      if d.code == code && d.version > m then d.version else m
  }

  // -- Sorting by sort_order ------------------------------------------------

  function StateOrder(s: State): int { s.sortOrder }

  function TransitionOrder(t: Transition): int { t.sortOrder }

  // -- Cloning --------------------------------------------------------------

  function CloneStates(states: seq<State>, first: Id): seq<State> {
    seq(|states|, k requires 0 <= k < |states| => states[k].(id := first + k))
  }

  /** `state_by_old_id`. */
  function OldToNew(states: seq<State>, first: Id): map<Id, Id> {
    if states == [] then map[]
    else OldToNew(states[..|states| - 1], first)[states[|states| - 1].id := first + |states| - 1]
  }

  function CloneTransitions(ts: seq<Transition>, f: map<Id, Id>, first: Id): seq<Transition>
    requires forall t :: t in ts ==> t.fromId in f && t.toId in f
  {
    seq(|ts|, k requires 0 <= k < |ts| => ts[k].(id := first + k, fromId := f[ts[k].fromId], toId := f[ts[k].toId]))
  }

  predicate Misses(ts: seq<Transition>, f: map<Id, Id>) {
    exists t :: t in ts && (t.fromId !in f || t.toId !in f)
  }

  function NextVersion(defs: seq<Definition>, source: Definition): nat {
    var latest := MaxVersion(defs, source.code);
    (if latest == 0 then source.version else latest) + 1
  }

  /** `state_by_old_id` once the states of the source are copied. */
  function VersionMap(c: Catalog, source: nat): map<Id, Id>
    requires source < |c.defs|
  {
    OldToNew(SortBy(c.defs[source].states, StateOrder), c.nextId)
  }

  function Renumber(src: Definition, version: nat, states: seq<State>, ts: seq<Transition>, f: map<Id, Id>, n: Id): Definition
    requires !Misses(ts, f)
  {
    Definition(src.code, src.name, src.entityType, version, true, false,
               CloneStates(states, n), CloneTransitions(ts, f, n + |states|), [])
  }

  function NewVersion(c: Catalog, source: nat): Definition
    requires source < |c.defs|
    requires !Misses(SortBy(c.defs[source].transitions, TransitionOrder), VersionMap(c, source))
  {
    Renumber(c.defs[source], NextVersion(c.defs, c.defs[source]), SortBy(c.defs[source].states, StateOrder),
             SortBy(c.defs[source].transitions, TransitionOrder), VersionMap(c, source), c.nextId)
  }

  /** A missing old id is Python's KeyError. */
  function Clone(c: Catalog, source: nat): Result<Catalog>
    requires source < |c.defs|
  {
    if Misses(SortBy(c.defs[source].transitions, TransitionOrder), VersionMap(c, source)) then Err(Internal)
    else
      var d := NewVersion(c, source);
      Ok(Catalog(c.defs + [d], c.nextId + |d.states| + |d.transitions|))
  }

  // -- The operations -------------------------------------------------------

  /** `get_definition_or_404` then `ensure_draft`. */
  function Draft(c: Catalog, def: nat): Result<Definition> {
    if def >= |c.defs| then Err(NotFound)
    else if c.defs[def].isPublished then Err(Conflict)
    else Ok(c.defs[def])
  }

  function Put(c: Catalog, def: nat, d: Definition): Catalog
    requires def < |c.defs|
  {
    c.(defs := c.defs[def := d])
  }

  function PatchState(s: State, p: StatePatch): State {
    s.(name := p.name.Or(s.name), stateType := p.stateType.Or(s.stateType), sortOrder := p.sortOrder.Or(s.sortOrder),
       isInitial := p.isInitial.Or(s.isInitial), isTerminal := p.isTerminal.Or(s.isTerminal),
       isActive := p.isActive.Or(s.isActive))
  }

  function PatchTransition(t: Transition, p: TransitionPatch): Transition {
    t.(name := p.name.Or(t.name), fromId := p.fromId.Or(t.fromId), toId := p.toId.Or(t.toId),
       permission := p.permission.Or(t.permission), requiresComment := p.requiresComment.Or(t.requiresComment),
       requiresReason := p.requiresReason.Or(t.requiresReason), sortOrder := p.sortOrder.Or(t.sortOrder),
       isActive := p.isActive.Or(t.isActive), configuration := p.configuration.Or(t.configuration))
  }

  function PatchPolicy(q: SlaPolicy, p: PolicyPatch): SlaPolicy {
    q.(durationMinutes := p.durationMinutes.Or(q.durationMinutes),
       warningBeforeMinutes := p.warningBeforeMinutes.Or(q.warningBeforeMinutes),
       isActive := p.isActive.Or(q.isActive))
  }

  /** `ensure_no_other_initial_state` and the (definition, code) uniqueness constraint. */
  function AddStateTo(c: Catalog, def: nat, p: StateDraft): Result<Catalog> {
    var d :- Draft(c, def);
    if p.isInitial && OtherInitial(d.states, None) then Err(Conflict)
    else if exists s :: s in d.states && s.code == p.code then Err(Internal)
    else
      var s := State(c.nextId, p.code, p.name, p.stateType, p.sortOrder, p.isInitial, p.isTerminal, p.isActive);
      Ok(Put(c, def, d.(states := d.states + [s])).(nextId := c.nextId + 1))
  }

  function UpdateStateOf(c: Catalog, def: nat, id: Id, p: StatePatch): Result<Catalog> {
    var d :- Draft(c, def);
    var k := FirstWhere(d.states, (s: State) => s.id == id);
    if k.None? then Err(NotFound)
    else if p.isInitial == Set(true) && OtherInitial(d.states, Some(id)) then Err(Conflict)
    else Ok(Put(c, def, d.(states := d.states[k.value := PatchState(d.states[k.value], p)])))
  }

  function AddTransitionTo(c: Catalog, def: nat, p: TransitionDraft): Result<Catalog> {
    var d :- Draft(c, def);
    if p.fromId !in StateIds(d.states) || p.toId !in StateIds(d.states) || !ConfigurationOk(p.configuration) then
      Err(Unprocessable)
    else if exists t :: t in d.transitions && t.code == p.code then Err(Internal)
    else
      var t := Transition(c.nextId, p.code, p.name, p.fromId, p.toId, p.permission, p.requiresComment,
                          p.requiresReason, p.sortOrder, p.isActive, p.configuration);
      Ok(Put(c, def, d.(transitions := d.transitions + [t])).(nextId := c.nextId + 1))
  }

  function UpdateTransitionOf(c: Catalog, def: nat, id: Id, p: TransitionPatch): Result<Catalog> {
    var d :- Draft(c, def);
    var k := FirstWhere(d.transitions, (t: Transition) => t.id == id);
    if k.None? then Err(NotFound)
    else
      var t := PatchTransition(d.transitions[k.value], p);
      if t.fromId !in StateIds(d.states) || t.toId !in StateIds(d.states) || !ConfigurationOk(t.configuration) then
        Err(Unprocessable)
      else Ok(Put(c, def, d.(transitions := d.transitions[k.value := t])))
  }

  function AddPolicyTo(c: Catalog, def: nat, p: PolicyDraft): Result<Catalog> {
    if !PolicyPayloadOk(Set(p.durationMinutes), Set(p.warningBeforeMinutes)) then Err(Unprocessable) else
    var d :- Draft(c, def);
    if p.stateId.Some? && p.stateId.value !in StateIds(d.states) then Err(Unprocessable)
    else if p.transitionId.Some? && !(exists t :: t in d.transitions && t.id == p.transitionId.value) then Err(Unprocessable)
    else if exists q :: q in d.policies && q.code == p.code then Err(Internal)
    else
      var q := SlaPolicy(c.nextId, p.code, p.stateId, p.transitionId, p.durationMinutes, p.warningBeforeMinutes, p.isActive);
      Ok(Put(c, def, d.(policies := d.policies + [q])).(nextId := c.nextId + 1))
  }

  function UpdatePolicyOf(c: Catalog, def: nat, id: Id, p: PolicyPatch): Result<Catalog> {
    if !PolicyPayloadOk(p.durationMinutes, p.warningBeforeMinutes) then Err(Unprocessable) else
    var d :- Draft(c, def);
    var k := FirstWhere(d.policies, (q: SlaPolicy) => q.id == id);
    if k.None? then Err(NotFound)
    else Ok(Put(c, def, d.(policies := d.policies[k.value := PatchPolicy(d.policies[k.value], p)])))
  }

  ghost function PublishIn(c: Catalog, def: nat, permissions: set<string>): Result<Catalog> {
    var d :- Draft(c, def);
    if Publishable(d, permissions) then Ok(Put(c, def, d.(isPublished := true))) else Err(Unprocessable)
  }

  ghost function ApplyCatalog(c: Catalog, step: CatalogStep): Result<Catalog> {
    match step
    case CreateDefinition(code, name, entityType) =>
      Ok(c.(defs := c.defs + [Definition(code, name, entityType, MaxVersion(c.defs, code) + 1, true, false, [], [], [])]))
    case CreateVersion(source) => if source < |c.defs| then Clone(c, source) else Err(NotFound)
    case UpdateDefinition(def, name, active) =>
      var d :- Draft(c, def);
      Ok(Put(c, def, d.(name := name.Or(d.name), isActive := active.Or(d.isActive))))
    case AddState(def, p) => AddStateTo(c, def, p)
    case UpdateState(def, id, p) => UpdateStateOf(c, def, id, p)
    case AddTransition(def, p) => AddTransitionTo(c, def, p)
    case UpdateTransition(def, id, p) => UpdateTransitionOf(c, def, id, p)
    case AddPolicy(def, p) => AddPolicyTo(c, def, p)
    case UpdatePolicy(def, id, p) => UpdatePolicyOf(c, def, id, p)
    case Publish(def, permissions) => PublishIn(c, def, permissions)
    case Deactivate(def) =>
      if def < |c.defs| then Ok(Put(c, def, c.defs[def].(isActive := false))) else Err(NotFound)
  }
}
