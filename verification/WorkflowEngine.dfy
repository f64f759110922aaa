/** workflow_engine.py as functions from the rows before a call to the rows after
    it.  A raised error leaves the rows alone, so it carries none. */
module WorkflowEngine {
  import opened Wrappers
  import opened JsonScrubber
  import opened WorkflowModel
  import opened DefinitionService
  import opened Sorting

  /** What the adapter registered for the entity type answers during one call. */
  datatype Adapter = Adapter(
    registered: bool, entityError: Option<Error>, startError: Option<Error>, transitionError: Option<Error>,
    applied: Result<Object>, context: Object)

  datatype StartRequest = StartRequest(entityType: string, entityId: Id, workflowCode: Option<string>, instanceKey: string)

  datatype TransitionRequest = TransitionRequest(
    entityType: string, entityId: Id, code: string, actor: Actor,
    comment: Option<string>, reason: Option<string>, input: Option<Object>,
    lockVersion: Option<int>, key: Option<string>, workflowCode: Option<string>, instanceKey: string)

  datatype Started = Started(platform: Platform, inst: nat)

  datatype Done = Done(platform: Platform, execution: nat, replayed: bool)

  // -- Lookups --------------------------------------------------------------

  predicate Offers(d: Definition, entityType: string, code: Option<string>) {
    d.entityType == entityType && d.isActive && d.isPublished && (code.Some? ==> d.code == code.value)
  }

  /** The published, active definition with the highest version. */
  function LatestDefinition(defs: seq<Definition>, entityType: string, code: Option<string>): (r: Option<nat>)
    ensures r.Some? ==> r.value < |defs| && Offers(defs[r.value], entityType, code)
    ensures forall k :: 0 <= k < |defs| && Offers(defs[k], entityType, code) ==>
              r.Some? && defs[k].version <= defs[r.value].version
  {
    if defs == [] then None
    else
      var n := |defs| - 1;
      var best := LatestDefinition(defs[..n], entityType, code);
      assert forall k :: 0 <= k < n ==> defs[k] == defs[..n][k];
      if Offers(defs[n], entityType, code) && (best.None? || defs[best.value].version < defs[n].version) then Some(n) else best
  }

  function InitialOf(d: Definition): Option<State> {
    var k := FirstWhere(d.states, (s: State) => s.isInitial && s.isActive);
    if k.Some? then Some(d.states[k.value]) else None
  }

  predicate SameKey(i: Instance, definition: nat, entityType: string, entityId: Id, instanceKey: string) {
    i.definition == definition && i.entityType == entityType && i.entityId == entityId && i.instanceKey == instanceKey
  }

  function FindInstance(p: Platform, definition: nat, entityType: string, entityId: Id, instanceKey: string): Option<nat> {
    FirstWhere(p.instances, (i: Instance) => SameKey(i, definition, entityType, entityId, instanceKey))
  }

  /** A row of the join of `get_instance_or_404` with the definitions. */
  predicate Joined(i: Instance, defs: seq<Definition>, entityType: string, entityId: Id, code: Option<string>, instanceKey: string) {
    && i.entityType == entityType && i.entityId == entityId && i.instanceKey == instanceKey
    && i.definition < |defs| && (code.Some? ==> defs[i.definition].code == code.value)
  }

  /** The newest matching instance. */
  function LookupInstance(p: Platform, entityType: string, entityId: Id, code: Option<string>, instanceKey: string): Option<nat> {
    LastWhere(p.instances, (i: Instance) => Joined(i, p.catalog.defs, entityType, entityId, code, instanceKey))
  }

  function FindTransition(ts: seq<Transition>, code: string): Option<Transition> {
    var k := FirstWhere(ts, (t: Transition) => t.code == code && t.isActive);
    if k.Some? then Some(ts[k.value]) else None
  }

  function FindRecord(records: seq<Record>, key: string, inst: nat, transition: Id): Option<nat> {
    FirstWhere(records, (r: Record) => r.key == key && r.inst == inst && r.transition == transition)
  }

  // -- Timers and events ----------------------------------------------------

  function WithEvent(p: Platform, kind: EventKind, inst: Instance, payload: Object): Platform {
    p.(outbox := p.outbox + [Event(kind, inst.entityType, inst.entityId, ScrubObject(payload))])
  }

  predicate Applies(q: SlaPolicy, state: Id, transition: Option<Id>) {
    && q.isActive
    && (q.stateId.None? || q.stateId == Some(state))
    && (q.transitionId.None? || q.transitionId == transition)
  }

  function Max0(n: int): int {
    if n < 0 then 0 else n
  }

  function TimerFor(q: SlaPolicy, inst: nat, now: Time): Timer {
    var warning := if q.warningBeforeMinutes.None? then None
                   else Some(now + 60 * Max0(q.durationMinutes - q.warningBeforeMinutes.value));
    Timer(inst, q.id, now, now + 60 * q.durationMinutes, warning, Running, None, None)
  }

  function NewTimers(policies: seq<SlaPolicy>, inst: nat, state: Id, transition: Option<Id>, now: Time): seq<Timer> {
    if policies == [] then []
    else
      var q := policies[|policies| - 1];
      NewTimers(policies[..|policies| - 1], inst, state, transition, now)
      + (if Applies(q, state, transition) then [TimerFor(q, inst, now)] else [])
  }

  function Complete(t: Timer, inst: nat, now: Time): Timer {
    if t.inst == inst && t.status == Running then t.(status := Settled, completedAt := Some(now)) else t
  }

  function CompleteTimers(timers: seq<Timer>, inst: nat, now: Time): seq<Timer> {
    seq(|timers|, k requires 0 <= k < |timers| => Complete(timers[k], inst, now))
  }

  predicate Overdue(t: Timer, now: Time) {
    t.status == Running && t.dueAt < now
  }

  function Breach(t: Timer, now: Time): Timer {
    if Overdue(t, now) then t.(status := Breached, breachedAt := Some(now)) else t
  }

  function BreachTimers(timers: seq<Timer>, now: Time): seq<Timer> {
    seq(|timers|, k requires 0 <= k < |timers| => Breach(timers[k], now))
  }

  function BreachEvent(timers: seq<Timer>, k: nat): Event
    requires k < |timers|
  {
    Event(SlaBreached, "WorkflowSlaTimer", k, map["workflow_instance_id" := Str(IdText(timers[k].inst))])
  }

  function BreachEvents(timers: seq<Timer>, now: Time): seq<Event> {
    if timers == [] then []
    else
      var n := |timers| - 1;
      BreachEvents(timers[..n], now) + (if Overdue(timers[n], now) then [BreachEvent(timers, n)] else [])
  }

  // -- Starting -------------------------------------------------------------

  function Start(p: Platform, q: StartRequest, a: Adapter, now: Time): Result<Started> {
    if !a.registered then Err(NotFound) else
    var def := LatestDefinition(p.catalog.defs, q.entityType, q.workflowCode);
    if def.None? then Err(NotFound) else
    var existing := FindInstance(p, def.value, q.entityType, q.entityId, q.instanceKey);
    if existing.Some? then Ok(Started(p, existing.value))
    else if a.entityError.Some? then Err(a.entityError.value)
    else if a.startError.Some? then Err(a.startError.value) else
    var d := p.catalog.defs[def.value];
    var state := InitialOf(d);
    if state.None? then Err(Conflict) else
    var inst := Instance(def.value, d.version, q.entityType, q.entityId, q.instanceKey,
                         state.value.id, now, None, None, 1);
    var created := p.(instances := p.instances + [inst],
                      timers := p.timers + NewTimers(d.policies, |p.instances|, state.value.id, None, now));
    Ok(Started(WithEvent(created, WorkflowStarted, inst, map["state" := Str(state.value.code), "context" := Obj(a.context)]),
               |p.instances|))
  }

  // -- The gate -------------------------------------------------------------

  /** `can_execute_transition`: the error it raises, if any. */
  function Gate(inst: Instance, t: Transition, actor: Actor): Option<Error> {
    if t.fromId != inst.current then Some(Conflict)
    else if Given(t.permission) && t.permission.value !in actor.permissions then Some(Forbidden)
    else if t.configuration.None? then None
    else if !(t.configuration.value.keys <= SAFE_CONFIG_KEYS) then Some(Unprocessable)
    else if t.configuration.value.allowedPermissions != {} && actor.permissions !! t.configuration.value.allowedPermissions then
      Some(Forbidden)
    else if t.configuration.value.allowedActorTypes != {} && actor.actorType.Code() !in t.configuration.value.allowedActorTypes then
      Some(Forbidden)
    else None
  }

  predicate MissingField(input: Option<Object>, field: string) {
    input.None? || field !in input.value || input.value[field] == Null || input.value[field] == Str("")
  }

  predicate FieldsGiven(t: Transition, input: Option<Object>) {
    t.configuration.None? || forall f :: f in t.configuration.value.requiredFields ==> !MissingField(input, f)
  }

  function FingerprintOf(q: TransitionRequest): Fingerprint {
    Fingerprint(q.comment, q.reason, SafeJson(q.input), q.lockVersion)
  }

  /** `get_available_transitions`: nothing in a terminal state, else what the gate lets through. */
  function AvailableTransitions(p: Platform, i: nat, actor: Actor): Result<seq<Transition>>
    requires i < |p.instances|
  {
    var inst := p.instances[i];
    if inst.definition >= |p.catalog.defs| then Err(Conflict) else
    var d := p.catalog.defs[inst.definition];
    var current := FindState(d.states, inst.current);
    if current.None? then Err(Conflict)
    else if current.value.isTerminal then Ok([])
    else Ok(Permitted(SortBy(d.transitions, TransitionOrder), inst, actor))
  }

  function Permitted(ts: seq<Transition>, inst: Instance, actor: Actor): (r: seq<Transition>)
    ensures forall t :: t in r <==> t in ts && t.isActive && Gate(inst, t, actor).None?
  {
    if ts == [] then []
    else
      var rest := Permitted(ts[1..], inst, actor);
      if ts[0].isActive && Gate(inst, ts[0], actor).None? then [ts[0]] + rest else rest
  }

  // -- Moving ---------------------------------------------------------------

  /** The instance row after it enters `state` by a transition. */
  function Entered(inst: Instance, to: Id, state: Option<State>, now: Time): Instance {
    inst.(current := to, lockVersion := inst.lockVersion + 1,
          completedAt := if state.Some? && state.value.stateType in {CompletedState, ClosedState} then Some(now) else inst.completedAt,
          cancelledAt := if state.Some? && state.value.stateType == CancelledState then Some(now) else inst.cancelledAt)
  }

  /** The common end of an executed and of an externally recorded transition. */
  function Advance(p: Platform, i: nat, t: Transition, e: Execution, now: Time): Platform
    requires i < |p.instances| && p.instances[i].definition < |p.catalog.defs|
  {
    var inst := p.instances[i];
    var d := p.catalog.defs[inst.definition];
    var moved := p.(instances := p.instances[i := Entered(inst, t.toId, FindState(d.states, t.toId), now)],
                    timers := CompleteTimers(p.timers, i, now) + NewTimers(d.policies, i, t.toId, Some(t.id), now),
                    executions := p.executions + [e]);
    WithEvent(WithEvent(moved, TransitionExecuted, inst,
                        ExecutedPayload(t.code, IdText(e.fromId), IdText(e.toId), e.result)),
              StateChanged, inst, map["transition" := Str(t.code), "state_id" := Str(IdText(t.toId))])
  }

  function ExecutionOf(i: nat, inst: Instance, t: Transition, q: TransitionRequest, result: Option<Object>): Execution {
    Execution(i, t.id, inst.current, t.toId, q.actor.actorType, q.actor.actorId, q.comment, q.reason,
              SafeJson(q.input), SafeJson(result), q.key)
  }

  /** `execute_transition_with_callback`. */
  function Execute(p: Platform, q: TransitionRequest, a: Adapter, now: Time): Result<Done> {
    if !a.registered then Err(NotFound)
    else if a.entityError.Some? then Err(a.entityError.value) else
    var at := LookupInstance(p, q.entityType, q.entityId, q.workflowCode, q.instanceKey);
    if at.None? then Err(NotFound) else
    var i := at.value;
    if q.lockVersion.Some? && q.lockVersion.value != p.instances[i].lockVersion then Err(Conflict) else
    var t := FindTransition(p.catalog.defs[p.instances[i].definition].transitions, q.code);
    if t.None? then Err(NotFound) else
    var existing := if Given(q.key) then FindRecord(p.records, q.key.value, i, t.value.id) else None;
    if existing.Some? && p.records[existing.value].fingerprint != FingerprintOf(q) then Err(Conflict)
    else if existing.Some? && p.records[existing.value].execution < |p.executions| then
      Ok(Done(p, p.records[existing.value].execution, true))
    else Perform(p, q, a, now, i, t.value)
  }

  /** What refuses a transition behind the idempotency check, if anything. */
  function Refusal(p: Platform, q: TransitionRequest, a: Adapter, i: nat, t: Transition): Option<Error>
    requires i < |p.instances|
  {
    var gate := Gate(p.instances[i], t, q.actor);
    if gate.Some? then gate
    else if t.requiresComment && !Given(q.comment) then Some(Unprocessable)
    else if t.requiresReason && !Given(q.reason) then Some(Unprocessable)
    else if !FieldsGiven(t, q.input) then Some(Unprocessable)
    else if a.transitionError.Some? then a.transitionError
    else if a.applied.Err? then Some(a.applied.error)
    else if Given(q.key) && FindRecord(p.records, q.key.value, i, t.id).Some? then Some(Internal)   // unique constraint
    else None
  }

  function Performed(p: Platform, q: TransitionRequest, result: Object, now: Time, i: nat, t: Transition): Platform
    requires i < |p.instances| && p.instances[i].definition < |p.catalog.defs|
  {
    var moved := Advance(p, i, t, ExecutionOf(i, p.instances[i], t, q, Some(result)), now);
    if Given(q.key) then
      moved.(records := p.records + [Record(q.key.value, i, t.id, FingerprintOf(q), |p.executions|)])
    else moved
  }

  function Perform(p: Platform, q: TransitionRequest, a: Adapter, now: Time, i: nat, t: Transition): Result<Done>
    requires i < |p.instances| && p.instances[i].definition < |p.catalog.defs|
  {
    var refusal := Refusal(p, q, a, i, t);
    if refusal.Some? then Err(refusal.value)
    else Ok(Done(Performed(p, q, a.applied.value, now, i, t), |p.executions|, false))
  }

  /** `record_external_transition`: no lock version, no record, no adapter veto. */
  function RecordExternal(p: Platform, q: TransitionRequest, result: Option<Object>, a: Adapter, now: Time): Result<Done> {
    if !a.registered then Err(NotFound)
    else if a.entityError.Some? then Err(a.entityError.value) else
    var at := LookupInstance(p, q.entityType, q.entityId, q.workflowCode, q.instanceKey);
    if at.None? then Err(NotFound) else
    var i := at.value;
    var t := FindTransition(p.catalog.defs[p.instances[i].definition].transitions, q.code);
    if t.None? then Err(NotFound) else
    var gate := Gate(p.instances[i], t.value, q.actor);
    if gate.Some? then Err(gate.value)
    else Ok(Done(Advance(p, i, t.value, ExecutionOf(i, p.instances[i], t.value, q, result), now), |p.executions|, false))
  }

  function CancelledStateOf(d: Definition): Option<State> {
    var k := FirstWhere(d.states, (s: State) => s.stateType == CancelledState);
    if k.Some? then Some(d.states[k.value]) else None
  }

  /** `cancel_workflow`: no execution, no timer touched. */
  function Cancel(p: Platform, i: nat, reason: Option<string>, now: Time): Result<Platform> {
    if i >= |p.instances| || p.instances[i].definition >= |p.catalog.defs| then Err(NotFound) else
    var inst := p.instances[i];
    var d := p.catalog.defs[inst.definition];
    var current := FindState(d.states, inst.current);
    if current.Some? && current.value.isTerminal then Err(Conflict) else
    var to := CancelledStateOf(d);
    if to.None? then Err(Conflict) else
    var moved := inst.(current := to.value.id, cancelledAt := Some(now), lockVersion := inst.lockVersion + 1);
    Ok(WithEvent(p.(instances := p.instances[i := moved]), WorkflowCancelled, inst,
                 map["reason_code" := if reason.None? then Null else Str(reason.value)]))
  }

  /** `mark_breached_sla_timers`. */
  function Sweep(p: Platform, now: Time): Platform {
    p.(timers := BreachTimers(p.timers, now), outbox := p.outbox + BreachEvents(p.timers, now))
  }

  function SweepCount(p: Platform, now: Time): nat {
    |BreachEvents(p.timers, now)|
  }
}
