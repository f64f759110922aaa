/** What the calls of the engine answer, said on the columns of the rows: when a call
    succeeds, with which error it fails, and every column it leaves behind. */
module EngineAnswers {
  import opened Wrappers
  import opened JsonScrubber
  import opened WorkflowModel
  import opened DefinitionService
  import opened DefinitionLaws
  import opened WorkflowEngine
  import opened EngineLaws
  import opened EngineRuns
  import opened Sorting

  predicate Filled(text: Option<string>) {
    text.Some? && |text.value| > 0
  }

  // -- Lookups --------------------------------------------------------------

  /** Row `i` is an instance of the entity, under the key, of a definition with the code if one is named. */
  predicate IsFor(p: Platform, i: nat, entityType: string, entityId: Id, code: Option<string>, instanceKey: string)
    requires i < |p.instances|
  {
    var x := p.instances[i];
    && x.entityType == entityType && x.entityId == entityId && x.instanceKey == instanceKey
    && x.definition < |p.catalog.defs| && (code.Some? ==> p.catalog.defs[x.definition].code == code.value)
  }

  predicate IsNewest(p: Platform, i: nat, entityType: string, entityId: Id, code: Option<string>, instanceKey: string) {
    && i < |p.instances| && IsFor(p, i, entityType, entityId, code, instanceKey)
    && forall j: nat :: i < j < |p.instances| ==> !IsFor(p, j, entityType, entityId, code, instanceKey)
  }

  /** The lookup finds the newest instance, and none exactly when there is none. */
  lemma LookupNewest(p: Platform, entityType: string, entityId: Id, code: Option<string>, instanceKey: string)
    ensures var at := LookupInstance(p, entityType, entityId, code, instanceKey);
            && (at.Some? ==> IsNewest(p, at.value, entityType, entityId, code, instanceKey))
            && (at.None? ==> forall i: nat :: i < |p.instances| ==> !IsFor(p, i, entityType, entityId, code, instanceKey))
  {
    forall i: nat | i < |p.instances|
      ensures IsFor(p, i, entityType, entityId, code, instanceKey)
              <==> Joined(p.instances[i], p.catalog.defs, entityType, entityId, code, instanceKey)
    {
    }
  }

  lemma NewestFound(p: Platform, i: nat, entityType: string, entityId: Id, code: Option<string>, instanceKey: string)
    requires IsNewest(p, i, entityType, entityId, code, instanceKey)
    ensures LookupInstance(p, entityType, entityId, code, instanceKey) == Some(i)
  {
    LookupNewest(p, entityType, entityId, code, instanceKey);
  }

  /** The one active transition of that code. */
  predicate IsNamed(ts: seq<Transition>, t: Transition, code: string) {
    t in ts && t.code == code && t.isActive && forall u :: u in ts && u.code == code && u.isActive ==> u == t
  }

  lemma NamedFound(ts: seq<Transition>, code: string)
    ensures forall t :: IsNamed(ts, t, code) ==> FindTransition(ts, code) == Some(t)
    ensures FindTransition(ts, code).None? <==> forall u :: u in ts ==> !(u.code == code && u.isActive)
  {
    var k := FirstWhere(ts, (t: Transition) => t.code == code && t.isActive);
    if k.Some? { assert ts[k.value] in ts; }
  }

  // -- The gate -------------------------------------------------------------

  predicate Configured(t: Transition) {
    t.configuration.None?
    || t.configuration.value.keys <= {"required_fields", "required_attachment_categories", "minimum_attachment_count",
                                      "allowed_actor_types", "allowed_permissions"}
  }

  /** The actor has the permission named, one of those allowed, and one of the allowed types. */
  predicate Entitled(t: Transition, actor: Actor) {
    && (Filled(t.permission) ==> t.permission.value in actor.permissions)
    && (t.configuration.Some? && t.configuration.value.allowedPermissions != {} ==>
          exists x :: x in actor.permissions && x in t.configuration.value.allowedPermissions)
    && (t.configuration.Some? && t.configuration.value.allowedActorTypes != {} ==>
          (match actor.actorType
           case System => "SYSTEM"
           case InternalUser => "INTERNAL_USER"
           case ContractorUser => "CONTRACTOR_USER") in t.configuration.value.allowedActorTypes)
  }

  /** The gate opens exactly from the current state, for a safe configuration and an
      entitled actor. */
  lemma GateAnswer(inst: Instance, t: Transition, actor: Actor)
    ensures Gate(inst, t, actor).None? <==> t.fromId == inst.current && Configured(t) && Entitled(t, actor)
    ensures t.fromId != inst.current ==> Gate(inst, t, actor) == Some(Conflict)
    ensures t.fromId == inst.current && Configured(t) && !Entitled(t, actor) ==> Gate(inst, t, actor) == Some(Forbidden)
    ensures t.fromId == inst.current && !Configured(t) && (Filled(t.permission) ==> t.permission.value in actor.permissions) ==>
              Gate(inst, t, actor) == Some(Unprocessable)
  {
    assert SAFE_CONFIG_KEYS == {"required_fields", "required_attachment_categories", "minimum_attachment_count",
                                "allowed_actor_types", "allowed_permissions"};
    if t.configuration.Some? {
      var allowed := t.configuration.value.allowedPermissions;
      assert actor.permissions !! allowed <==> !exists x :: x in actor.permissions && x in allowed;
    }
  }

  /** What a transition demands of the call: comment, reason, and every required field
      with a value that is neither null nor empty. */
  predicate Supplied(t: Transition, comment: Option<string>, reason: Option<string>, input: Option<Object>) {
    && (t.requiresComment ==> Filled(comment)) && (t.requiresReason ==> Filled(reason))
    && (t.configuration.Some? ==>
          forall f :: f in t.configuration.value.requiredFields ==>
            input.Some? && f in input.value && input.value[f] != Null && input.value[f] != Str(""))
  }

  // -- Moving ---------------------------------------------------------------

  predicate PolicyFits(x: SlaPolicy, state: Id, transition: Option<Id>) {
    x.isActive && (x.stateId.Some? ==> x.stateId.value == state) && (x.transitionId.Some? ==> x.transitionId == transition)
  }

  /** A timer just started under a policy: due after its minutes, warned about that much
      before, but not before the start. */
  predicate StartedUnder(t: Timer, x: SlaPolicy, i: nat, now: Time) {
    && t.inst == i && t.policy == x.id && t.startedAt == now && t.dueAt == now + 60 * x.durationMinutes
    && t.status == Running && t.completedAt.None? && t.breachedAt.None?
    && (t.warningAt.Some? <==> x.warningBeforeMinutes.Some?)
    && (t.warningAt.Some? ==>
          var lead := x.durationMinutes - x.warningBeforeMinutes.value;
          t.warningAt.value == if lead > 0 then now + 60 * lead else now)
  }

  predicate HasPolicy(t: Timer, policies: seq<SlaPolicy>, i: nat, state: Id, transition: Option<Id>, now: Time) {
    exists x :: x in policies && PolicyFits(x, state, transition) && StartedUnder(t, x, i, now)
  }

  /** New timers are, one for one, those of the policies that fit. */
  predicate TimersFit(timers: seq<Timer>, policies: seq<SlaPolicy>, i: nat, state: Id, transition: Option<Id>, now: Time) {
    && (forall k :: 0 <= k < |timers| ==> HasPolicy(timers[k], policies, i, state, transition, now))
    && (forall x :: x in policies && PolicyFits(x, state, transition) ==> exists k :: 0 <= k < |timers| && StartedUnder(timers[k], x, i, now))
    && (forall j, k :: 0 <= j < k < |timers| ==> timers[j].policy != timers[k].policy)
  }

  lemma PolicyTimer(x: SlaPolicy, i: nat, state: Id, transition: Option<Id>, now: Time)
    ensures Applies(x, state, transition) <==> PolicyFits(x, state, transition)
    ensures StartedUnder(TimerFor(x, i, now), x, i, now)
  {
  }

  lemma NewTimersFit(policies: seq<SlaPolicy>, i: nat, state: Id, transition: Option<Id>, now: Time)
    requires Apart(policies, PoliciesDiffer)
    ensures TimersFit(NewTimers(policies, i, state, transition, now), policies, i, state, transition, now)
  {
    hide NewTimers, TimerFor, Applies, PolicyFits, StartedUnder;
    var ts := NewTimers(policies, i, state, transition, now);
    NewTimersAre(policies, i, state, transition, now);
    forall k | 0 <= k < |ts| ensures HasPolicy(ts[k], policies, i, state, transition, now) {
      assert MadeBy(ts[k], policies, i, state, transition, now);
      var x :| x in policies && Applies(x, state, transition) && ts[k] == TimerFor(x, i, now);
      PolicyTimer(x, i, state, transition, now);
    }
    forall x | x in policies && PolicyFits(x, state, transition)
      ensures exists k :: 0 <= k < |ts| && StartedUnder(ts[k], x, i, now)
    {
      PolicyTimer(x, i, state, transition, now);
      var k :| 0 <= k < |ts| && ts[k] == TimerFor(x, i, now);
    }
  }

  /** A timer of a moved instance is settled if it was running; any other is as it was. */
  predicate TimerSettled(before: Timer, after: Timer, i: nat, now: Time) {
    if before.inst == i && before.status == Running then after == before.(status := Settled, completedAt := Some(now))
    else after == before
  }

  /** The type of the state with that id, if there is one. */
  predicate TypeIn(states: seq<State>, id: Id, types: set<StateType>) {
    exists k :: 0 <= k < |states| && states[k].id == id && states[k].stateType in types
                && forall j :: 0 <= j < k ==> states[j].id != id
  }

  /** The row of an instance that entered `to`. */
  predicate EnteredAt(before: Instance, after: Instance, to: Id, states: seq<State>, now: Time) {
    && after == before.(current := to, lockVersion := before.lockVersion + 1, completedAt := after.completedAt, cancelledAt := after.cancelledAt)
    && after.completedAt == (if TypeIn(states, to, {CompletedState, ClosedState}) then Some(now) else before.completedAt)
    && after.cancelledAt == (if TypeIn(states, to, {CancelledState}) then Some(now) else before.cancelledAt)
  }

  lemma EnteredAnswer(inst: Instance, to: Id, states: seq<State>, now: Time)
    ensures EnteredAt(inst, Entered(inst, to, FindState(states, to), now), to, states, now)
  {
    var k := FirstWhere(states, (s: State) => s.id == to);
    assert forall types :: TypeIn(states, to, types) <==> k.Some? && states[k.value].stateType in types;
  }

  /** Every table after instance `i` moved along `t` with execution `e`; the records apart. */
  ghost predicate MovedBy(p: Platform, p2: Platform, i: nat, t: Transition, e: Execution, now: Time)
    requires i < |p.instances| && p.instances[i].definition < |p.catalog.defs|
  {
    var inst := p.instances[i];
    var d := p.catalog.defs[inst.definition];
    && p2.catalog == p.catalog && p2.executions == p.executions + [e]
    && |p2.instances| == |p.instances| && EnteredAt(inst, p2.instances[i], t.toId, d.states, now)
    && (forall j :: 0 <= j < |p.instances| && j != i ==> p2.instances[j] == p.instances[j])
    && |p.timers| <= |p2.timers| && (forall k :: 0 <= k < |p.timers| ==> TimerSettled(p.timers[k], p2.timers[k], i, now))
    && TimersFit(p2.timers[|p.timers|..], d.policies, i, t.toId, Some(t.id), now)
    && p2.outbox == p.outbox + [
         Event(TransitionExecuted, inst.entityType, inst.entityId,
               map["transition" := Str(t.code), "from_state_id" := Str(IdText(e.fromId)), "to_state_id" := Str(IdText(e.toId)),
                   "result" := if e.result.None? then Null else Obj(e.result.value)]),
         Event(StateChanged, inst.entityType, inst.entityId,
               map["transition" := Str(t.code), "state_id" := Str(IdText(t.toId))])]
  }

  lemma StateIdKeyPlain()
    ensures !Sensitive("state_id")
  {
    PlainKey("state_id");
  }

  lemma StateChangePayload(code: string, id: string)
    ensures var payload := map["transition" := Str(code), "state_id" := Str(id)]; ScrubObject(payload) == payload
  {
    TransitionKeyPlain();
    StateIdKeyPlain();
    hide Sensitive;
    ScrubFixesPayload(map["transition" := Str(code), "state_id" := Str(id)]);
  }

  lemma AdvanceAnswer(p: Platform, i: nat, t: Transition, e: Execution, result: Option<Object>, now: Time)
    requires i < |p.instances| && p.instances[i].definition < |p.catalog.defs| && e.result == SafeJson(result)
    requires Apart(p.catalog.defs[p.instances[i].definition].policies, PoliciesDiffer)
    ensures var p2 := Advance(p, i, t, e, now); MovedBy(p, p2, i, t, e, now) && p2.records == p.records
  {
    var inst := p.instances[i];
    var d := p.catalog.defs[inst.definition];
    var p2 := Advance(p, i, t, e, now);
    EnteredAnswer(inst, t.toId, d.states, now);
    NewTimersFit(d.policies, i, t.toId, Some(t.id), now);
    ResultScrubbedOnce(t.code, IdText(e.fromId), IdText(e.toId), result);
    StateChangePayload(t.code, IdText(t.toId));
    hide EnteredAt, TimersFit, Entered, NewTimers, FindState, IdText, ScrubObject, SafeJson;
    assert p2.timers[|p.timers|..] == NewTimers(d.policies, i, t.toId, Some(t.id), now);
  }

  // -- Execute and record ---------------------------------------------------

  /** The execution row of a call, column by column. */
  function RowOf(i: nat, from': Id, t: Transition, q: TransitionRequest, result: Option<Object>): Execution {
    Execution(i, t.id, from', t.toId, q.actor.actorType, q.actor.actorId, q.comment, q.reason,
              if q.input.None? then None else Some(ScrubObject(q.input.value)),
              if result.None? then None else Some(ScrubObject(result.value)), q.key)
  }

  /** The record of that key, instance and transition. */
  predicate IsRecord(records: seq<Record>, k: nat, key: string, i: nat, transition: Id) {
    k < |records| && records[k].key == key && records[k].inst == i && records[k].transition == transition
  }

  /** The call carries what the record was made with. */
  predicate SameCall(r: Record, q: TransitionRequest) {
    && r.fingerprint.comment == q.comment && r.fingerprint.reason == q.reason && r.fingerprint.lockVersion == q.lockVersion
    && r.fingerprint.input == if q.input.None? then None else Some(ScrubObject(q.input.value))
  }

  /** What the call finds: the newest instance, and its active transition of that code. */
  ghost predicate Targets(p: Platform, q: TransitionRequest, i: nat, t: Transition) {
    && IsNewest(p, i, q.entityType, q.entityId, q.workflowCode, q.instanceKey)
    && IsNamed(p.catalog.defs[p.instances[i].definition].transitions, t, q.code)
  }

  /** A call that finds nothing, in the order of the checks. */
  lemma ExecuteFindsNothing(p: Platform, q: TransitionRequest, a: Adapter, now: Time)
    ensures !a.registered ==> Execute(p, q, a, now) == Err(NotFound)
    ensures a.registered && a.entityError.Some? ==> Execute(p, q, a, now) == Err(a.entityError.value)
    ensures (&& a.registered && a.entityError.None?
             && forall i: nat :: i < |p.instances| ==> !IsFor(p, i, q.entityType, q.entityId, q.workflowCode, q.instanceKey)) ==>
              Execute(p, q, a, now) == Err(NotFound)
  {
    LookupNewest(p, q.entityType, q.entityId, q.workflowCode, q.instanceKey);
    hide LookupInstance, Perform, IsFor;
  }

  /** A call on an instance whose definition has no active transition of the code. */
  lemma ExecuteFindsNoTransition(p: Platform, q: TransitionRequest, a: Adapter, now: Time, i: nat)
    requires IsNewest(p, i, q.entityType, q.entityId, q.workflowCode, q.instanceKey) && a.registered && a.entityError.None?
    requires forall t :: t in p.catalog.defs[p.instances[i].definition].transitions ==> !(t.code == q.code && t.isActive)
    ensures Execute(p, q, a, now)
         == Err(if q.lockVersion.Some? && q.lockVersion.value != p.instances[i].lockVersion then Conflict else NotFound)
  {
    NewestFound(p, i, q.entityType, q.entityId, q.workflowCode, q.instanceKey);
    NamedFound(p.catalog.defs[p.instances[i].definition].transitions, q.code);
    hide LookupInstance, Perform, FindTransition;
  }

  /** Under a key that was used for this instance and transition: the same call returns
      the recorded execution and changes nothing, any other is a conflict. */
  lemma ExecuteUsedKey(p: Platform, q: TransitionRequest, a: Adapter, now: Time, i: nat, t: Transition, k: nat)
    requires PlatformOk(p) && Targets(p, q, i, t) && a.registered && a.entityError.None?
    requires q.lockVersion.Some? ==> q.lockVersion.value == p.instances[i].lockVersion
    requires Filled(q.key) && IsRecord(p.records, k, q.key.value, i, t.id)
    ensures Execute(p, q, a, now)
         == if SameCall(p.records[k], q) then Ok(Done(p, p.records[k].execution, true)) else Err(Conflict)
  {
    hide LookupInstance, FindTransition, Perform, FingerprintOf, SameCall, CatalogOk, InstancesOk, ExecutionsOk, TimersOk, BreachesOk;
    assert Given(q.key);
    NewestFound(p, i, q.entityType, q.entityId, q.workflowCode, q.instanceKey);
    NamedFound(p.catalog.defs[p.instances[i].definition].transitions, q.code);
    UsedKeyFound(p, q.key.value, i, t.id, k);
    SameCallIff(p.records[k], q);
  }

  lemma UsedKeyFound(p: Platform, key: string, i: nat, transition: Id, k: nat)
    requires RecordsOk(p) && IsRecord(p.records, k, key, i, transition)
    ensures FindRecord(p.records, key, i, transition) == Some(k) && p.records[k].execution < |p.executions|
  {
    assert RecordOk(p.records[k], p);
    hide RecordOk;
    var f := FindRecord(p.records, key, i, transition).value;
    assert SameSlot(p.records[f], p.records[k]);
  }

  lemma SameCallIff(r: Record, q: TransitionRequest)
    ensures SameCall(r, q) <==> r.fingerprint == FingerprintOf(q)
  {
    hide ScrubObject;
  }

  /** Under no key, or one not used for this instance and transition: the call succeeds
      exactly when the version is the current one, the gate opens, everything demanded is
      supplied, and the adapter agrees; the errors otherwise. */
  lemma ExecuteFreshIff(p: Platform, q: TransitionRequest, a: Adapter, now: Time, i: nat, t: Transition)
    requires Targets(p, q, i, t) && a.registered && a.entityError.None?
    requires Filled(q.key) ==> forall k: nat :: !IsRecord(p.records, k, q.key.value, i, t.id)
    ensures var inst := p.instances[i]; var done := Execute(p, q, a, now);
            var current := q.lockVersion.None? || q.lockVersion.value == inst.lockVersion;
            var open := t.fromId == inst.current && Configured(t) && Entitled(t, q.actor);
            && (done.Ok? <==> current && open && Supplied(t, q.comment, q.reason, q.input) && a.transitionError.None? && a.applied.Ok?)
            && (!current ==> done == Err(Conflict))
            && (current && !open ==> done == Err(Gate(inst, t, q.actor).value))
            && (current && open && !Supplied(t, q.comment, q.reason, q.input) ==> done == Err(Unprocessable))
            && (current && open && Supplied(t, q.comment, q.reason, q.input) && a.transitionError.Some? ==>
                  done == Err(a.transitionError.value))
            && (current && open && Supplied(t, q.comment, q.reason, q.input) && a.transitionError.None? && a.applied.Err? ==>
                  done == Err(a.applied.error))
            && (done.Ok? ==> !done.value.replayed)
  {
    NewestFound(p, i, q.entityType, q.entityId, q.workflowCode, q.instanceKey);
    NamedFound(p.catalog.defs[p.instances[i].definition].transitions, q.code);
    GateAnswer(p.instances[i], t, q.actor);
    SuppliedIff(t, q);
    NoRecordFound(p, q, i, t);
    hide LookupInstance, FindTransition, Gate, Configured, Entitled, Supplied, FieldsGiven, Performed, Targets, FindRecord, FingerprintOf;
  }

  lemma SuppliedIff(t: Transition, q: TransitionRequest)
    ensures Supplied(t, q.comment, q.reason, q.input) <==>
              (t.requiresComment ==> Given(q.comment)) && (t.requiresReason ==> Given(q.reason)) && FieldsGiven(t, q.input)
  {
  }

  lemma NoRecordFound(p: Platform, q: TransitionRequest, i: nat, t: Transition)
    requires Filled(q.key) ==> forall k: nat :: !IsRecord(p.records, k, q.key.value, i, t.id)
    ensures Given(q.key) <==> Filled(q.key)
    ensures Given(q.key) ==> FindRecord(p.records, q.key.value, i, t.id).None?
  {
    if Given(q.key) && FindRecord(p.records, q.key.value, i, t.id).Some? {
      assert IsRecord(p.records, FindRecord(p.records, q.key.value, i, t.id).value, q.key.value, i, t.id);
    }
  }

  /** Every column a performed transition leaves, the record of its key included. */
  lemma ExecuteLeaves(p: Platform, q: TransitionRequest, a: Adapter, now: Time) returns (i: nat, t: Transition)
    requires PlatformOk(p) && Execute(p, q, a, now).Ok? && !Execute(p, q, a, now).value.replayed
    ensures Targets(p, q, i, t) && p.instances[i].definition < |p.catalog.defs| && a.applied.Ok?
    ensures var done := Execute(p, q, a, now).value; var p2 := done.platform;
            && done.execution == |p.executions|
            && MovedBy(p, p2, i, t, RowOf(i, p.instances[i].current, t, q, Some(a.applied.value)), now)
            && p2.records == if Filled(q.key) then
                 p.records + [Record(q.key.value, i, t.id,
                                     Fingerprint(q.comment, q.reason, if q.input.None? then None else Some(ScrubObject(q.input.value)),
                                                 q.lockVersion), |p.executions|)]
               else p.records
  {
    i, t := ExecuteCase(p, q, a, now);
    TargetsFound(p, q, i, t);
    var e := ExecutionOf(i, p.instances[i], t, q, Some(a.applied.value));
    AdvanceAnswer(p, i, t, e, Some(a.applied.value), now);
    hide Execute, Advance, Targets, TimersFit, EnteredAt, TimerSettled, PlatformOk, ScrubObject, IdText;
    assert e == RowOf(i, p.instances[i].current, t, q, Some(a.applied.value));
  }

  lemma TransitionsSeparate(ts: seq<Transition>, j: nat, k: nat)
    requires Apart(ts, TransitionsDiffer) && j < k < |ts|
    ensures ts[j].code != ts[k].code
  {
    assert TransitionsDiffer(ts[j], ts[k]);
  }

  lemma TargetsFound(p: Platform, q: TransitionRequest, i: nat, t: Transition)
    requires PlatformOk(p) && LookupInstance(p, q.entityType, q.entityId, q.workflowCode, q.instanceKey) == Some(i)
    requires i < |p.instances| && p.instances[i].definition < |p.catalog.defs|
    requires FindTransition(p.catalog.defs[p.instances[i].definition].transitions, q.code) == Some(t)
    ensures Targets(p, q, i, t) && Apart(p.catalog.defs[p.instances[i].definition].policies, PoliciesDiffer)
  {
    var d := p.catalog.defs[p.instances[i].definition];
    assert DefinitionOk(d, p.catalog.nextId);
    hide PlatformOk;
    LookupNewest(p, q.entityType, q.entityId, q.workflowCode, q.instanceKey);
    hide LookupInstance;
    OneOfCode(d.transitions, t);
  }

  lemma OneOfCode(ts: seq<Transition>, t: Transition)
    requires Apart(ts, TransitionsDiffer) && t in ts
    ensures forall u :: u in ts && u.code == t.code ==> u == t
  {
    hide Apart, TransitionsDiffer;
    var k :| 0 <= k < |ts| && ts[k] == t;
    forall u | u in ts && u.code == t.code ensures u == t {
      var j :| 0 <= j < |ts| && ts[j] == u;
      if j != k {
        TransitionsSeparate(ts, if j < k then j else k, if j < k then k else j);
      }
    }
  }

  /** A transition recorded after the fact: when it is, and every column it leaves. */
  lemma RecordAnswer(p: Platform, q: TransitionRequest, result: Option<Object>, a: Adapter, now: Time, i: nat, t: Transition)
    requires PlatformOk(p) && Targets(p, q, i, t)
    ensures var inst := p.instances[i]; var done := RecordExternal(p, q, result, a, now);
            var open := t.fromId == inst.current && Configured(t) && Entitled(t, q.actor);
            && inst.definition < |p.catalog.defs|
            && (done.Ok? <==> a.registered && a.entityError.None? && open)
            && (!a.registered ==> done == Err(NotFound))
            && (a.registered && a.entityError.Some? ==> done == Err(a.entityError.value))
            && (a.registered && a.entityError.None? && !open ==> done == Err(Gate(inst, t, q.actor).value))
            && (done.Ok? ==>
                  && done.value.execution == |p.executions| && done.value.platform.records == p.records
                  && MovedBy(p, done.value.platform, i, t, RowOf(i, inst.current, t, q, result), now))
  {
    NewestFound(p, i, q.entityType, q.entityId, q.workflowCode, q.instanceKey);
    NamedFound(p.catalog.defs[p.instances[i].definition].transitions, q.code);
    TargetsFound(p, q, i, t);
    GateAnswer(p.instances[i], t, q.actor);
    var e := ExecutionOf(i, p.instances[i], t, q, result);
    AdvanceAnswer(p, i, t, e, result, now);
    assert e == RowOf(i, p.instances[i].current, t, q, result);
    hide LookupInstance, FindTransition, Gate, Configured, Entitled, Advance, MovedBy, PlatformOk, ScrubObject, RowOf, ExecutionOf;
  }

  // -- Starting -------------------------------------------------------------

  /** A definition a start may use: published, active, of the type, and of the code if one is named. */
  predicate Startable(d: Definition, entityType: string, code: Option<string>) {
    d.isPublished && d.isActive && d.entityType == entityType && (code.Some? ==> d.code == code.value)
  }

  /** The startable definition of the highest version, the first of them. */
  predicate IsLatest(defs: seq<Definition>, def: nat, entityType: string, code: Option<string>) {
    && def < |defs| && Startable(defs[def], entityType, code)
    && forall k: nat :: k < |defs| && Startable(defs[k], entityType, code) ==>
         defs[k].version < defs[def].version || (defs[k].version == defs[def].version && def <= k)
  }

  lemma {:induction false} LatestAnswer(defs: seq<Definition>, entityType: string, code: Option<string>)
    ensures var r := LatestDefinition(defs, entityType, code);
            && (r.Some? ==> IsLatest(defs, r.value, entityType, code))
            && (r.None? ==> forall k: nat :: k < |defs| ==> !Startable(defs[k], entityType, code))
  {
    if defs != [] {
      var n := |defs| - 1;
      LatestAnswer(defs[..n], entityType, code);
      assert forall k: nat :: k < n ==> defs[..n][k] == defs[k];
      assert Offers(defs[n], entityType, code) <==> Startable(defs[n], entityType, code);
      hide LatestDefinition;
    }
  }

  /** The instance a start makes, and where it begins. */
  predicate BeginsAt(d: Definition, s: State) {
    s in d.states && s.isInitial && s.isActive
  }

  /** A start: what it finds, with which error it fails, and every column it leaves. */
  lemma StartAnswer(p: Platform, q: StartRequest, a: Adapter, now: Time, def: nat)
    requires PlatformOk(p) && a.registered && IsLatest(p.catalog.defs, def, q.entityType, q.workflowCode)
    ensures var d := p.catalog.defs[def]; var done := Start(p, q, a, now);
            var there := exists i :: 0 <= i < |p.instances| && SameKey(p.instances[i], def, q.entityType, q.entityId, q.instanceKey);
            && (done.Ok? <==> there || (a.entityError.None? && a.startError.None?))
            && (!there && a.entityError.Some? ==> done == Err(a.entityError.value))
            && (!there && a.entityError.None? && a.startError.Some? ==> done == Err(a.startError.value))
            && (done.Ok? && there ==>
                  && done.value.platform == p && done.value.inst < |p.instances|
                  && SameKey(p.instances[done.value.inst], def, q.entityType, q.entityId, q.instanceKey))
            && (done.Ok? && !there ==> done.value.inst == |p.instances| && StartedAs(p, done.value.platform, q, a, now, def))
  {
    LatestAnswer(p.catalog.defs, q.entityType, q.workflowCode);
    assert LatestDefinition(p.catalog.defs, q.entityType, q.workflowCode) == Some(def);
    assert DefinitionOk(p.catalog.defs[def], p.catalog.nextId);
    hide PlatformOk, LatestDefinition, IsLatest;
    StartStateReached(p.catalog.defs[def]);
    hide Sound, Reached, SoleInitial;
    if Start(p, q, a, now).Ok? && FindInstance(p, def, q.entityType, q.entityId, q.instanceKey).None? {
      StartColumns(p, q, a, now, def);
    }
    KeyedInstance(p, def, q.entityType, q.entityId, q.instanceKey);
    hide StartedAs, InitialOf, NewTimers, WithEvent, FindInstance, SameKey;
  }

  lemma KeyedInstance(p: Platform, def: nat, entityType: string, entityId: Id, instanceKey: string)
    ensures var at := FindInstance(p, def, entityType, entityId, instanceKey);
            && (at.Some? <==> exists i :: 0 <= i < |p.instances| && SameKey(p.instances[i], def, entityType, entityId, instanceKey))
            && (at.Some? ==> at.value < |p.instances| && SameKey(p.instances[at.value], def, entityType, entityId, instanceKey))
  {
  }

  ghost predicate StartedAs(p: Platform, p2: Platform, q: StartRequest, a: Adapter, now: Time, def: nat)
    requires def < |p.catalog.defs|
  {
    var d := p.catalog.defs[def];
    && p2 == p.(instances := p2.instances, timers := p2.timers, outbox := p2.outbox)
    && exists s :: BeginsAt(d, s)
         && p2.instances == p.instances + [Instance(def, d.version, q.entityType, q.entityId, q.instanceKey, s.id, now, None, None, 1)]
         && |p.timers| <= |p2.timers| && p2.timers[..|p.timers|] == p.timers
         && TimersFit(p2.timers[|p.timers|..], d.policies, |p.instances|, s.id, None, now)
         && p2.outbox == p.outbox + [Event(WorkflowStarted, q.entityType, q.entityId,
                                           ScrubObject(map["state" := Str(s.code), "context" := Obj(a.context)]))]
  }

  lemma StartColumns(p: Platform, q: StartRequest, a: Adapter, now: Time, def: nat)
    requires Start(p, q, a, now).Ok? && LatestDefinition(p.catalog.defs, q.entityType, q.workflowCode) == Some(def)
    requires def < |p.catalog.defs| && FindInstance(p, def, q.entityType, q.entityId, q.instanceKey).None?
    requires Apart(p.catalog.defs[def].policies, PoliciesDiffer)
    ensures StartedAs(p, Start(p, q, a, now).value.platform, q, a, now, def)
  {
    var d := p.catalog.defs[def];
    var p2 := Start(p, q, a, now).value.platform;
    var s := InitialOf(d).value;
    assert BeginsAt(d, s);
    NewTimersFit(d.policies, |p.instances|, s.id, None, now);
    hide InitialOf, LatestDefinition, FindInstance, NewTimers, TimersFit, ScrubObject, BeginsAt;
    assert p2.timers[|p.timers|..] == NewTimers(d.policies, |p.instances|, s.id, None, now);
  }

  /** A start that finds no definition. */
  lemma StartFindsNothing(p: Platform, q: StartRequest, a: Adapter, now: Time)
    ensures !a.registered ==> Start(p, q, a, now) == Err(NotFound)
    ensures (forall k: nat :: k < |p.catalog.defs| ==> !Startable(p.catalog.defs[k], q.entityType, q.workflowCode)) ==>
              Start(p, q, a, now) == Err(NotFound)
  {
    LatestAnswer(p.catalog.defs, q.entityType, q.workflowCode);
    hide LatestDefinition;
  }

  // -- Cancelling and sweeping ----------------------------------------------

  /** A cancellation succeeds exactly when the current state is not terminal and the
      definition has a cancelled state; it enters one, and leaves timers and executions. */
  lemma CancelAnswer(p: Platform, i: nat, reason: Option<string>, now: Time)
    requires PlatformOk(p) && i < |p.instances|
    ensures var inst := p.instances[i]; var done := Cancel(p, i, reason, now);
            && inst.definition < |p.catalog.defs|
            && var states := p.catalog.defs[inst.definition].states;
               && (done.Ok? <==> && (forall s :: s in states && s.id == inst.current ==> !s.isTerminal)
                                 && (exists s :: s in states && s.stateType == CancelledState))
               && (done.Err? ==> done.error == Conflict)
               && (done.Ok? ==>
                     var p2 := done.value;
                     && (exists s :: s in states && s.stateType == CancelledState
                           && p2.instances == p.instances[i := inst.(current := s.id, cancelledAt := Some(now), lockVersion := inst.lockVersion + 1)])
                     && p2 == p.(instances := p2.instances, outbox := p2.outbox)
                     && p2.outbox == p.outbox + [Event(WorkflowCancelled, inst.entityType, inst.entityId,
                          ScrubObject(map["reason_code" := if reason.None? then Null else Str(reason.value)]))])
  {
    hide ExecutionsOk, RecordsOk, TimersOk, BreachesOk, Numbered, ScrubObject, Reached, Sound, IdsBelow, Apart, CancelTarget, FindState,
      CancelledStateOf;
    var inst := p.instances[i];
    assert InstanceOk(inst, p.catalog.defs);
    var d := p.catalog.defs[inst.definition];
    assert DefinitionOk(d, p.catalog.nextId);
    OneStatePerId(d.states, inst.current);
    CancelledFound(d);
  }

  lemma CancelledFound(d: Definition)
    ensures CancelledStateOf(d).Some? <==> exists s :: s in d.states && s.stateType == CancelledState
    ensures CancelledStateOf(d).Some? ==> CancelledStateOf(d).value in d.states && CancelledStateOf(d).value.stateType == CancelledState
  {
  }

  lemma OneStatePerId(states: seq<State>, id: Id)
    requires Apart(states, StatesDiffer)
    ensures FindState(states, id).Some? ==> FindState(states, id).value in states && FindState(states, id).value.id == id
    ensures forall s :: s in states && s.id == id ==> FindState(states, id) == Some(s)
  {
    hide Apart, StatesDiffer;
    forall s | s in states && s.id == id ensures FindState(states, id) == Some(s) {
      var j :| 0 <= j < |states| && states[j] == s;
      var k := FirstWhere(states, (x: State) => x.id == id).value;
      if j != k {
        StatesSeparate(states, if j < k then j else k, if j < k then k else j);
      }
    }
  }

  lemma StatesSeparate(states: seq<State>, j: nat, k: nat)
    requires Apart(states, StatesDiffer) && j < k < |states|
    ensures states[j].id != states[k].id
  {
    assert StatesDiffer(states[j], states[k]);
  }

  /** After a sweep no running timer is overdue; exactly the overdue ones were marked,
      at that moment, and counted; nothing else changed. */
  lemma SweepAnswer(p: Platform, now: Time)
    ensures var p2 := Sweep(p, now);
            && p2 == p.(timers := p2.timers, outbox := p2.outbox) && |p2.timers| == |p.timers|
            && (forall k :: 0 <= k < |p.timers| ==>
                  p2.timers[k] == if p.timers[k].status == Running && p.timers[k].dueAt < now
                                  then p.timers[k].(status := Breached, breachedAt := Some(now)) else p.timers[k])
            && (forall k :: 0 <= k < |p2.timers| && p2.timers[k].status == Running ==> p2.timers[k].dueAt >= now)
            && SweepCount(p, now) == |set k | 0 <= k < |p.timers| && p.timers[k].status == Running && p.timers[k].dueAt < now|
  {
    OverdueCount(p.timers, now);
  }

  lemma {:induction false} OverdueCount(timers: seq<Timer>, now: Time)
    ensures |BreachEvents(timers, now)| == |set k | 0 <= k < |timers| && timers[k].status == Running && timers[k].dueAt < now|
  {
    hide BreachEvent;
    if timers != [] {
      var n := |timers| - 1;
      OverdueCount(timers[..n], now);
      OverdueStep(timers, now);
    }
  }

  lemma OverdueStep(timers: seq<Timer>, now: Time)
    requires timers != []
    ensures var n := |timers| - 1;
            |set k | 0 <= k < |timers| && timers[k].status == Running && timers[k].dueAt < now|
            == |set k | 0 <= k < |timers[..n]| && timers[..n][k].status == Running && timers[..n][k].dueAt < now|
               + (if Overdue(timers[n], now) then 1 else 0)
  {
    var n := |timers| - 1;
    var due := set k | 0 <= k < |timers| && timers[k].status == Running && timers[k].dueAt < now;
    var before := set k | 0 <= k < |timers[..n]| && timers[..n][k].status == Running && timers[..n][k].dueAt < now;
    assert due == before + (if Overdue(timers[n], now) then {n} else {});
  }

  /** The events a sweep adds name the timers it marked and their instances. */
  lemma {:induction false} SweepEvents(timers: seq<Timer>, now: Time)
    ensures forall e :: e in BreachEvents(timers, now) <==>
              exists k: nat :: k < |timers| && timers[k].status == Running && timers[k].dueAt < now
                && e == Event(SlaBreached, "WorkflowSlaTimer", k, map["workflow_instance_id" := Str(IdText(timers[k].inst))])
  {
    hide IdText;
    if timers != [] {
      var n := |timers| - 1;
      SweepEvents(timers[..n], now);
      assert forall k: nat :: k < n ==> timers[..n][k] == timers[k];
    }
  }
}
