/** workflow_engine.py in its own form: calls that update the tables step by step.
    Each is proved against the function of WorkflowEngine that specifies it. */
module EngineCalls {
  import opened Wrappers
  import opened JsonScrubber
  import opened WorkflowModel
  import opened WorkflowEngine
  import opened EngineLaws
  import opened Storage

  /** The invariant of the tables, if it held, still holds. */
  ghost predicate Keeps(before: Platform, after: Platform) {
    PlatformOk(before) ==> PlatformOk(after)
  }

  lemma CallsKeep(p: Platform, now: Time)
    ensures Keeps(p, p)
    ensures forall q, a {:trigger Start(p, q, a, now)} :: Start(p, q, a, now).Ok? ==> Keeps(p, Start(p, q, a, now).value.platform)
    ensures forall q, a {:trigger Execute(p, q, a, now)} :: Execute(p, q, a, now).Ok? ==> Keeps(p, Execute(p, q, a, now).value.platform)
    ensures forall q, result, a {:trigger RecordExternal(p, q, result, a, now)} :: RecordExternal(p, q, result, a, now).Ok? ==>
              Keeps(p, RecordExternal(p, q, result, a, now).value.platform)
    ensures forall i: nat, reason {:trigger Cancel(p, i, reason, now)} :: Cancel(p, i, reason, now).Ok? ==>
              Keeps(p, Cancel(p, i, reason, now).value)
  {
    hide PlatformOk, Start, Execute, RecordExternal, Cancel;
    if PlatformOk(p) {
      forall q, a | Start(p, q, a, now).Ok? ensures PlatformOk(Start(p, q, a, now).value.platform) { StartKeeps(p, q, a, now); }
      forall q, a | Execute(p, q, a, now).Ok? ensures PlatformOk(Execute(p, q, a, now).value.platform) { ExecuteKeeps(p, q, a, now); }
      forall q, result, a | RecordExternal(p, q, result, a, now).Ok?
        ensures PlatformOk(RecordExternal(p, q, result, a, now).value.platform)
      {
        RecordExternalKeeps(p, q, result, a, now);
      }
      forall i: nat, reason | Cancel(p, i, reason, now).Ok? ensures PlatformOk(Cancel(p, i, reason, now).value) {
        CancelKeeps(p, i, reason, now);
      }
    }
  }

  lemma SweepKept(p: Platform, now: Time)
    ensures Keeps(p, Sweep(p, now))
  {
    hide PlatformOk, Sweep;
    if PlatformOk(p) { SweepKeeps(p, now); }
  }

  // -- Outbox and timers ----------------------------------------------------

  method AddOutbox(db: Database, kind: EventKind, inst: Instance, payload: Object)
    modifies db
    ensures db.Rows() == WithEvent(old(db.Rows()), kind, inst, payload)
  {
    db.outbox := db.outbox + [Event(kind, inst.entityType, inst.entityId, ScrubObject(payload))];
  }

  method CreateSlaTimers(db: Database, i: nat, definition: nat, state: Id, transition: Option<Id>, now: Time)
    requires definition < |db.definitions|
    modifies db
    ensures db.Rows() == old(db.Rows()).(timers :=
      old(db.timers) + NewTimers(old(db.definitions)[definition].policies, i, state, transition, now))
  {
    var policies := db.definitions[definition].policies;
    ghost var before := db.Rows();
    for k := 0 to |policies|
      invariant db.Rows() == before.(timers := before.timers + NewTimers(policies[..k], i, state, transition, now))
    {
      var policy := policies[k];
      assert policies[..k + 1][..k] == policies[..k];
      if !policy.isActive || (policy.stateId.Some? && policy.stateId.value != state) {
        continue;
      }
      if policy.transitionId.Some? && policy.transitionId != transition {
        continue;
      }
      var warning: Option<Time> := None;
      if policy.warningBeforeMinutes.Some? {
        var lead := policy.durationMinutes - policy.warningBeforeMinutes.value;
        warning := Some(now + 60 * (if lead < 0 then 0 else lead));
      }
      db.timers := db.timers + [Timer(i, policy.id, now, now + 60 * policy.durationMinutes, warning, Running, None, None)];
    }
    assert policies[..|policies|] == policies;
  }

  method CompleteActiveSlaTimers(db: Database, i: nat, now: Time)
    modifies db
    ensures db.Rows() == old(db.Rows()).(timers := CompleteTimers(old(db.timers), i, now))
  {
    ghost var before := db.Rows();
    for k := 0 to |db.timers|
      invariant db.Rows() == before.(timers := db.timers) && |db.timers| == |before.timers|
      invariant forall j :: 0 <= j < k ==> db.timers[j] == Complete(before.timers[j], i, now)
      invariant forall j :: k <= j < |db.timers| ==> db.timers[j] == before.timers[j]
    {
      if db.timers[k].inst == i && db.timers[k].status == Running {
        db.timers := db.timers[k := db.timers[k].(status := Settled, completedAt := Some(now))];
      }
    }
  }

  lemma BreachEventsStep(timers: seq<Timer>, k: nat, now: Time)
    requires k <= |timers|
    ensures BreachEvents(timers[..k], now)
         == if k == 0 then []
            else BreachEvents(timers[..k - 1], now) + (if Overdue(timers[k - 1], now) then [BreachEvent(timers, k - 1)] else [])
  {
    if k > 0 {
      assert timers[..k][..k - 1] == timers[..k - 1];
    }
  }

  /** Sweeps the overdue timers and returns how many it marked. */
  method MarkBreachedSlaTimers(db: Database, now: Time) returns (count: nat)
    modifies db
    ensures db.Rows() == Sweep(old(db.Rows()), now) && count == SweepCount(old(db.Rows()), now)
    ensures Keeps(old(db.Rows()), db.Rows())
  {
    hide IdText, BreachEvents, Keeps;
    ghost var before := db.Rows();
    BreachEventsStep(before.timers, 0, now);
    count := 0;
    for k := 0 to |db.timers|
      invariant db.Rows() == before.(timers := db.timers, outbox := db.outbox) && |db.timers| == |before.timers|
      invariant forall j :: 0 <= j < k ==> db.timers[j] == Breach(before.timers[j], now)
      invariant forall j :: k <= j < |db.timers| ==> db.timers[j] == before.timers[j]
      invariant db.outbox == before.outbox + BreachEvents(before.timers[..k], now)
      invariant count == |BreachEvents(before.timers[..k], now)|
    {
      BreachEventsStep(before.timers, k + 1, now);
      if db.timers[k].status == Running && db.timers[k].dueAt < now {
        db.timers := db.timers[k := db.timers[k].(status := Breached, breachedAt := Some(now))];
        db.outbox := db.outbox + [Event(SlaBreached, "WorkflowSlaTimer", k, map["workflow_instance_id" := Str(IdText(db.timers[k].inst))])];
        count := count + 1;
      }
    }
    assert before.timers[..|before.timers|] == before.timers;
    SweepKept(before, now);
  }

  // -- Calls ----------------------------------------------------------------

  /** `start_workflow`. */
  method StartWorkflow(db: Database, q: StartRequest, a: Adapter, now: Time) returns (r: Result<nat>)
    modifies db
    ensures match Start(old(db.Rows()), q, a, now)
      case Ok(s) => db.Rows() == s.platform && r == Ok(s.inst)
      case Err(e) => db.Rows() == old(db.Rows()) && r == Err(e)
    ensures Keeps(old(db.Rows()), db.Rows())
  {
    CallsKeep(db.Rows(), now);
    hide Keeps;
    if !a.registered { return Err(NotFound); }
    var definition := LatestDefinition(db.definitions, q.entityType, q.workflowCode);
    if definition.None? { return Err(NotFound); }
    var existing := FindInstance(db.Rows(), definition.value, q.entityType, q.entityId, q.instanceKey);
    if existing.Some? { return Ok(existing.value); }
    if a.entityError.Some? { return Err(a.entityError.value); }
    if a.startError.Some? { return Err(a.startError.value); }
    var state := InitialOf(db.definitions[definition.value]);
    if state.None? { return Err(Conflict); }
    var i := |db.instances|;
    var inst := Instance(definition.value, db.definitions[definition.value].version, q.entityType, q.entityId, q.instanceKey,
                         state.value.id, now, None, None, 1);
    db.instances := db.instances + [inst];
    CreateSlaTimers(db, i, definition.value, state.value.id, None, now);
    AddOutbox(db, WorkflowStarted, inst, map["state" := Str(state.value.code), "context" := Obj(a.context)]);
    r := Ok(i);
  }

  /** The common end of the two calls below: move the instance, replace its timers,
      log the execution, and announce it. */
  method MoveInstance(db: Database, i: nat, t: Transition, e: Execution, now: Time)
    requires i < |db.instances| && db.instances[i].definition < |db.definitions|
    modifies db
    ensures db.Rows() == Advance(old(db.Rows()), i, t, e, now)
  {
    hide FindState, NewTimers, CompleteTimers, ExecutedPayload, IdText, ScrubObject;
    var inst := db.instances[i];
    db.instances := db.instances[i := inst.(current := t.toId, lockVersion := inst.lockVersion + 1)];
    var state := FindState(db.definitions[inst.definition].states, t.toId);
    if state.Some? && state.value.stateType in {CompletedState, ClosedState} {
      db.instances := db.instances[i := db.instances[i].(completedAt := Some(now))];
    }
    if state.Some? && state.value.stateType == CancelledState {
      db.instances := db.instances[i := db.instances[i].(cancelledAt := Some(now))];
    }
    CompleteActiveSlaTimers(db, i, now);
    CreateSlaTimers(db, i, inst.definition, t.toId, Some(t.id), now);
    db.executions := db.executions + [e];
    AddOutbox(db, TransitionExecuted, inst, ExecutedPayload(t.code, IdText(e.fromId), IdText(e.toId), e.result));
    AddOutbox(db, StateChanged, inst, map["transition" := Str(t.code), "state_id" := Str(IdText(t.toId))]);
  }

  /** `execute_transition_with_callback` from the gate on. */
  method PerformTransition(db: Database, q: TransitionRequest, a: Adapter, now: Time, i: nat, t: Transition) returns (r: Result<(nat, bool)>)
    requires i < |db.instances| && db.instances[i].definition < |db.definitions|
    modifies db
    ensures match Perform(old(db.Rows()), q, a, now, i, t)
      case Ok(d) => db.Rows() == d.platform && r == Ok((d.execution, d.replayed))
      case Err(e) => db.Rows() == old(db.Rows()) && r == Err(e)
  {
    var inst := db.instances[i];
    var gate := Gate(inst, t, q.actor);
    if gate.Some? { return Err(gate.value); }
    if t.requiresComment && !Given(q.comment) { return Err(Unprocessable); }
    if t.requiresReason && !Given(q.reason) { return Err(Unprocessable); }
    if !FieldsGiven(t, q.input) { return Err(Unprocessable); }
    if a.transitionError.Some? { return Err(a.transitionError.value); }
    if a.applied.Err? { return Err(a.applied.error); }
    var before := db.Rows();
    var id := |db.executions|;
    MoveInstance(db, i, t, ExecutionOf(i, inst, t, q, Some(a.applied.value)), now);
    if Given(q.key) {
      if FindRecord(db.records, q.key.value, i, t.id).Some? {
        db.Rollback(before);
        return Err(Internal);
      }
      db.records := db.records + [Record(q.key.value, i, t.id, FingerprintOf(q), id)];
    }
    r := Ok((id, false));
  }

  /** `execute_transition_with_callback`; returns the execution and whether it is a replay. */
  method ExecuteTransition(db: Database, q: TransitionRequest, a: Adapter, now: Time) returns (r: Result<(nat, bool)>)
    modifies db
    ensures match Execute(old(db.Rows()), q, a, now)
      case Ok(d) => db.Rows() == d.platform && r == Ok((d.execution, d.replayed))
      case Err(e) => db.Rows() == old(db.Rows()) && r == Err(e)
    ensures Keeps(old(db.Rows()), db.Rows())
  {
    CallsKeep(db.Rows(), now);
    hide Keeps;
    if !a.registered { return Err(NotFound); }
    if a.entityError.Some? { return Err(a.entityError.value); }
    var at := LookupInstance(db.Rows(), q.entityType, q.entityId, q.workflowCode, q.instanceKey);
    if at.None? { return Err(NotFound); }
    var i := at.value;
    var inst := db.instances[i];
    if q.lockVersion.Some? && q.lockVersion.value != inst.lockVersion { return Err(Conflict); }
    var found := FindTransition(db.definitions[inst.definition].transitions, q.code);
    if found.None? { return Err(NotFound); }
    var t := found.value;
    if Given(q.key) {
      var existing := FindRecord(db.records, q.key.value, i, t.id);
      if existing.Some? {
        if db.records[existing.value].fingerprint != FingerprintOf(q) { return Err(Conflict); }
        var execution := db.records[existing.value].execution;
        if execution < |db.executions| { return Ok((execution, true)); }
      }
    }
    r := PerformTransition(db, q, a, now, i, t);
  }

  /** `record_external_transition`. */
  method RecordExternalTransition(db: Database, q: TransitionRequest, result: Option<Object>, a: Adapter, now: Time)
    returns (r: Result<nat>)
    modifies db
    ensures match RecordExternal(old(db.Rows()), q, result, a, now)
      case Ok(d) => db.Rows() == d.platform && r == Ok(d.execution)
      case Err(e) => db.Rows() == old(db.Rows()) && r == Err(e)
    ensures Keeps(old(db.Rows()), db.Rows())
  {
    CallsKeep(db.Rows(), now);
    hide Keeps;
    if !a.registered { return Err(NotFound); }
    if a.entityError.Some? { return Err(a.entityError.value); }
    var at := LookupInstance(db.Rows(), q.entityType, q.entityId, q.workflowCode, q.instanceKey);
    if at.None? { return Err(NotFound); }
    var i := at.value;
    var inst := db.instances[i];
    var found := FindTransition(db.definitions[inst.definition].transitions, q.code);
    if found.None? { return Err(NotFound); }
    var gate := Gate(inst, found.value, q.actor);
    if gate.Some? { return Err(gate.value); }
    var id := |db.executions|;
    MoveInstance(db, i, found.value, ExecutionOf(i, inst, found.value, q, result), now);
    r := Ok(id);
  }

  /** `cancel_workflow`. */
  method CancelWorkflow(db: Database, i: nat, reason: Option<string>, now: Time) returns (r: Result<nat>)
    modifies db
    ensures match Cancel(old(db.Rows()), i, reason, now)
      case Ok(p) => db.Rows() == p && r == Ok(i)
      case Err(e) => db.Rows() == old(db.Rows()) && r == Err(e)
    ensures Keeps(old(db.Rows()), db.Rows())
  {
    CallsKeep(db.Rows(), now);
    hide Keeps;
    if i >= |db.instances| || db.instances[i].definition >= |db.definitions| { return Err(NotFound); }
    var inst := db.instances[i];
    var states := db.definitions[inst.definition].states;
    var current := FindState(states, inst.current);
    if current.Some? && current.value.isTerminal { return Err(Conflict); }
    var cancelled := CancelledStateOf(db.definitions[inst.definition]);
    if cancelled.None? { return Err(Conflict); }
    db.instances := db.instances[i := inst.(current := cancelled.value.id, cancelledAt := Some(now), lockVersion := inst.lockVersion + 1)];
    AddOutbox(db, WorkflowCancelled, inst, map["reason_code" := if reason.None? then Null else Str(reason.value)]);
    r := Ok(i);
  }
}
