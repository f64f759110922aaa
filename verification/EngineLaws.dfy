/** What every call of the engine keeps true of the rows. */
module EngineLaws {
  import opened Wrappers
  import opened JsonScrubber
  import opened WorkflowModel
  import opened Reachability
  import opened DefinitionService
  import opened DefinitionLaws
  import opened WorkflowEngine
  import opened Sorting

  // -- The invariant --------------------------------------------------------

  /** Joined to the initial state by active transitions. */
  ghost predicate Reached(d: Definition, x: Id) {
    exists initial :: SoleInitial(d.states, initial) && Connected(initial.id, x, d.transitions)
  }

  /** A state `cancel_workflow` may jump to; it need not be active, nor reachable. */
  predicate CancelTarget(d: Definition, x: Id) {
    exists s :: s in d.states && s.id == x && s.stateType == CancelledState
  }

  ghost predicate InstanceOk(inst: Instance, defs: seq<Definition>) {
    && inst.definition < |defs|
    && var d := defs[inst.definition];
       && d.isPublished && inst.workflowVersion == d.version && inst.lockVersion >= 1
       && inst.current in StateIds(d.states)
       && (Reached(d, inst.current) || CancelTarget(d, inst.current))
  }

  predicate SameRowKey(a: Instance, b: Instance) {
    SameKey(a, b.definition, b.entityType, b.entityId, b.instanceKey)
  }

  ghost predicate InstancesOk(p: Platform) {
    && (forall i :: 0 <= i < |p.instances| ==> InstanceOk(p.instances[i], p.catalog.defs))
    && (forall i, j :: 0 <= i < j < |p.instances| ==> !SameRowKey(p.instances[i], p.instances[j]))
  }

  /** An execution follows a transition of its instance's definition, end to end. */
  ghost predicate Follows(e: Execution, d: Definition) {
    exists t :: t in d.transitions && t.id == e.transition && t.fromId == e.fromId && t.toId == e.toId
  }

  ghost predicate ExecutionOk(e: Execution, p: Platform) {
    && e.inst < |p.instances| && p.instances[e.inst].definition < |p.catalog.defs|
    && Follows(e, p.catalog.defs[p.instances[e.inst].definition])
  }

  ghost predicate ExecutionsOk(p: Platform) {
    forall k :: 0 <= k < |p.executions| ==> ExecutionOk(p.executions[k], p)
  }

  predicate SameSlot(a: Record, b: Record) {
    a.key == b.key && a.inst == b.inst && a.transition == b.transition
  }

  /** A record points to the execution it was made with, and a lock version it
      carries is one its instance has left behind. */
  ghost predicate RecordOk(r: Record, p: Platform) {
    && r.execution < |p.executions| && r.inst < |p.instances|
    && p.executions[r.execution].inst == r.inst
    && p.executions[r.execution].transition == r.transition
    && p.executions[r.execution].correlation == Some(r.key)
    && (r.fingerprint.lockVersion.Some? ==> r.fingerprint.lockVersion.value < p.instances[r.inst].lockVersion)
  }

  ghost predicate RecordsOk(p: Platform) {
    && (forall k :: 0 <= k < |p.records| ==> RecordOk(p.records[k], p))
    && (forall j, k :: 0 <= j < k < |p.records| ==> !SameSlot(p.records[j], p.records[k]))
  }

  ghost predicate TimerOk(t: Timer, p: Platform) {
    && t.inst < |p.instances|
    && t.startedAt <= t.dueAt
    && (t.warningAt.Some? ==> t.startedAt <= t.warningAt.value <= t.dueAt)
    && (t.completedAt.Some? <==> t.status == Settled)
    && (t.breachedAt.Some? <==> t.status == Breached)
    && (t.breachedAt.Some? ==> t.breachedAt.value > t.dueAt)
  }

  /** Two running timers of one instance under one policy. */
  predicate Clash(a: Timer, b: Timer) {
    a.status == Running && b.status == Running && a.inst == b.inst && a.policy == b.policy
  }

  ghost predicate OneRunning(timers: seq<Timer>) {
    forall j, k :: 0 <= j < k < |timers| ==> !Clash(timers[j], timers[k])
  }

  ghost predicate TimersOk(p: Platform) {
    (forall k :: 0 <= k < |p.timers| ==> TimerOk(p.timers[k], p)) && OneRunning(p.timers)
  }

  /** The timers named by SLA_BREACHED events, in order. */
  function BreachIds(outbox: seq<Event>): seq<Id> {
    if outbox == [] then []
    else
      var e := outbox[|outbox| - 1];
      BreachIds(outbox[..|outbox| - 1]) + (if e.kind == SlaBreached then [e.aggregateId] else [])
  }

  ghost predicate NoRepeats(ids: seq<Id>) {
    forall j, k :: 0 <= j < k < |ids| ==> ids[j] != ids[k]
  }

  /** SLA_BREACHED events and BREACHED timers are in bijection. */
  ghost predicate BreachesOk(p: Platform) {
    && NoRepeats(BreachIds(p.outbox))
    && forall k: nat :: k in BreachIds(p.outbox) <==> k < |p.timers| && p.timers[k].status == Breached
  }

  ghost predicate PlatformOk(p: Platform) {
    && CatalogOk(p.catalog)
    && InstancesOk(p) && ExecutionsOk(p) && RecordsOk(p) && TimersOk(p) && BreachesOk(p)
  }

  // -- Lookups mean what they say -------------------------------------------

  /** The transition an instance is moved along, and what the rows say of it. */
  lemma FoundTransition(p: Platform, i: nat, code: string)
    requires PlatformOk(p) && i < |p.instances|
    requires FindTransition(p.catalog.defs[p.instances[i].definition].transitions, code).Some?
    ensures var d := p.catalog.defs[p.instances[i].definition];
            var t := FindTransition(d.transitions, code).value;
            t in d.transitions && t.isActive && t.code == code && t.fromId in StateIds(d.states) && t.toId in StateIds(d.states)
            && Reached(d, t.fromId) && Reached(d, t.toId)
  {
    var d := p.catalog.defs[p.instances[i].definition];
    var t := FindTransition(d.transitions, code).value;
    assert InstanceOk(p.instances[i], p.catalog.defs);
    assert DefinitionOk(d, p.catalog.nextId);
    ActiveEndsReached(d, t);
  }

  /** In a sound definition both ends of an active transition are reached. */
  lemma ActiveEndsReached(d: Definition, t: Transition)
    requires Sound(d) && t in d.transitions && t.isActive
    ensures Reached(d, t.fromId) && Reached(d, t.toId)
  {
  }

  lemma StartStateReached(d: Definition)
    requires Sound(d)
    ensures InitialOf(d).Some? && SoleInitial(d.states, InitialOf(d).value) && Reached(d, InitialOf(d).value.id)
  {
  }

  // -- Timers ---------------------------------------------------------------

  ghost predicate MadeBy(t: Timer, policies: seq<SlaPolicy>, inst: nat, state: Id, transition: Option<Id>, now: Time) {
    exists q :: q in policies && Applies(q, state, transition) && t == TimerFor(q, inst, now)
  }

  lemma {:induction false} NewTimersMade(policies: seq<SlaPolicy>, inst: nat, state: Id, transition: Option<Id>, now: Time)
    ensures forall t :: t in NewTimers(policies, inst, state, transition, now) ==> MadeBy(t, policies, inst, state, transition, now)
  {
    if policies != [] {
      var n := |policies| - 1;
      NewTimersMade(policies[..n], inst, state, transition, now);
      assert policies == policies[..n] + [policies[n]];
      forall t | t in NewTimers(policies[..n], inst, state, transition, now) ensures MadeBy(t, policies, inst, state, transition, now) {
        assert MadeBy(t, policies[..n], inst, state, transition, now);
      }
    }
  }

  lemma {:induction false} NewTimersCover(policies: seq<SlaPolicy>, inst: nat, state: Id, transition: Option<Id>, now: Time)
    ensures forall q :: q in policies && Applies(q, state, transition) ==>
              TimerFor(q, inst, now) in NewTimers(policies, inst, state, transition, now)
  {
    hide TimerFor, Applies;
    if policies != [] {
      NewTimersCover(policies[..|policies| - 1], inst, state, transition, now);
    }
  }

  predicate PoliciesOnce(timers: seq<Timer>) {
    forall j, k :: 0 <= j < k < |timers| ==> timers[j].policy != timers[k].policy
  }

  lemma {:induction false} NewTimersOnce(policies: seq<SlaPolicy>, inst: nat, state: Id, transition: Option<Id>, now: Time)
    requires Apart(policies, PoliciesDiffer)
    ensures PoliciesOnce(NewTimers(policies, inst, state, transition, now))
  {
    if policies != [] {
      var n := |policies| - 1;
      var rest := NewTimers(policies[..n], inst, state, transition, now);
      NewTimersOnce(policies[..n], inst, state, transition, now);
      NewTimersMade(policies[..n], inst, state, transition, now);
      forall t | t in rest ensures t.policy != policies[n].id {
        assert MadeBy(t, policies[..n], inst, state, transition, now);
        var q :| q in policies[..n] && Applies(q, state, transition) && t == TimerFor(q, inst, now);
        var j :| 0 <= j < n && policies[j] == q;
        assert PoliciesDiffer(policies[j], policies[n]);
      }
      assert rest + [] == rest;
      OnceMore(rest, TimerFor(policies[n], inst, now));
    }
  }

  lemma OnceMore(timers: seq<Timer>, t: Timer)
    requires PoliciesOnce(timers) && forall x :: x in timers ==> x.policy != t.policy
    ensures PoliciesOnce(timers + [t])
  {
  }

  /** The new timers: one for each policy that applies, none else. */
  lemma NewTimersAre(policies: seq<SlaPolicy>, inst: nat, state: Id, transition: Option<Id>, now: Time)
    requires Apart(policies, PoliciesDiffer)
    ensures var ts := NewTimers(policies, inst, state, transition, now);
            && (forall q :: q in policies && Applies(q, state, transition) ==> TimerFor(q, inst, now) in ts)
            && (forall t :: t in ts ==> MadeBy(t, policies, inst, state, transition, now))
            && PoliciesOnce(ts)
  {
    hide *;
    NewTimersCover(policies, inst, state, transition, now);
    NewTimersMade(policies, inst, state, transition, now);
    NewTimersOnce(policies, inst, state, transition, now);
  }

  lemma NewTimersOk(d: Definition, nextId: Id, inst: nat, state: Id, transition: Option<Id>, now: Time, p: Platform)
    requires DefinitionOk(d, nextId) && inst < |p.instances|
    ensures forall t :: t in NewTimers(d.policies, inst, state, transition, now) ==>
              TimerOk(t, p) && t.inst == inst && t.status == Running
  {
    NewTimersAre(d.policies, inst, state, transition, now);
  }

  /** Completing the timers of an instance and opening new ones keeps one per policy. */
  lemma ReplaceTimers(p: Platform, after: Platform, d: Definition, i: nat, state: Id, transition: Option<Id>, now: Time)
    requires TimersOk(p) && DefinitionOk(d, p.catalog.nextId) && i < |after.instances| && |p.instances| <= |after.instances|
    requires after.timers == CompleteTimers(p.timers, i, now) + NewTimers(d.policies, i, state, transition, now)
    ensures TimersOk(after)
  {
    NewTimersAre(d.policies, i, state, transition, now);
    NewTimersOk(d, p.catalog.nextId, i, state, transition, now, after);
  }

  lemma AppendTimers(p: Platform, after: Platform, d: Definition, i: nat, state: Id, transition: Option<Id>, now: Time)
    requires TimersOk(p) && DefinitionOk(d, p.catalog.nextId) && i == |p.instances| < |after.instances|
    requires after.timers == p.timers + NewTimers(d.policies, i, state, transition, now)
    ensures TimersOk(after)
  {
    NewTimersAre(d.policies, i, state, transition, now);
    NewTimersOk(d, p.catalog.nextId, i, state, transition, now, after);
  }

  // -- Breach events --------------------------------------------------------

  lemma {:induction false} BreachIdsConcat(a: seq<Event>, b: seq<Event>)
    ensures BreachIds(a + b) == BreachIds(a) + BreachIds(b)
  {
    if b == [] {
      assert a + b == a;
    } else {
      assert (a + b)[..|a + b| - 1] == a + b[..|b| - 1];
      BreachIdsConcat(a, b[..|b| - 1]);
    }
  }

  lemma SingleBreach(e: Event)
    requires e.kind == SlaBreached
    ensures BreachIds([e]) == [e.aggregateId]
  {
  }

  lemma NoRepeatsConcat(a: seq<Id>, b: seq<Id>)
    requires NoRepeats(a) && NoRepeats(b) && forall x :: x in a ==> x !in b
    ensures NoRepeats(a + b)
  {
    forall j, k | 0 <= j < k < |a + b| ensures (a + b)[j] != (a + b)[k] {
      if j < |a| <= k {
        assert a[j] in a && b[k - |a|] in b;
      }
    }
  }

  lemma {:induction false} BreachEventIds(timers: seq<Timer>, now: Time)
    ensures var ids := BreachIds(BreachEvents(timers, now));
            && NoRepeats(ids) && |ids| == |BreachEvents(timers, now)|
            && forall k: nat :: k in ids <==> k < |timers| && Overdue(timers[k], now)
  {
    if timers != [] {
      var n := |timers| - 1;
      BreachEventIds(timers[..n], now);
      var rest := BreachEvents(timers[..n], now);
      var ids := BreachIds(BreachEvents(timers, now));
      assert rest + [] == rest;
      if Overdue(timers[n], now) {
        BreachIdsConcat(rest, [BreachEvent(timers, n)]);
        SingleBreach(BreachEvent(timers, n));
        NoRepeatsConcat(BreachIds(rest), [n]);
        assert ids == BreachIds(rest) + [n];
      } else {
        assert ids == BreachIds(rest);
      }
      hide *;
      assert forall k: nat :: k < n ==> timers[..n][k] == timers[k];
    }
  }

  /** Adding events of other kinds keeps the bijection while timers stay un-breached. */
  lemma OtherEvents(p: Platform, after: Platform, events: seq<Event>)
    requires BreachesOk(p) && after.outbox == p.outbox + events
    requires forall e :: e in events ==> e.kind != SlaBreached
    requires |p.timers| <= |after.timers|
    requires forall k :: 0 <= k < |p.timers| ==> (after.timers[k].status == Breached <==> p.timers[k].status == Breached)
    requires forall k :: |p.timers| <= k < |after.timers| ==> after.timers[k].status != Breached
    ensures BreachesOk(after)
  {
    BreachIdsConcat(p.outbox, events);
    NoBreachIds(events);
    assert BreachIds(after.outbox) == BreachIds(p.outbox);
  }

  lemma {:induction false} NoBreachIds(events: seq<Event>)
    requires forall e :: e in events ==> e.kind != SlaBreached
    ensures BreachIds(events) == []
  {
    if events != [] {
      NoBreachIds(events[..|events| - 1]);
    }
  }

  // -- Each call ------------------------------------------------------------

  lemma CatalogKeepsPlatform(p: Platform, step: CatalogStep)
    requires PlatformOk(p) && ApplyCatalog(p.catalog, step).Ok?
    ensures PlatformOk(p.(catalog := ApplyCatalog(p.catalog, step).value))
  {
    var after := p.(catalog := ApplyCatalog(p.catalog, step).value);
    CatalogStepKeeps(p.catalog, step);
    forall i | 0 <= i < |p.instances|
      ensures InstanceOk(p.instances[i], after.catalog.defs)
      ensures SameContents(p.catalog.defs[p.instances[i].definition], after.catalog.defs[p.instances[i].definition])
    {
      assert InstanceOk(p.instances[i], p.catalog.defs);
      PublishedImmutable(p.catalog, step, p.instances[i].definition);
      assert Reached(after.catalog.defs[p.instances[i].definition], p.instances[i].current)
        || CancelTarget(after.catalog.defs[p.instances[i].definition], p.instances[i].current);
    }
    forall k | 0 <= k < |p.executions| ensures ExecutionOk(p.executions[k], after) {
      assert ExecutionOk(p.executions[k], p);
    }
    assert forall k :: 0 <= k < |p.records| ==> RecordOk(p.records[k], p) ==> RecordOk(p.records[k], after);
    assert forall k :: 0 <= k < |p.timers| ==> TimerOk(p.timers[k], p) ==> TimerOk(p.timers[k], after);
  }

  lemma CreateInstance(p: Platform, after: Platform, inst: Instance)
    requires InstancesOk(p) && ExecutionsOk(p) && RecordsOk(p)
    requires after.instances == p.instances + [inst] && after.catalog == p.catalog
    requires after.executions == p.executions && after.records == p.records
    requires InstanceOk(inst, p.catalog.defs)
    requires forall i :: 0 <= i < |p.instances| ==> !SameRowKey(p.instances[i], inst)
    ensures InstancesOk(after) && ExecutionsOk(after) && RecordsOk(after)
  {
  }

  /** An instance row may move to any located state without going back in version. */
  lemma UpdateInstance(p: Platform, after: Platform, i: nat, inst: Instance)
    requires InstancesOk(p) && ExecutionsOk(p) && RecordsOk(p) && i < |p.instances|
    requires after.instances == p.instances[i := inst] && after.catalog == p.catalog
    requires after.executions == p.executions && after.records == p.records
    requires InstanceOk(inst, p.catalog.defs) && inst.lockVersion >= p.instances[i].lockVersion
    requires SameRowKey(p.instances[i], inst)
    ensures InstancesOk(after) && ExecutionsOk(after) && RecordsOk(after)
  {
    forall k | 0 <= k < |p.executions| ensures ExecutionOk(p.executions[k], after) {
      assert ExecutionOk(p.executions[k], p);
    }
    forall k | 0 <= k < |p.records| ensures RecordOk(p.records[k], after) {
      assert RecordOk(p.records[k], p);
    }
  }

  /** Timers are only tied to the number of instances. */
  lemma TimersUntouched(p: Platform, after: Platform)
    requires TimersOk(p) && after.timers == p.timers && |p.instances| <= |after.instances|
    ensures TimersOk(after)
  {
  }

  lemma StartTimers(p: Platform, after: Platform, def: nat, state: Id, now: Time)
    requires TimersOk(p) && BreachesOk(p) && def < |p.catalog.defs| && DefinitionOk(p.catalog.defs[def], p.catalog.nextId)
    requires |after.instances| == |p.instances| + 1 && |after.outbox| == |p.outbox| + 1
    requires after.timers == p.timers + NewTimers(p.catalog.defs[def].policies, |p.instances|, state, None, now)
    requires after.outbox[..|p.outbox|] == p.outbox && after.outbox[|p.outbox|].kind != SlaBreached
    ensures TimersOk(after) && BreachesOk(after)
  {
    var d := p.catalog.defs[def];
    AppendTimers(p, after, d, |p.instances|, state, None, now);
    NewTimersOk(d, p.catalog.nextId, |p.instances|, state, None, now, after);
    assert after.outbox == p.outbox + after.outbox[|p.outbox|..];
    OtherEvents(p, after, after.outbox[|p.outbox|..]);
  }

  /** The rows of a start that is not a repetition. */
  lemma StartShape(p: Platform, q: StartRequest, a: Adapter, now: Time) returns (def: nat)
    requires Start(p, q, a, now).Ok? && Start(p, q, a, now).value.platform != p
    ensures var after := Start(p, q, a, now).value.platform;
            && LatestDefinition(p.catalog.defs, q.entityType, q.workflowCode) == Some(def) && def < |p.catalog.defs|
            && p.catalog.defs[def].isPublished && InitialOf(p.catalog.defs[def]).Some?
            && var state := InitialOf(p.catalog.defs[def]).value.id;
               && after.instances == p.instances + [Instance(def, p.catalog.defs[def].version, q.entityType, q.entityId, q.instanceKey,
                                                             state, now, None, None, 1)]
               && (forall i :: 0 <= i < |p.instances| ==> !SameKey(p.instances[i], def, q.entityType, q.entityId, q.instanceKey))
               && after == p.(instances := after.instances, timers := after.timers, outbox := after.outbox)
               && after.timers == p.timers + NewTimers(p.catalog.defs[def].policies, |p.instances|, state, None, now)
               && |after.outbox| == |p.outbox| + 1 && after.outbox[..|p.outbox|] == p.outbox
               && after.outbox[|p.outbox|].kind != SlaBreached
  {
    hide LatestDefinition, InitialOf, NewTimers, ScrubObject;
    def := LatestDefinition(p.catalog.defs, q.entityType, q.workflowCode).value;
  }

  lemma StartKeeps(p: Platform, q: StartRequest, a: Adapter, now: Time)
    requires PlatformOk(p) && Start(p, q, a, now).Ok?
    ensures PlatformOk(Start(p, q, a, now).value.platform)
  {
    hide Start, LatestDefinition, InitialOf, NewTimers, Sound, Reached, SoleInitial;
    var after := Start(p, q, a, now).value.platform;
    if after != p {
      var def := StartShape(p, q, a, now);
      var d := p.catalog.defs[def];
      assert DefinitionOk(d, p.catalog.nextId);
      StartStateReached(d);
      var inst := after.instances[|p.instances|];
      InitialIsState(d);
      assert InstanceOk(inst, p.catalog.defs);
      CreateInstance(p, after, inst);
      StartTimers(p, after, def, inst.current, now);
    }
  }

  lemma InitialIsState(d: Definition)
    requires InitialOf(d).Some?
    ensures InitialOf(d).value.id in StateIds(d.states)
  {
  }

  /** Both ends of the move of an instance along an active transition. */
  ghost predicate Movable(p: Platform, i: nat, t: Transition, e: Execution) {
    && i < |p.instances| && InstanceOk(p.instances[i], p.catalog.defs)
    && var d := p.catalog.defs[p.instances[i].definition];
       && DefinitionOk(d, p.catalog.nextId)
       && t in d.transitions && t.isActive && t.fromId == p.instances[i].current
       && e.inst == i && e.transition == t.id && e.fromId == t.fromId && e.toId == t.toId
  }

  lemma AdvanceRows(p: Platform, i: nat, t: Transition, e: Execution, now: Time)
    requires InstancesOk(p) && ExecutionsOk(p) && RecordsOk(p) && Movable(p, i, t, e)
    ensures InstancesOk(Advance(p, i, t, e, now)) && ExecutionsOk(Advance(p, i, t, e, now)) && RecordsOk(Advance(p, i, t, e, now))
  {
    var after := Advance(p, i, t, e, now);
    var d := p.catalog.defs[p.instances[i].definition];
    ActiveEndsReached(d, t);
    var middle := after.(executions := p.executions);
    assert InstanceOk(after.instances[i], p.catalog.defs);
    UpdateInstance(p, middle, i, after.instances[i]);
    assert Follows(e, d);
    AppendExecution(middle, after, e);
  }

  lemma AdvanceTimers(p: Platform, i: nat, t: Transition, e: Execution, now: Time)
    requires TimersOk(p) && BreachesOk(p) && Movable(p, i, t, e)
    ensures TimersOk(Advance(p, i, t, e, now)) && BreachesOk(Advance(p, i, t, e, now))
  {
    var after := Advance(p, i, t, e, now);
    var d := p.catalog.defs[p.instances[i].definition];
    ReplaceTimers(p, after, d, i, t.toId, Some(t.id), now);
    NewTimersOk(d, p.catalog.nextId, i, t.toId, Some(t.id), now, after);
    AdvanceEvents(p, i, t, e, now);
    OtherEvents(p, after, after.outbox[|p.outbox|..]);
  }

  /** Moving an instance along an active transition of its definition, from the
      state it is in, keeps the invariant. */
  lemma AdvanceKeeps(p: Platform, i: nat, t: Transition, e: Execution, now: Time)
    requires PlatformOk(p) && Movable(p, i, t, e)
    ensures PlatformOk(Advance(p, i, t, e, now))
  {
    AdvanceRows(p, i, t, e, now);
    AdvanceTimers(p, i, t, e, now);
  }

  lemma AdvanceEvents(p: Platform, i: nat, t: Transition, e: Execution, now: Time)
    requires i < |p.instances| && p.instances[i].definition < |p.catalog.defs|
    ensures var after := Advance(p, i, t, e, now);
            && |after.outbox| == |p.outbox| + 2 && after.outbox == p.outbox + after.outbox[|p.outbox|..]
            && after.outbox[|p.outbox|].kind == TransitionExecuted && after.outbox[|p.outbox| + 1].kind == StateChanged
            && forall x :: x in after.outbox[|p.outbox|..] ==> x.kind != SlaBreached
  {
  }

  lemma AppendExecution(p: Platform, after: Platform, e: Execution)
    requires ExecutionsOk(p) && RecordsOk(p) && after == p.(executions := p.executions + [e]) && ExecutionOk(e, p)
    ensures ExecutionsOk(after) && RecordsOk(after)
  {
  }

  /** A record added for the newest execution of its instance. */
  lemma AppendRecord(p: Platform, after: Platform, r: Record)
    requires PlatformOk(p) && after == p.(records := p.records + [r]) && RecordOk(r, p)
    requires FindRecord(p.records, r.key, r.inst, r.transition).None?
    ensures PlatformOk(after)
  {
    hide CatalogOk, InstanceOk, BreachIds, NoRepeats, TimerOk, ExecutionOk, OneRunning;
    forall k | 0 <= k < |p.records| ensures RecordOk(p.records[k], after) && !SameSlot(p.records[k], r) {
      assert RecordOk(p.records[k], p);
    }
    assert RecordOk(r, after);
    hide RecordOk, FindRecord;
    OtherTables(p, after);
  }

  /** Records are tied to the other tables, not the other way round. */
  lemma OtherTables(p: Platform, after: Platform)
    requires ExecutionsOk(p) && TimersOk(p) && BreachesOk(p) && InstancesOk(p) && after == p.(records := after.records)
    ensures ExecutionsOk(after) && TimersOk(after) && BreachesOk(after) && InstancesOk(after)
  {
    hide InstanceOk, BreachIds, OneRunning;
    forall k | 0 <= k < |p.executions| ensures ExecutionOk(p.executions[k], after) {
      assert ExecutionOk(p.executions[k], p);
    }
    forall k | 0 <= k < |p.timers| ensures TimerOk(p.timers[k], after) {
      assert TimerOk(p.timers[k], p);
    }
  }

  lemma NewRecordOk(p: Platform, q: TransitionRequest, result: Object, now: Time, i: nat, t: Transition)
    requires i < |p.instances| && p.instances[i].definition < |p.catalog.defs| && q.key.Some?
    requires q.lockVersion.Some? ==> q.lockVersion.value == p.instances[i].lockVersion
    ensures RecordOk(Record(q.key.value, i, t.id, FingerprintOf(q), |p.executions|),
                     Advance(p, i, t, ExecutionOf(i, p.instances[i], t, q, Some(result)), now))
  {
  }

  lemma PerformKeeps(p: Platform, q: TransitionRequest, result: Object, now: Time, i: nat, t: Transition)
    requires PlatformOk(p) && i < |p.instances| && Movable(p, i, t, ExecutionOf(i, p.instances[i], t, q, Some(result)))
    requires q.lockVersion.Some? ==> q.lockVersion.value == p.instances[i].lockVersion
    requires Given(q.key) ==> FindRecord(p.records, q.key.value, i, t.id).None?
    ensures PlatformOk(Performed(p, q, result, now, i, t))
  {
    var e := ExecutionOf(i, p.instances[i], t, q, Some(result));
    var moved := Advance(p, i, t, e, now);
    AdvanceKeeps(p, i, t, e, now);
    if Given(q.key) {
      NewRecordOk(p, q, result, now, i, t);
      AppendRecord(moved, Performed(p, q, result, now, i, t), Record(q.key.value, i, t.id, FingerprintOf(q), |p.executions|));
    }
  }

  lemma MovableByCode(p: Platform, i: nat, t: Transition, q: TransitionRequest, result: Option<Object>)
    requires PlatformOk(p) && i < |p.instances|
    requires FindTransition(p.catalog.defs[p.instances[i].definition].transitions, q.code) == Some(t)
    requires t.fromId == p.instances[i].current
    ensures Movable(p, i, t, ExecutionOf(i, p.instances[i], t, q, result))
  {
    FoundTransition(p, i, q.code);
    assert InstanceOk(p.instances[i], p.catalog.defs);
    assert DefinitionOk(p.catalog.defs[p.instances[i].definition], p.catalog.nextId);
  }

  /** A successful call resolved an instance and a transition, and either
      returned a recorded execution or performed the transition. */
  lemma ExecuteCase(p: Platform, q: TransitionRequest, a: Adapter, now: Time) returns (i: nat, t: Transition)
    requires Execute(p, q, a, now).Ok?
    ensures LookupInstance(p, q.entityType, q.entityId, q.workflowCode, q.instanceKey) == Some(i)
    ensures i < |p.instances| && p.instances[i].definition < |p.catalog.defs|
    ensures FindTransition(p.catalog.defs[p.instances[i].definition].transitions, q.code) == Some(t)
    ensures q.lockVersion.Some? ==> q.lockVersion.value == p.instances[i].lockVersion
    ensures Execute(p, q, a, now).value.replayed ==>
              && Execute(p, q, a, now).value.platform == p
              && Given(q.key) && FindRecord(p.records, q.key.value, i, t.id).Some?
              && var r := p.records[FindRecord(p.records, q.key.value, i, t.id).value];
                 r.fingerprint == FingerprintOf(q) && r.execution == Execute(p, q, a, now).value.execution
    ensures !Execute(p, q, a, now).value.replayed ==>
              Refusal(p, q, a, i, t).None? && a.applied.Ok?
              && Execute(p, q, a, now).value == Done(Performed(p, q, a.applied.value, now, i, t), |p.executions|, false)
  {
    i := LookupInstance(p, q.entityType, q.entityId, q.workflowCode, q.instanceKey).value;
    t := FindTransition(p.catalog.defs[p.instances[i].definition].transitions, q.code).value;
  }

  lemma UnrefusedKeeps(p: Platform, q: TransitionRequest, a: Adapter, now: Time, i: nat, t: Transition)
    requires PlatformOk(p) && i < |p.instances|
    requires FindTransition(p.catalog.defs[p.instances[i].definition].transitions, q.code) == Some(t)
    requires q.lockVersion.Some? ==> q.lockVersion.value == p.instances[i].lockVersion
    requires Refusal(p, q, a, i, t).None? && a.applied.Ok?
    ensures PlatformOk(Performed(p, q, a.applied.value, now, i, t))
  {
    hide PlatformOk, Movable, Performed;
    MovableByCode(p, i, t, q, Some(a.applied.value));
    PerformKeeps(p, q, a.applied.value, now, i, t);
  }

  lemma ExecuteKeeps(p: Platform, q: TransitionRequest, a: Adapter, now: Time)
    requires PlatformOk(p) && Execute(p, q, a, now).Ok?
    ensures PlatformOk(Execute(p, q, a, now).value.platform)
  {
    var i, t := ExecuteCase(p, q, a, now);
    if !Execute(p, q, a, now).value.replayed {
      UnrefusedKeeps(p, q, a, now, i, t);
    }
  }

  lemma RecordExternalKeeps(p: Platform, q: TransitionRequest, result: Option<Object>, a: Adapter, now: Time)
    requires PlatformOk(p) && RecordExternal(p, q, result, a, now).Ok?
    ensures PlatformOk(RecordExternal(p, q, result, a, now).value.platform)
  {
    var i := LookupInstance(p, q.entityType, q.entityId, q.workflowCode, q.instanceKey).value;
    var t := FindTransition(p.catalog.defs[p.instances[i].definition].transitions, q.code).value;
    MovableByCode(p, i, t, q, result);
    AdvanceKeeps(p, i, t, ExecutionOf(i, p.instances[i], t, q, result), now);
  }

  lemma CancelKeeps(p: Platform, i: nat, reason: Option<string>, now: Time)
    requires PlatformOk(p) && Cancel(p, i, reason, now).Ok?
    ensures PlatformOk(Cancel(p, i, reason, now).value)
  {
    var after := Cancel(p, i, reason, now).value;
    assert InstanceOk(p.instances[i], p.catalog.defs);
    var to := CancelledStateOf(p.catalog.defs[p.instances[i].definition]).value;
    assert CancelTarget(p.catalog.defs[p.instances[i].definition], to.id);
    UpdateInstance(p, after, i, after.instances[i]);
    TimersUntouched(p, after);
    OtherEvents(p, after, after.outbox[|p.outbox|..]);
  }

  lemma SweepKeeps(p: Platform, now: Time)
    requires PlatformOk(p)
    ensures PlatformOk(Sweep(p, now))
  {
    var after := Sweep(p, now);
    BreachIdsConcat(p.outbox, BreachEvents(p.timers, now));
    BreachEventIds(p.timers, now);
    NoRepeatsConcat(BreachIds(p.outbox), BreachIds(BreachEvents(p.timers, now)));
    forall k | 0 <= k < |p.timers| ensures TimerOk(after.timers[k], after) {
      assert TimerOk(p.timers[k], p);
    }
    forall k | 0 <= k < |p.executions| ensures ExecutionOk(p.executions[k], after) {
      assert ExecutionOk(p.executions[k], p);
    }
    forall k | 0 <= k < |p.records| ensures RecordOk(p.records[k], after) {
      assert RecordOk(p.records[k], p);
    }
  }

  // -- What is offered ------------------------------------------------------

  lemma {:induction false} PermittedSorted(ts: seq<Transition>, inst: Instance, actor: Actor)
    requires Sorted(ts, TransitionOrder)
    ensures Sorted(Permitted(ts, inst, actor), TransitionOrder)
  {
    hide Gate;
    if ts != [] {
      PermittedSorted(ts[1..], inst, actor);
      var rest := Permitted(ts[1..], inst, actor);
      forall k | 0 <= k < |rest| ensures ts[0].sortOrder <= rest[k].sortOrder {
        assert rest[k] in rest;
        var j :| 0 <= j < |ts[1..]| && ts[1..][j] == rest[k];
        assert TransitionOrder(ts[0]) <= TransitionOrder(ts[j + 1]);
      }
    }
  }

  /** In every reachable state: offered are exactly the active transitions the gate
      lets the actor through, in their sort order; in a terminal state none are. */
  lemma AvailableIff(p: Platform, i: nat, actor: Actor)
    requires PlatformOk(p) && i < |p.instances|
    ensures var inst := p.instances[i];
            && inst.definition < |p.catalog.defs|
            && var d := p.catalog.defs[inst.definition]; var state := FindState(d.states, inst.current);
               && AvailableTransitions(p, i, actor).Ok? && state.Some?
               && var offered := AvailableTransitions(p, i, actor).value;
                  && Sorted(offered, TransitionOrder)
                  && forall t :: t in offered <==>
                       !state.value.isTerminal && t in d.transitions && t.isActive && Gate(inst, t, actor).None?
  {
    var inst := p.instances[i];
    assert InstanceOk(inst, p.catalog.defs);
    var d := p.catalog.defs[inst.definition];
    SortKeeps(d.transitions, TransitionOrder, TransitionsDiffer);
    hide Gate, SortBy, PlatformOk;
    PermittedSorted(SortBy(d.transitions, TransitionOrder), inst, actor);
  }
}
