/** Conservation of timers and events, and the timers that run after a transition. */
module EngineCounts {
  import opened Wrappers
  import opened JsonScrubber
  import opened WorkflowModel
  import opened DefinitionService
  import opened DefinitionLaws
  import opened WorkflowEngine
  import opened EngineLaws
  import opened EngineRuns
  import opened Sorting

  function CountKind(outbox: seq<Event>, kind: EventKind): nat {
    if outbox == [] then 0
    else CountKind(outbox[..|outbox| - 1], kind) + (if outbox[|outbox| - 1].kind == kind then 1 else 0)
  }

  function CountBreached(timers: seq<Timer>): nat {
    if timers == [] then 0
    else CountBreached(timers[..|timers| - 1]) + (if timers[|timers| - 1].status == Breached then 1 else 0)
  }

  /** Moves of all instances: executions and cancellations together. */
  function Moves(instances: seq<Instance>): int {
    if instances == [] then 0
    else Moves(instances[..|instances| - 1]) + instances[|instances| - 1].lockVersion - 1
  }

  /** Every event kind counts what it announces: instances started, executions,
      cancellations, breached timers. */
  ghost predicate Balanced(p: Platform, started: nat, cancels: nat) {
    && CountKind(p.outbox, WorkflowStarted) == started
    && CountKind(p.outbox, TransitionExecuted) == |p.executions|
    && CountKind(p.outbox, StateChanged) == |p.executions|
    && CountKind(p.outbox, WorkflowCancelled) == cancels
    && CountKind(p.outbox, SlaBreached) == CountBreached(p.timers)
  }

  // -- Counting -------------------------------------------------------------

  lemma {:induction false} CountConcat(a: seq<Event>, b: seq<Event>, kind: EventKind)
    ensures CountKind(a + b, kind) == CountKind(a, kind) + CountKind(b, kind)
  {
    if b == [] {
      assert a + b == a;
    } else {
      assert (a + b)[..|a + b| - 1] == a + b[..|b| - 1];
      CountConcat(a, b[..|b| - 1], kind);
    }
  }

  lemma CountOne(outbox: seq<Event>, e: Event, kind: EventKind)
    ensures CountKind(outbox + [e], kind) == CountKind(outbox, kind) + (if e.kind == kind then 1 else 0)
  {
  }

  /** Each event has one of five kinds. */
  lemma {:induction false} KindsTotal(outbox: seq<Event>)
    ensures |outbox| == CountKind(outbox, WorkflowStarted) + CountKind(outbox, TransitionExecuted)
                        + CountKind(outbox, StateChanged) + CountKind(outbox, WorkflowCancelled) + CountKind(outbox, SlaBreached)
  {
    if outbox != [] {
      KindsTotal(outbox[..|outbox| - 1]);
    }
  }

  lemma {:induction false} BreachedConcat(a: seq<Timer>, b: seq<Timer>)
    ensures CountBreached(a + b) == CountBreached(a) + CountBreached(b)
  {
    if b == [] {
      assert a + b == a;
    } else {
      assert (a + b)[..|a + b| - 1] == a + b[..|b| - 1];
      BreachedConcat(a, b[..|b| - 1]);
    }
  }

  lemma {:induction false} NoneBreached(timers: seq<Timer>)
    requires forall t :: t in timers ==> t.status == Running
    ensures CountBreached(timers) == 0
  {
    if timers != [] {
      NoneBreached(timers[..|timers| - 1]);
    }
  }

  lemma {:induction false} CompleteCount(timers: seq<Timer>, i: nat, now: Time)
    ensures CountBreached(CompleteTimers(timers, i, now)) == CountBreached(timers)
  {
    if timers != [] {
      var n := |timers| - 1;
      CompleteCount(timers[..n], i, now);
      assert CompleteTimers(timers, i, now)[..n] == CompleteTimers(timers[..n], i, now);
    }
  }

  lemma {:induction false} SweepCounts(timers: seq<Timer>, now: Time)
    ensures CountBreached(BreachTimers(timers, now)) == CountBreached(timers) + |BreachEvents(timers, now)|
    ensures CountKind(BreachEvents(timers, now), SlaBreached) == |BreachEvents(timers, now)|
    ensures forall kind :: kind != SlaBreached ==> CountKind(BreachEvents(timers, now), kind) == 0
  {
    if timers != [] {
      var n := |timers| - 1;
      SweepCounts(timers[..n], now);
      assert BreachTimers(timers, now)[..n] == BreachTimers(timers[..n], now);
      var rest := BreachEvents(timers[..n], now);
      assert rest + [] == rest;
      if Overdue(timers[n], now) {
        assert (rest + [BreachEvent(timers, n)])[..|rest|] == rest;
      }
    }
  }

  lemma {:induction false} MovesUpdate(instances: seq<Instance>, i: nat, inst: Instance)
    requires i < |instances|
    ensures Moves(instances[i := inst]) == Moves(instances) + inst.lockVersion - instances[i].lockVersion
  {
    var n := |instances| - 1;
    if i < n {
      assert instances[i := inst][..n] == instances[..n][i := inst];
      MovesUpdate(instances[..n], i, inst);
    } else {
      assert instances[i := inst][..n] == instances[..n];
    }
  }

  lemma {:induction false} TimersRunning(policies: seq<SlaPolicy>, inst: nat, state: Id, transition: Option<Id>, now: Time)
    ensures forall t :: t in NewTimers(policies, inst, state, transition, now) ==> t.status == Running
  {
    if policies != [] {
      TimersRunning(policies[..|policies| - 1], inst, state, transition, now);
    }
  }

  // -- Every call keeps the balance -----------------------------------------

  lemma StartBalanced(p: Platform, q: StartRequest, a: Adapter, now: Time, started: nat, cancels: nat)
    requires Balanced(p, started, cancels) && Start(p, q, a, now).Ok?
    ensures var after := Start(p, q, a, now).value.platform;
            && |p.instances| <= |after.instances| && Balanced(after, started + |after.instances| - |p.instances|, cancels)
            && Moves(after.instances) == Moves(p.instances) && |after.executions| == |p.executions|
            && CountBreached(after.timers) == CountBreached(p.timers)
  {
    var after := Start(p, q, a, now).value.platform;
    if after != p {
      var def := StartShape(p, q, a, now);
      var state := InitialOf(p.catalog.defs[def]).value.id;
      hide Start, NewTimers, LatestDefinition, InitialOf, CountKind;
      var timers := NewTimers(p.catalog.defs[def].policies, |p.instances|, state, None, now);
      TimersRunning(p.catalog.defs[def].policies, |p.instances|, state, None, now);
      NoneBreached(timers);
      BreachedConcat(p.timers, timers);
      assert after.instances[..|p.instances|] == p.instances;
      var e := after.outbox[|p.outbox|];
      assert e.kind == WorkflowStarted by { StartAnnounced(p, q, a, now); }
      assert after.outbox == p.outbox + [e];
      forall kind ensures CountKind(after.outbox, kind) == CountKind(p.outbox, kind) + (if e.kind == kind then 1 else 0) {
        CountOne(p.outbox, e, kind);
      }
    }
  }

  lemma StartAnnounced(p: Platform, q: StartRequest, a: Adapter, now: Time)
    requires Start(p, q, a, now).Ok? && Start(p, q, a, now).value.platform != p
    ensures var outbox := Start(p, q, a, now).value.platform.outbox;
            |outbox| == |p.outbox| + 1 && outbox[|p.outbox|].kind == WorkflowStarted
  {
    hide LatestDefinition, InitialOf, NewTimers, ScrubObject;
  }

  lemma AdvanceBalanced(p: Platform, i: nat, t: Transition, e: Execution, now: Time, started: nat, cancels: nat)
    requires Balanced(p, started, cancels) && i < |p.instances| && p.instances[i].definition < |p.catalog.defs|
    ensures var after := Advance(p, i, t, e, now);
            && Balanced(after, started, cancels)
            && Moves(after.instances) == Moves(p.instances) + 1 && |after.executions| == |p.executions| + 1
            && CountBreached(after.timers) == CountBreached(p.timers)
  {
    var after := Advance(p, i, t, e, now);
    var d := p.catalog.defs[p.instances[i].definition];
    MovesUpdate(p.instances, i, after.instances[i]);
    CompleteCount(p.timers, i, now);
    TimersRunning(d.policies, i, t.toId, Some(t.id), now);
    NoneBreached(NewTimers(d.policies, i, t.toId, Some(t.id), now));
    BreachedConcat(CompleteTimers(p.timers, i, now), NewTimers(d.policies, i, t.toId, Some(t.id), now));
    AdvanceEvents(p, i, t, e, now);
    var first, second := after.outbox[|p.outbox|], after.outbox[|p.outbox| + 1];
    assert after.outbox == p.outbox + [first] + [second];
    forall kind ensures CountKind(after.outbox, kind)
                        == CountKind(p.outbox, kind) + (if first.kind == kind then 1 else 0) + (if second.kind == kind then 1 else 0)
    {
      CountOne(p.outbox, first, kind);
      CountOne(p.outbox + [first], second, kind);
    }
  }

  lemma CancelBalanced(p: Platform, i: nat, reason: Option<string>, now: Time, started: nat, cancels: nat)
    requires Balanced(p, started, cancels) && Cancel(p, i, reason, now).Ok?
    ensures var after := Cancel(p, i, reason, now).value;
            && Balanced(after, started, cancels + 1)
            && Moves(after.instances) == Moves(p.instances) + 1 && |after.executions| == |p.executions|
            && |after.instances| == |p.instances| && after.timers == p.timers
  {
    var after := Cancel(p, i, reason, now).value;
    MovesUpdate(p.instances, i, after.instances[i]);
    var e := after.outbox[|p.outbox|];
    forall kind ensures CountKind(after.outbox, kind) == CountKind(p.outbox, kind) + (if e.kind == kind then 1 else 0) {
      CountOne(p.outbox, e, kind);
    }
  }

  lemma SweepBalanced(p: Platform, now: Time, started: nat, cancels: nat)
    requires Balanced(p, started, cancels)
    ensures Balanced(Sweep(p, now), started, cancels)
    ensures CountBreached(Sweep(p, now).timers) == CountBreached(p.timers) + SweepCount(p, now)
  {
    SweepCounts(p.timers, now);
    forall kind
      ensures CountKind(Sweep(p, now).outbox, kind) == CountKind(p.outbox, kind) + CountKind(BreachEvents(p.timers, now), kind)
    {
      CountConcat(p.outbox, BreachEvents(p.timers, now), kind);
    }
  }

  /** 1 for a successful `cancel_workflow`. */
  function CancelsBy(p: Platform, step: PlatformStep, now: Time): nat {
    if step.CancelStep? && Cancel(p, step.inst, step.reason, now).Ok? then 1 else 0
  }

  /** What a sweep returns. */
  function SweepsBy(p: Platform, step: PlatformStep, now: Time): nat {
    if step.SweepStep? then SweepCount(p, now) else 0
  }

  lemma AfterBalanced(p: Platform, step: PlatformStep, now: Time, started: nat, cancels: nat)
    requires Balanced(p, started, cancels)
    ensures var after := After(p, step, now);
            && |p.instances| <= |after.instances|
            && Balanced(after, started + |after.instances| - |p.instances|, cancels + CancelsBy(p, step, now))
            && Moves(after.instances) - |after.executions| == Moves(p.instances) - |p.executions| + CancelsBy(p, step, now)
            && CountBreached(after.timers) == CountBreached(p.timers) + SweepsBy(p, step, now)
  {
    hide ApplyCatalog, Start, Cancel, Sweep, Advance, Execute, RecordExternal, Balanced, CountKind, CountBreached, Moves, SweepCount;
    match step
    case EditCatalog(edit) => EditBalanced(p, edit, started, cancels);
    case StartStep(q, a) => if Start(p, q, a, now).Ok? { StartBalanced(p, q, a, now, started, cancels); }
    case ExecuteStep(q, a) => if Execute(p, q, a, now).Ok? { ExecuteBalanced(p, q, a, now, started, cancels); }
    case RecordStep(q, result, a) => if RecordExternal(p, q, result, a, now).Ok? { RecordBalanced(p, q, result, a, now, started, cancels); }
    case CancelStep(i, reason) => if Cancel(p, i, reason, now).Ok? { CancelBalanced(p, i, reason, now, started, cancels); }
    case SweepStep =>
      SweepBalanced(p, now, started, cancels);
      SweepOnlyTimers(p, now);
  }

  lemma EditBalanced(p: Platform, edit: CatalogStep, started: nat, cancels: nat)
    requires Balanced(p, started, cancels)
    ensures ApplyCatalog(p.catalog, edit).Ok? ==> Balanced(p.(catalog := ApplyCatalog(p.catalog, edit).value), started, cancels)
  {
    hide ApplyCatalog;
  }

  lemma SweepOnlyTimers(p: Platform, now: Time)
    ensures Sweep(p, now) == p.(timers := Sweep(p, now).timers, outbox := Sweep(p, now).outbox)
  {
  }

  /** A replay adds nothing; a performed transition one execution and its two events. */
  lemma ExecuteBalanced(p: Platform, q: TransitionRequest, a: Adapter, now: Time, started: nat, cancels: nat)
    requires Balanced(p, started, cancels) && Execute(p, q, a, now).Ok?
    ensures var after := Execute(p, q, a, now).value.platform;
            && Balanced(after, started, cancels) && |after.instances| == |p.instances|
            && Moves(after.instances) - |after.executions| == Moves(p.instances) - |p.executions|
            && CountBreached(after.timers) == CountBreached(p.timers)
  {
    hide Execute, CountKind, CountBreached, Moves;
    var i, t := ExecuteCase(p, q, a, now);
    if !Execute(p, q, a, now).value.replayed {
      AdvanceBalanced(p, i, t, ExecutionOf(i, p.instances[i], t, q, Some(a.applied.value)), now, started, cancels);
    }
  }

  lemma RecordBalanced(p: Platform, q: TransitionRequest, result: Option<Object>, a: Adapter, now: Time, started: nat, cancels: nat)
    requires Balanced(p, started, cancels) && RecordExternal(p, q, result, a, now).Ok?
    ensures var after := RecordExternal(p, q, result, a, now).value.platform;
            && Balanced(after, started, cancels) && |after.instances| == |p.instances|
            && Moves(after.instances) - |after.executions| == Moves(p.instances) - |p.executions|
            && CountBreached(after.timers) == CountBreached(p.timers)
  {
    hide CountKind, CountBreached, Moves;
    var i := LookupInstance(p, q.entityType, q.entityId, q.workflowCode, q.instanceKey).value;
    var t := FindTransition(p.catalog.defs[p.instances[i].definition].transitions, q.code).value;
    AdvanceBalanced(p, i, t, ExecutionOf(i, p.instances[i], t, q, result), now, started, cancels);
  }

  /** The sum of what the sweeps of a run returned. */
  ghost function Swept(p: Platform, t: Time, steps: seq<Timed>): nat {
    if steps == [] then 0
    else
      var init := steps[..|steps| - 1];
      Swept(p, t, init) + SweepsBy(Run(p, t, init), steps[|steps| - 1].step, ClockAt(t, steps))
  }

  /** The number of calls of a run that cancelled an instance. */
  ghost function Cancellations(p: Platform, t: Time, steps: seq<Timed>): nat {
    if steps == [] then 0
    else
      var init := steps[..|steps| - 1];
      Cancellations(p, t, init) + CancelsBy(Run(p, t, init), steps[|steps| - 1].step, ClockAt(t, steps))
  }

  /** Conservation over every run from an empty engine: each event kind counts what
      happened; lock versions count executions and cancellations; the sweeps returned in
      all the number of breached timers; and the outbox holds one event per started
      instance, two per execution, one per cancellation and one per breach. */
  lemma {:induction false} Conservation(c: Catalog, t: Time, steps: seq<Timed>)
    ensures var p := Run(Genesis(c), t, steps); var cancels := Cancellations(Genesis(c), t, steps);
            && Balanced(p, |p.instances|, cancels)
            && Moves(p.instances) == |p.executions| + cancels
            && Swept(Genesis(c), t, steps) == CountBreached(p.timers)
            && |p.outbox| == |p.instances| + 2 * |p.executions| + cancels + CountBreached(p.timers)
  {
    hide After, SweepsBy, CancelsBy;
    if steps != [] {
      var init := steps[..|steps| - 1];
      var mid := Run(Genesis(c), t, init);
      Conservation(c, t, init);
      AfterBalanced(mid, steps[|steps| - 1].step, ClockAt(t, steps), |mid.instances|, Cancellations(Genesis(c), t, init));
    }
    KindsTotal(Run(Genesis(c), t, steps).outbox);
  }

  /** A repeated sweep at the same time finds nothing and changes nothing. */
  lemma SecondSweepIdle(p: Platform, now: Time)
    ensures SweepCount(Sweep(p, now), now) == 0 && Sweep(Sweep(p, now), now) == Sweep(p, now)
  {
    var swept := BreachTimers(p.timers, now);
    NothingOverdue(swept, now);
    assert BreachTimers(swept, now) == swept;
  }

  lemma {:induction false} NothingOverdue(timers: seq<Timer>, now: Time)
    requires forall k :: 0 <= k < |timers| ==> !Overdue(timers[k], now)
    ensures BreachEvents(timers, now) == []
  {
    if timers != [] {
      NothingOverdue(timers[..|timers| - 1], now);
    }
  }

  // -- Timers right after a transition --------------------------------------

  /** A timer of instance `i` that is running. */
  predicate RunsFor(t: Timer, i: nat) {
    t.inst == i && t.status == Running
  }

  /** Right after a transition the running timers of the instance are exactly one per
      active policy that matches the entered state and the transition, all started at
      that moment and due in order. */
  lemma TimersAfterTransition(p: Platform, q: TransitionRequest, a: Adapter, now: Time) returns (i: nat, t: Transition)
    requires PlatformOk(p) && Execute(p, q, a, now).Ok? && !Execute(p, q, a, now).value.replayed
    ensures LookupInstance(p, q.entityType, q.entityId, q.workflowCode, q.instanceKey) == Some(i) && i < |p.instances|
    ensures p.instances[i].definition < |p.catalog.defs|
    ensures FindTransition(p.catalog.defs[p.instances[i].definition].transitions, q.code) == Some(t)
    ensures var timers := Execute(p, q, a, now).value.platform.timers;
            var policies := p.catalog.defs[p.instances[i].definition].policies;
            && (forall x :: x in timers && RunsFor(x, i) ==> MadeBy(x, policies, i, t.toId, Some(t.id), now))
            && (forall x :: x in policies && Applies(x, t.toId, Some(t.id)) ==> TimerFor(x, i, now) in timers)
            && OneRunning(timers)
            && (forall x :: x in timers && RunsFor(x, i) ==>
                  x.startedAt == now <= x.dueAt && (x.warningAt.Some? ==> now <= x.warningAt.value <= x.dueAt))
  {
    i, t := ExecuteCase(p, q, a, now);
    ExecuteKeeps(p, q, a, now);
    RunningAfter(p, i, t, ExecutionOf(i, p.instances[i], t, q, Some(a.applied.value)), now);
  }

  /** The same right after a transition recorded after the fact. */
  lemma TimersAfterRecord(p: Platform, q: TransitionRequest, result: Option<Object>, a: Adapter, now: Time)
    returns (i: nat, t: Transition)
    requires PlatformOk(p) && RecordExternal(p, q, result, a, now).Ok?
    ensures LookupInstance(p, q.entityType, q.entityId, q.workflowCode, q.instanceKey) == Some(i) && i < |p.instances|
    ensures p.instances[i].definition < |p.catalog.defs|
    ensures FindTransition(p.catalog.defs[p.instances[i].definition].transitions, q.code) == Some(t)
    ensures var timers := RecordExternal(p, q, result, a, now).value.platform.timers;
            var policies := p.catalog.defs[p.instances[i].definition].policies;
            && (forall x :: x in timers && RunsFor(x, i) ==> MadeBy(x, policies, i, t.toId, Some(t.id), now))
            && (forall x :: x in policies && Applies(x, t.toId, Some(t.id)) ==> TimerFor(x, i, now) in timers)
            && OneRunning(timers)
            && (forall x :: x in timers && RunsFor(x, i) ==>
                  x.startedAt == now <= x.dueAt && (x.warningAt.Some? ==> now <= x.warningAt.value <= x.dueAt))
  {
    RecordExternalKeeps(p, q, result, a, now);
    i := LookupInstance(p, q.entityType, q.entityId, q.workflowCode, q.instanceKey).value;
    t := FindTransition(p.catalog.defs[p.instances[i].definition].transitions, q.code).value;
    hide CatalogOk, InstancesOk, ExecutionsOk, RecordsOk, BreachesOk, FindTransition, LookupInstance, Gate, MadeBy, Applies;
    RunningAfter(p, i, t, ExecutionOf(i, p.instances[i], t, q, result), now);
  }

  lemma RunningAfter(p: Platform, i: nat, t: Transition, e: Execution, now: Time)
    requires PlatformOk(p) && i < |p.instances| && p.instances[i].definition < |p.catalog.defs|
    ensures var timers := Advance(p, i, t, e, now).timers;
            var policies := p.catalog.defs[p.instances[i].definition].policies;
            && (forall x :: x in timers && RunsFor(x, i) ==> MadeBy(x, policies, i, t.toId, Some(t.id), now))
            && (forall x :: x in policies && Applies(x, t.toId, Some(t.id)) ==> TimerFor(x, i, now) in timers)
            && (forall x :: x in timers && RunsFor(x, i) ==>
                  x.startedAt == now <= x.dueAt && (x.warningAt.Some? ==> now <= x.warningAt.value <= x.dueAt))
  {
    var d := p.catalog.defs[p.instances[i].definition];
    assert DefinitionOk(d, p.catalog.nextId);
    hide PlatformOk;
    NewTimersAre(d.policies, i, t.toId, Some(t.id), now);
    var old' := CompleteTimers(p.timers, i, now);
    var new' := NewTimers(d.policies, i, t.toId, Some(t.id), now);
    assert Advance(p, i, t, e, now).timers == old' + new';
    assert forall x :: x in old' ==> !RunsFor(x, i);
    forall x | x in new' ensures x.startedAt == now <= x.dueAt && (x.warningAt.Some? ==> now <= x.warningAt.value <= x.dueAt) {
      assert MadeBy(x, d.policies, i, t.toId, Some(t.id), now);
    }
  }
}
