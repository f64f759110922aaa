/** The journals of the engine agree: executions and cancellations rebuild the
    current state, events count what happened, timers follow the policies. */
module EngineJournals {
  import opened Wrappers
  import opened JsonScrubber
  import opened WorkflowModel
  import opened Reachability
  import opened DefinitionService
  import opened DefinitionLaws
  import opened WorkflowEngine
  import opened EngineLaws
  import opened EngineRuns
  import opened Sorting

  // -- Replaying the executions ---------------------------------------------

  /** The execution rows of one instance, oldest first. */
  function ExecutionsOf(rows: seq<Execution>, i: nat): seq<Execution> {
    if rows == [] then []
    else
      var rest := ExecutionsOf(rows[..|rows| - 1], i);
      if rows[|rows| - 1].inst == i then rest + [rows[|rows| - 1]] else rest
  }

  /** A cancellation: how many executions the instance had, and where it jumped. */
  datatype Jump = Jump(executions: nat, to: Id)

  predicate CancelsNow(p: Platform, step: PlatformStep, now: Time, i: nat) {
    step.CancelStep? && step.inst == i && Cancel(p, i, step.reason, now).Ok?
  }

  /** The jumps of instance `i` so far, and the one this call makes, if any. */
  ghost function NextJumps(p: Platform, step: PlatformStep, now: Time, i: nat, jumps: seq<Jump>): seq<Jump> {
    if CancelsNow(p, step, now, i) then
      jumps + [Jump(|ExecutionsOf(p.executions, i)|, After(p, step, now).instances[i].current)]
    else jumps
  }

  /** The successful cancellations of instance `i` during a run. */
  ghost function Jumps(p: Platform, t: Time, steps: seq<Timed>, i: nat): seq<Jump> {
    if steps == [] then []
    else
      var init := steps[..|steps| - 1];
      NextJumps(Run(p, t, init), steps[|steps| - 1].step, ClockAt(t, steps), i, Jumps(p, t, init, i))
  }

  /** Replays executions and jumps from `start`.  None when a row does not begin
      where the replay stands. */
  function Replay(rows: seq<Execution>, jumps: seq<Jump>, start: Id): Option<Id>
    decreases |rows| + |jumps|
  {
    if jumps != [] && jumps[|jumps| - 1].executions >= |rows| then
      var before := Replay(rows, jumps[..|jumps| - 1], start);
      if before.Some? then Some(jumps[|jumps| - 1].to) else None
    else if rows == [] then Some(start)
    else
      var before := Replay(rows[..|rows| - 1], jumps, start);
      if before == Some(rows[|rows| - 1].fromId) then Some(rows[|rows| - 1].toId) else None
  }

  /** The instance rows agree with their journals. */
  ghost predicate Journalled(p: Platform, i: nat, jumps: seq<Jump>) {
    && i < |p.instances| && p.instances[i].definition < |p.catalog.defs|
    && InitialOf(p.catalog.defs[p.instances[i].definition]).Some?
    && (forall k :: 0 <= k < |jumps| ==> jumps[k].executions <= |ExecutionsOf(p.executions, i)|)
    && Replay(ExecutionsOf(p.executions, i), jumps, InitialOf(p.catalog.defs[p.instances[i].definition]).value.id)
       == Some(p.instances[i].current)
    && p.instances[i].lockVersion == 1 + |ExecutionsOf(p.executions, i)| + |jumps|
  }

  /** No execution of an instance that does not exist yet. */
  lemma {:induction false} NoneYet(rows: seq<Execution>, n: nat, i: nat)
    requires (forall k :: 0 <= k < |rows| ==> rows[k].inst < n) && i >= n
    ensures ExecutionsOf(rows, i) == []
  {
    if rows != [] {
      NoneYet(rows[..|rows| - 1], n, i);
    }
  }

  lemma MoveJournalled(p: Platform, j: nat, t: Transition, e: Execution, now: Time, i: nat, jumps: seq<Jump>)
    requires Journalled(p, i, jumps) && j < |p.instances| && p.instances[j].definition < |p.catalog.defs|
    requires e.inst == j && e.fromId == p.instances[j].current && e.toId == t.toId
    ensures Journalled(Advance(p, j, t, e, now), i, jumps)
  {
  }

  lemma EditJournalled(p: Platform, edit: CatalogStep, i: nat, jumps: seq<Jump>)
    requires Journalled(p, i, jumps) && InstanceOk(p.instances[i], p.catalog.defs) && ApplyCatalog(p.catalog, edit).Ok?
    ensures Journalled(p.(catalog := ApplyCatalog(p.catalog, edit).value), i, jumps)
  {
    PublishedImmutable(p.catalog, edit, p.instances[i].definition);
    hide ApplyCatalog;
    assert InitialOf(ApplyCatalog(p.catalog, edit).value.defs[p.instances[i].definition])
        == InitialOf(p.catalog.defs[p.instances[i].definition]);
  }

  lemma ExecuteJournalled(p: Platform, q: TransitionRequest, a: Adapter, now: Time, i: nat, jumps: seq<Jump>)
    requires Journalled(p, i, jumps) && Execute(p, q, a, now).Ok?
    ensures Journalled(Execute(p, q, a, now).value.platform, i, jumps)
  {
    hide Journalled, Advance;
    var j, t := ExecuteCase(p, q, a, now);
    if !Execute(p, q, a, now).value.replayed {
      MoveJournalled(p, j, t, ExecutionOf(j, p.instances[j], t, q, Some(a.applied.value)), now, i, jumps);
      RecordsUnjournalled(Advance(p, j, t, ExecutionOf(j, p.instances[j], t, q, Some(a.applied.value)), now),
                          Execute(p, q, a, now).value.platform, i, jumps);
    }
  }

  lemma RecordsUnjournalled(p: Platform, after: Platform, i: nat, jumps: seq<Jump>)
    requires Journalled(p, i, jumps) && after == p.(records := after.records)
    ensures Journalled(after, i, jumps)
  {
  }

  lemma RecordJournalled(p: Platform, q: TransitionRequest, result: Option<Object>, a: Adapter, now: Time, i: nat, jumps: seq<Jump>)
    requires Journalled(p, i, jumps) && RecordExternal(p, q, result, a, now).Ok?
    ensures Journalled(RecordExternal(p, q, result, a, now).value.platform, i, jumps)
  {
    hide Journalled, Advance;
    var j := LookupInstance(p, q.entityType, q.entityId, q.workflowCode, q.instanceKey).value;
    var t := FindTransition(p.catalog.defs[p.instances[j].definition].transitions, q.code).value;
    MoveJournalled(p, j, t, ExecutionOf(j, p.instances[j], t, q, result), now, i, jumps);
  }

  lemma CancelJournalled(p: Platform, j: nat, reason: Option<string>, now: Time, i: nat, jumps: seq<Jump>)
    requires Journalled(p, i, jumps) && Cancel(p, j, reason, now).Ok?
    ensures var after := Cancel(p, j, reason, now).value;
            && |after.instances| == |p.instances|
            && Journalled(after, i, if i == j then jumps + [Jump(|ExecutionsOf(p.executions, i)|, after.instances[i].current)] else jumps)
  {
    if i == j {
      var jump := Jump(|ExecutionsOf(p.executions, i)|, Cancel(p, j, reason, now).value.instances[i].current);
      assert (jumps + [jump])[..|jumps|] == jumps;
    }
  }

  /** What a start adds to the rows. */
  lemma StartRows(p: Platform, q: StartRequest, a: Adapter, now: Time)
    requires Start(p, q, a, now).Ok?
    ensures var after := Start(p, q, a, now).value.platform;
            after != p ==>
              var def := LatestDefinition(p.catalog.defs, q.entityType, q.workflowCode);
              && def.Some? && InitialOf(p.catalog.defs[def.value]).Some? && p.catalog.defs[def.value].isPublished
              && |after.instances| == |p.instances| + 1 && after.instances[..|p.instances|] == p.instances
              && after.instances[|p.instances|].definition == def.value && after.instances[|p.instances|].lockVersion == 1
              && after.instances[|p.instances|].current == InitialOf(p.catalog.defs[def.value]).value.id
              && after.catalog == p.catalog && after.executions == p.executions
  {
  }

  lemma StartJournalled(p: Platform, q: StartRequest, a: Adapter, now: Time, i: nat, jumps: seq<Jump>)
    requires Journalled(p, i, jumps) && Start(p, q, a, now).Ok?
    ensures Journalled(Start(p, q, a, now).value.platform, i, jumps)
  {
  }

  lemma SweepJournalled(p: Platform, now: Time, i: nat, jumps: seq<Jump>)
    requires Journalled(p, i, jumps)
    ensures Journalled(Sweep(p, now), i, jumps)
  {
  }

  /** One call: journals that agree keep agreeing, a new cancellation counted. */
  lemma AfterJournalled(p: Platform, step: PlatformStep, now: Time, i: nat, jumps: seq<Jump>)
    requires PlatformOk(p) && Journalled(p, i, jumps)
    ensures Journalled(After(p, step, now), i, NextJumps(p, step, now, i, jumps))
  {
    hide Extends, InstanceOk, Execute, RecordExternal, Start, Cancel, Sweep, ApplyCatalog, ExecutionsOf,
      CatalogOk, ExecutionsOk, RecordsOk, TimersOk, BreachesOk;
    assert InstanceOk(p.instances[i], p.catalog.defs);
    hide Journalled;
    AfterExtends(p, step, now);
    match step
    case EditCatalog(edit) => if ApplyCatalog(p.catalog, edit).Ok? { EditJournalled(p, edit, i, jumps); }
    case StartStep(q, a) => if Start(p, q, a, now).Ok? { StartJournalled(p, q, a, now, i, jumps); }
    case ExecuteStep(q, a) => if Execute(p, q, a, now).Ok? { ExecuteJournalled(p, q, a, now, i, jumps); }
    case RecordStep(q, result, a) =>
      if RecordExternal(p, q, result, a, now).Ok? { RecordJournalled(p, q, result, a, now, i, jumps); }
    case CancelStep(j, reason) => if Cancel(p, j, reason, now).Ok? { CancelJournalled(p, j, reason, now, i, jumps); }
    case SweepStep => SweepJournalled(p, now, i, jumps);
  }

  lemma CreatedJournalled(p: Platform, q: StartRequest, a: Adapter, now: Time)
    requires ExecutionsOk(p) && Start(p, q, a, now).Ok? && Start(p, q, a, now).value.platform != p
    ensures Journalled(Start(p, q, a, now).value.platform, |p.instances|, [])
  {
    var after := Start(p, q, a, now).value.platform;
    forall k | 0 <= k < |p.executions| ensures p.executions[k].inst < |p.instances| {
      assert ExecutionOk(p.executions[k], p);
    }
    StartRows(p, q, a, now);
    hide ExecutionsOk, Start, LatestDefinition, InitialOf;
    NoneYet(p.executions, |p.instances|, |p.instances|);
  }

  lemma StepJournalled(p: Platform, step: PlatformStep, now: Time, i: nat, jumps: seq<Jump>)
    requires PlatformOk(p) && i < |After(p, step, now).instances|
    requires if i < |p.instances| then Journalled(p, i, jumps) else jumps == []
    ensures Journalled(After(p, step, now), i, NextJumps(p, step, now, i, jumps))
  {
    hide PlatformOk, Journalled, After, ExecutionsOf, CancelsNow, Start;
    if i < |p.instances| {
      AfterJournalled(p, step, now, i, jumps);
    } else {
      OnlyStartCreates(p, step, now);
      PlatformExecutions(p);
      CreatedJournalled(p, step.start, step.adapter, now);
    }
  }

  /** For any catalogue and any run from an empty engine: replaying the execution
      rows and the cancellations of an instance from its initial state succeeds --
      every row begins where the previous one, or a cancellation, ended -- and
      rebuilds the current state; and the lock version is one more than their number. */
  lemma {:induction false} ReplayRebuilds(c: Catalog, t: Time, steps: seq<Timed>, i: nat)
    requires CatalogOk(c) && i < |Run(Genesis(c), t, steps).instances|
    ensures Journalled(Run(Genesis(c), t, steps), i, Jumps(Genesis(c), t, steps, i))
  {
    hide PlatformOk, CatalogOk, Journalled, After, NextJumps;
    if steps != [] {
      var init := steps[..|steps| - 1];
      var mid := Run(Genesis(c), t, init);
      GenesisOk(c);
      RunKeeps(Genesis(c), t, init);
      if i < |mid.instances| {
        ReplayRebuilds(c, t, init, i);
      } else {
        NoJumpsYet(c, t, init, i);
      }
      StepJournalled(mid, steps[|steps| - 1].step, ClockAt(t, steps), i, Jumps(Genesis(c), t, init, i));
    }
  }

  lemma PlatformExecutions(p: Platform)
    requires PlatformOk(p)
    ensures ExecutionsOk(p)
  {
  }

  lemma OnlyStartCreates(p: Platform, step: PlatformStep, now: Time)
    requires |After(p, step, now).instances| > |p.instances|
    ensures step.StartStep? && Start(p, step.start, step.adapter, now).Ok?
    ensures After(p, step, now) == Start(p, step.start, step.adapter, now).value.platform
    ensures |After(p, step, now).instances| == |p.instances| + 1
    ensures forall i :: !CancelsNow(p, step, now, i)
  {
  }

  lemma {:induction false} NoJumpsYet(c: Catalog, t: Time, steps: seq<Timed>, i: nat)
    requires i >= |Run(Genesis(c), t, steps).instances|
    ensures Jumps(Genesis(c), t, steps, i) == []
  {
    if steps != [] {
      var init := steps[..|steps| - 1];
      AfterExtends(Run(Genesis(c), t, init), steps[|steps| - 1].step, ClockAt(t, steps));
      NoJumpsYet(c, t, init, i);
    }
  }

  // -- Where an instance can be ---------------------------------------------

  ghost predicate InReachedState(p: Platform, i: nat) {
    && i < |p.instances| && p.instances[i].definition < |p.catalog.defs|
    && Reached(p.catalog.defs[p.instances[i].definition], p.instances[i].current)
  }

  /** Whatever happened before, a transition starts and ends in the set that the
      publish check computed; only a cancellation can leave it. */
  lemma TransitionEndsReached(p: Platform, q: TransitionRequest, a: Adapter, now: Time) returns (i: nat)
    requires PlatformOk(p) && Execute(p, q, a, now).Ok? && !Execute(p, q, a, now).value.replayed
    ensures LookupInstance(p, q.entityType, q.entityId, q.workflowCode, q.instanceKey) == Some(i)
    ensures InReachedState(p, i) && InReachedState(Execute(p, q, a, now).value.platform, i)
  {
    hide PlatformOk, Execute, Reached;
    var t;
    i, t := ExecuteCase(p, q, a, now);
    FoundTransition(p, i, q.code);
  }

  /** So does a transition recorded after the fact. */
  lemma RecordEndsReached(p: Platform, q: TransitionRequest, result: Option<Object>, a: Adapter, now: Time) returns (i: nat)
    requires PlatformOk(p) && RecordExternal(p, q, result, a, now).Ok?
    ensures LookupInstance(p, q.entityType, q.entityId, q.workflowCode, q.instanceKey) == Some(i)
    ensures InReachedState(p, i) && InReachedState(RecordExternal(p, q, result, a, now).value.platform, i)
  {
    hide PlatformOk, Reached;
    i := LookupInstance(p, q.entityType, q.entityId, q.workflowCode, q.instanceKey).value;
    FoundTransition(p, i, q.code);
  }

  lemma EditReached(p: Platform, edit: CatalogStep, i: nat)
    requires InReachedState(p, i) && InstanceOk(p.instances[i], p.catalog.defs) && ApplyCatalog(p.catalog, edit).Ok?
    ensures InReachedState(p.(catalog := ApplyCatalog(p.catalog, edit).value), i)
  {
    PublishedImmutable(p.catalog, edit, p.instances[i].definition);
    hide ApplyCatalog;
  }

  lemma ExecuteReached(p: Platform, q: TransitionRequest, a: Adapter, now: Time, i: nat)
    requires PlatformOk(p) && InReachedState(p, i) && Execute(p, q, a, now).Ok?
    ensures InReachedState(Execute(p, q, a, now).value.platform, i)
  {
    hide Execute, PlatformOk, Reached;
    var j, t := ExecuteCase(p, q, a, now);
    FoundTransition(p, j, q.code);
  }

  lemma RecordReached(p: Platform, q: TransitionRequest, result: Option<Object>, a: Adapter, now: Time, i: nat)
    requires PlatformOk(p) && InReachedState(p, i) && RecordExternal(p, q, result, a, now).Ok?
    ensures InReachedState(RecordExternal(p, q, result, a, now).value.platform, i)
  {
    hide PlatformOk, Reached;
    FoundTransition(p, LookupInstance(p, q.entityType, q.entityId, q.workflowCode, q.instanceKey).value, q.code);
  }

  lemma StartReached(p: Platform, q: StartRequest, a: Adapter, now: Time, i: nat)
    requires InReachedState(p, i) && Start(p, q, a, now).Ok?
    ensures InReachedState(Start(p, q, a, now).value.platform, i)
  {
  }

  lemma CancelReached(p: Platform, j: nat, reason: Option<string>, now: Time, i: nat)
    requires InReachedState(p, i) && Cancel(p, j, reason, now).Ok? && i != j
    ensures InReachedState(Cancel(p, j, reason, now).value, i)
  {
  }

  lemma SweepReached(p: Platform, now: Time, i: nat)
    requires InReachedState(p, i)
    ensures InReachedState(Sweep(p, now), i)
  {
  }

  lemma AfterReached(p: Platform, step: PlatformStep, now: Time, i: nat)
    requires PlatformOk(p) && InReachedState(p, i) && !CancelsNow(p, step, now, i)
    ensures InReachedState(After(p, step, now), i)
  {
    hide CatalogOk, ExecutionsOk, RecordsOk, TimersOk, BreachesOk, InstanceOk, Reached, Execute, RecordExternal, ApplyCatalog, Start,
      Cancel, Sweep;
    assert InstanceOk(p.instances[i], p.catalog.defs);
    hide PlatformOk, InReachedState;
    match step
    case EditCatalog(edit) => if ApplyCatalog(p.catalog, edit).Ok? { EditReached(p, edit, i); }
    case StartStep(q, a) => if Start(p, q, a, now).Ok? { StartReached(p, q, a, now, i); }
    case ExecuteStep(q, a) => if Execute(p, q, a, now).Ok? { ExecuteReached(p, q, a, now, i); }
    case RecordStep(q, result, a) => if RecordExternal(p, q, result, a, now).Ok? { RecordReached(p, q, result, a, now, i); }
    case CancelStep(j, reason) => if Cancel(p, j, reason, now).Ok? { CancelReached(p, j, reason, now, i); }
    case SweepStep => SweepReached(p, now, i);
  }

  lemma CreatedReached(p: Platform, q: StartRequest, a: Adapter, now: Time)
    requires PlatformOk(p) && Start(p, q, a, now).Ok? && Start(p, q, a, now).value.platform != p
    ensures InReachedState(Start(p, q, a, now).value.platform, |p.instances|)
  {
    var def := LatestDefinition(p.catalog.defs, q.entityType, q.workflowCode).value;
    assert DefinitionOk(p.catalog.defs[def], p.catalog.nextId);
    StartRows(p, q, a, now);
    hide PlatformOk, Start, LatestDefinition, InitialOf, Reached, Apart;
    StartStateReached(p.catalog.defs[def]);
  }

  lemma StepReached(p: Platform, step: PlatformStep, now: Time, i: nat)
    requires PlatformOk(p) && i < |After(p, step, now).instances| && !CancelsNow(p, step, now, i)
    requires i < |p.instances| ==> InReachedState(p, i)
    ensures InReachedState(After(p, step, now), i)
  {
    hide PlatformOk, InReachedState, After, CancelsNow, Start;
    if i < |p.instances| {
      AfterReached(p, step, now, i);
    } else {
      OnlyStartCreates(p, step, now);
      CreatedReached(p, step.start, step.adapter, now);
    }
  }

  /** An instance never cancelled stays in the states joined to the initial one by
      active transitions, through every later edit, publication and call. */
  lemma {:induction false} UncancelledStaysReached(c: Catalog, t: Time, steps: seq<Timed>, i: nat)
    requires CatalogOk(c) && i < |Run(Genesis(c), t, steps).instances| && Jumps(Genesis(c), t, steps, i) == []
    ensures InReachedState(Run(Genesis(c), t, steps), i)
  {
    hide PlatformOk, CatalogOk, InReachedState, After, CancelsNow;
    if steps != [] {
      var init := steps[..|steps| - 1];
      GenesisOk(c);
      RunKeeps(Genesis(c), t, init);
      if i < |Run(Genesis(c), t, init).instances| {
        UncancelledStaysReached(c, t, init, i);
      }
      StepReached(Run(Genesis(c), t, init), steps[|steps| - 1].step, ClockAt(t, steps), i);
    }
  }

  /** In a sound definition the reached states are exactly the active ones. */
  lemma ReachedIsActive(d: Definition, x: Id)
    requires Sound(d)
    ensures Reached(d, x) <==> x in ActiveStateIds(d.states)
  {
  }

  /** A cancellation leaves the reached states exactly when the cancelled state it
      picks is switched off: `cancel_workflow` does not ask whether it is active. */
  lemma CancelLeavesReachedIff(p: Platform, i: nat, reason: Option<string>, now: Time)
    requires PlatformOk(p) && Cancel(p, i, reason, now).Ok?
    ensures InReachedState(Cancel(p, i, reason, now).value, i)
            <==> CancelledStateOf(p.catalog.defs[p.instances[i].definition]).value.isActive
  {
    var d := p.catalog.defs[p.instances[i].definition];
    var to := CancelledStateOf(d).value;
    assert InstanceOk(p.instances[i], p.catalog.defs);
    assert DefinitionOk(d, p.catalog.nextId);
    hide PlatformOk, Reached, Sound;
    ReachedIsActive(d, to.id);
    ActiveById(d.states, to);
    hide DefinitionOk, FindState;
  }

  /** Ids are unique, so an active id belongs to an active row. */
  lemma ActiveById(states: seq<State>, s: State)
    requires Apart(states, StatesDiffer) && s in states
    ensures s.id in ActiveStateIds(states) <==> s.isActive
  {
  }

  /** A published definition whose cancelled state was switched off while a draft. */
  const SwitchedOff := Definition(
    "D", "D", "E", 1, true, true,
    [State(0, "A", "A", InitialState, 0, true, false, true), State(1, "B", "B", CancelledState, 0, false, true, false)], [], [])

  lemma SwitchedOffOk()
    ensures CatalogOk(Catalog([SwitchedOff], 2))
  {
    var d := SwitchedOff;
    var defs := [d];
    assert defs[..0] == [] && VersionsOf([], "D") == [];
    forall code ensures VersionsOf(defs, code) == OneTo(|VersionsOf(defs, code)|) {
      assert VersionsOf(defs[..0], code) == [];
    }
    assert SoleInitial(d.states, d.states[0]);
    ConnectedSelf(0, d.transitions);
    assert d.states[0].id == 0;
  }

  /** The failing side is real: on that catalogue a start and a cancellation leave the
      instance outside the states the publish check vouched for. */
  lemma CancelLeavesReached(a: Adapter, t: Time)
    requires a.registered && a.entityError.None? && a.startError.None?
    ensures CatalogOk(Catalog([SwitchedOff], 2))
    ensures var steps := [Timed(0, StartStep(StartRequest("E", 7, None, "default"), a)), Timed(0, CancelStep(0, None))];
            var p := Run(Genesis(Catalog([SwitchedOff], 2)), t, steps);
            |p.instances| == 1 && p.instances[0].cancelledAt == Some(t) && !InReachedState(p, 0)
  {
    hide Run, PlatformOk, CatalogOk, Start, Cancel, InReachedState, CancelledStateOf, Execute, RecordExternal, ApplyCatalog, Sweep;
    SwitchedOffOk();
    var g := Genesis(Catalog([SwitchedOff], 2));
    var q := StartRequest("E", 7, None, "default");
    GenesisOk(g.catalog);
    var started := StartOfSwitchedOff(g, q, a, t);
    StartKeeps(g, q, a, t);
    RunOfTwo(g, StartStep(q, a), CancelStep(0, None), t);
    CancelLeavesReachedIff(started, 0, None, t);
  }

  lemma RunOfTwo(p: Platform, first: PlatformStep, second: PlatformStep, t: Time)
    ensures Run(p, t, [Timed(0, first), Timed(0, second)]) == After(After(p, first, t), second, t)
  {
    hide After;
    var steps := [Timed(0, first), Timed(0, second)];
    assert steps[..1] == [Timed(0, first)] && steps[..1][..0] == [];
    assert ClockAt(t, steps[..1]) == t && Run(p, t, steps[..1]) == After(p, first, t);
  }

  lemma StartOfSwitchedOff(g: Platform, q: StartRequest, a: Adapter, t: Time) returns (p: Platform)
    requires g == Genesis(Catalog([SwitchedOff], 2)) && q == StartRequest("E", 7, None, "default")
    requires a.registered && a.entityError.None? && a.startError.None?
    ensures Start(g, q, a, t).Ok? && p == Start(g, q, a, t).value.platform
    ensures p.catalog == g.catalog && |p.instances| == 1 && p.instances[0].definition == 0 && p.instances[0].current == 0
    ensures CancelledStateOf(SwitchedOff) == Some(SwitchedOff.states[1]) && Cancel(p, 0, None, t).Ok?
    ensures |Cancel(p, 0, None, t).value.instances| == 1 && Cancel(p, 0, None, t).value.instances[0].cancelledAt == Some(t)
  {
    var d := SwitchedOff;
    assert [d][..0] == [];
    assert Offers(d, "E", None);
    p := Start(g, q, a, t).value.platform;
  }
}
