/** Laws of whole runs of the platform: definition edits, starts, transitions,
    external records, cancellations and SLA sweeps in any order, refused or not. */
module EngineRuns {
  import opened Wrappers
  import opened JsonScrubber
  import opened WorkflowModel
  import opened Reachability
  import opened DefinitionService
  import opened DefinitionLaws
  import opened WorkflowEngine
  import opened EngineLaws
  import opened Sorting

  datatype PlatformStep =
    | EditCatalog(edit: CatalogStep)
    | StartStep(start: StartRequest, adapter: Adapter)
    | ExecuteStep(request: TransitionRequest, adapter: Adapter)
    | RecordStep(request: TransitionRequest, result: Option<Object>, adapter: Adapter)
    | CancelStep(inst: nat, reason: Option<string>)
    | SweepStep

  /** A call made some time after the previous one. */
  datatype Timed = Timed(elapsed: nat, step: PlatformStep)

  /** The rows after one call; an error leaves them as they were. */
  ghost function After(p: Platform, step: PlatformStep, now: Time): Platform {
    match step
    case EditCatalog(edit) =>
      var r := ApplyCatalog(p.catalog, edit);
      if r.Ok? then p.(catalog := r.value) else p
    case StartStep(q, a) => if Start(p, q, a, now).Ok? then Start(p, q, a, now).value.platform else p
    case ExecuteStep(q, a) => if Execute(p, q, a, now).Ok? then Execute(p, q, a, now).value.platform else p
    case RecordStep(q, result, a) =>
      if RecordExternal(p, q, result, a, now).Ok? then RecordExternal(p, q, result, a, now).value.platform else p
    case CancelStep(i, reason) => if Cancel(p, i, reason, now).Ok? then Cancel(p, i, reason, now).value else p
    case SweepStep => Sweep(p, now)
  }

  function ClockAt(t: Time, steps: seq<Timed>): Time {
    if steps == [] then t else ClockAt(t, steps[..|steps| - 1]) + steps[|steps| - 1].elapsed
  }

  ghost function Run(p: Platform, t: Time, steps: seq<Timed>): Platform {
    if steps == [] then p
    else After(Run(p, t, steps[..|steps| - 1]), steps[|steps| - 1].step, ClockAt(t, steps))
  }

  function Genesis(c: Catalog): Platform {
    Platform(c, [], [], [], [], [])
  }

  // -- The invariant holds in every reachable state -------------------------

  lemma AfterKeeps(p: Platform, step: PlatformStep, now: Time)
    requires PlatformOk(p)
    ensures PlatformOk(After(p, step, now))
  {
    hide PlatformOk;
    match step
    case EditCatalog(edit) => if ApplyCatalog(p.catalog, edit).Ok? { CatalogKeepsPlatform(p, edit); }
    case StartStep(q, a) => if Start(p, q, a, now).Ok? { StartKeeps(p, q, a, now); }
    case ExecuteStep(q, a) => if Execute(p, q, a, now).Ok? { ExecuteKeeps(p, q, a, now); }
    case RecordStep(q, result, a) => if RecordExternal(p, q, result, a, now).Ok? { RecordExternalKeeps(p, q, result, a, now); }
    case CancelStep(i, reason) => if Cancel(p, i, reason, now).Ok? { CancelKeeps(p, i, reason, now); }
    case SweepStep => SweepKeeps(p, now);
  }

  lemma {:induction false} RunKeeps(p: Platform, t: Time, steps: seq<Timed>)
    requires PlatformOk(p)
    ensures PlatformOk(Run(p, t, steps))
  {
    hide PlatformOk, After;
    if steps != [] {
      RunKeeps(p, t, steps[..|steps| - 1]);
      AfterKeeps(Run(p, t, steps[..|steps| - 1]), steps[|steps| - 1].step, ClockAt(t, steps));
    }
  }

  lemma GenesisOk(c: Catalog)
    requires CatalogOk(c)
    ensures PlatformOk(Genesis(c))
  {
  }

  // -- Nothing is ever taken back -------------------------------------------

  predicate SameTimer(a: Timer, b: Timer) {
    b == a.(status := b.status, completedAt := b.completedAt, breachedAt := b.breachedAt)
  }

  /** Everything of `p` that no call may take back. */
  ghost predicate Extends(p: Platform, p2: Platform) {
    && p.executions <= p2.executions && p.records <= p2.records && p.outbox <= p2.outbox
    && |p.instances| <= |p2.instances| && |p.timers| <= |p2.timers| && |p.catalog.defs| <= |p2.catalog.defs|
    && (forall i :: 0 <= i < |p.instances| ==> SameRowKey(p.instances[i], p2.instances[i])
                                               && p.instances[i].lockVersion <= p2.instances[i].lockVersion)
    && (forall k :: 0 <= k < |p.timers| ==> SameTimer(p.timers[k], p2.timers[k])
                                            && (p.timers[k].status != Running ==> p2.timers[k] == p.timers[k]))
    && (forall i :: 0 <= i < |p.catalog.defs| && p.catalog.defs[i].isPublished ==>
          SameContents(p.catalog.defs[i], p2.catalog.defs[i]))
  }

  lemma ExtendsTransitive(p: Platform, q: Platform, r: Platform)
    requires Extends(p, q) && Extends(q, r)
    ensures Extends(p, r)
  {
  }

  lemma EditExtends(p: Platform, edit: CatalogStep)
    requires ApplyCatalog(p.catalog, edit).Ok?
    ensures Extends(p, p.(catalog := ApplyCatalog(p.catalog, edit).value))
  {
    var after := ApplyCatalog(p.catalog, edit).value;
    assert |p.catalog.defs| <= |after.defs|;
    forall i | 0 <= i < |p.catalog.defs| && p.catalog.defs[i].isPublished ensures SameContents(p.catalog.defs[i], after.defs[i]) {
      PublishedImmutable(p.catalog, edit, i);
    }
  }

  lemma AdvanceExtends(p: Platform, i: nat, t: Transition, e: Execution, now: Time)
    requires i < |p.instances| && p.instances[i].definition < |p.catalog.defs|
    ensures Extends(p, Advance(p, i, t, e, now))
  {
  }

  lemma ExtendsSelf(p: Platform)
    ensures Extends(p, p)
  {
  }

  lemma StartExtends(p: Platform, q: StartRequest, a: Adapter, now: Time)
    ensures Start(p, q, a, now).Ok? ==> Extends(p, Start(p, q, a, now).value.platform)
  {
  }

  lemma CancelExtends(p: Platform, i: nat, reason: Option<string>, now: Time)
    ensures Cancel(p, i, reason, now).Ok? ==> Extends(p, Cancel(p, i, reason, now).value)
  {
  }

  lemma SweepExtends(p: Platform, now: Time)
    ensures Extends(p, Sweep(p, now))
  {
  }

  lemma AfterExtends(p: Platform, step: PlatformStep, now: Time)
    ensures Extends(p, After(p, step, now))
  {
    hide Extends, Execute, Start, Cancel, Sweep, Advance, ApplyCatalog;
    ExtendsSelf(p);
    match step
    case EditCatalog(edit) => if ApplyCatalog(p.catalog, edit).Ok? { EditExtends(p, edit); }
    case StartStep(q, a) => StartExtends(p, q, a, now);
    case ExecuteStep(q, a) =>
      if Execute(p, q, a, now).Ok? { ExecuteExtends(p, q, a, now); }
    case RecordStep(q, result, a) =>
      if RecordExternal(p, q, result, a, now).Ok? {
        var i := LookupInstance(p, q.entityType, q.entityId, q.workflowCode, q.instanceKey).value;
        var t := FindTransition(p.catalog.defs[p.instances[i].definition].transitions, q.code).value;
        AdvanceExtends(p, i, t, ExecutionOf(i, p.instances[i], t, q, result), now);
      }
    case CancelStep(i, reason) => CancelExtends(p, i, reason, now);
    case SweepStep => SweepExtends(p, now);
  }

  lemma ExecuteExtends(p: Platform, q: TransitionRequest, a: Adapter, now: Time)
    requires Execute(p, q, a, now).Ok?
    ensures Extends(p, Execute(p, q, a, now).value.platform)
  {
    var i, t := ExecuteCase(p, q, a, now);
    if !Execute(p, q, a, now).value.replayed {
      AdvanceExtends(p, i, t, ExecutionOf(i, p.instances[i], t, q, Some(a.applied.value)), now);
    }
  }

  /** Over any run: executions, records and events are only appended, lock versions
      never go back, settled timers and published definitions never change. */
  lemma {:induction false} RunExtends(p: Platform, t: Time, steps: seq<Timed>)
    ensures Extends(p, Run(p, t, steps))
  {
    hide After;
    if steps != [] {
      var mid := Run(p, t, steps[..|steps| - 1]);
      RunExtends(p, t, steps[..|steps| - 1]);
      AfterExtends(mid, steps[|steps| - 1].step, ClockAt(t, steps));
      ExtendsTransitive(p, mid, Run(p, t, steps));
    }
  }

  // -- Idempotency and optimistic locking -----------------------------------

  /** After a keyed call succeeds, its record is the one a later lookup finds. */
  lemma KeyedCallRecorded(p: Platform, q: TransitionRequest, a: Adapter, now: Time, i: nat, t: Transition) returns (k: nat)
    requires Execute(p, q, a, now).Ok? && Given(q.key)
    requires LookupInstance(p, q.entityType, q.entityId, q.workflowCode, q.instanceKey) == Some(i)
    requires i < |p.instances| && p.instances[i].definition < |p.catalog.defs|
    requires FindTransition(p.catalog.defs[p.instances[i].definition].transitions, q.code) == Some(t)
    ensures var d := Execute(p, q, a, now).value;
            && FindRecord(d.platform.records, q.key.value, i, t.id) == Some(k) && k < |d.platform.records|
            && d.platform.records[k].fingerprint == FingerprintOf(q) && d.platform.records[k].execution == d.execution
  {
    var j, u := ExecuteCase(p, q, a, now);
    var d := Execute(p, q, a, now).value;
    if d.replayed {
      k := FindRecord(p.records, q.key.value, i, t.id).value;
    } else {
      k := |p.records|;
      var r := Record(q.key.value, i, t.id, FingerprintOf(q), |p.executions|);
      assert d.platform.records == p.records + [r];
      RecordAppended(p.records, r);
    }
  }

  lemma RecordAppended(records: seq<Record>, r: Record)
    requires FindRecord(records, r.key, r.inst, r.transition).None?
    ensures FindRecord(records + [r], r.key, r.inst, r.transition) == Some(|records|)
  {
    var more := records + [r];
    assert more[|records|] == r;
    assert forall j :: 0 <= j < |records| ==> more[j] == records[j];
  }

  lemma RecordStaysFirst(records: seq<Record>, more: seq<Record>, key: string, inst: nat, transition: Id)
    requires records <= more && FindRecord(records, key, inst, transition).Some?
    ensures FindRecord(more, key, inst, transition) == FindRecord(records, key, inst, transition)
  {
  }

  /** What a call under a used key and code answers, naming no version: if comment, reason
      and scrubbed input are those of the first call and that named none either, the first
      execution, and nothing changes; otherwise a conflict. */
  function RetryResult(first: TransitionRequest, execution: nat, p2: Platform, q2: TransitionRequest): Result<Done> {
    if first.lockVersion.None? && q2.comment == first.comment && q2.reason == first.reason && SafeJson(q2.input) == SafeJson(first.input)
    then Ok(Done(p2, execution, true)) else Err(Conflict)
  }

  /** After a keyed call succeeded, in every later state of the tables, however far the
      instance has moved: a call under the same key and code that resolves to the same
      instance and names no version replays the first execution exactly when comment,
      reason and scrubbed input are the same, and is a conflict otherwise. */
  lemma RetryFindsFirst(p: Platform, q: TransitionRequest, a: Adapter, now: Time, p2: Platform,
                        q2: TransitionRequest, a2: Adapter, now2: Time)
    requires PlatformOk(p) && Execute(p, q, a, now).Ok? && Given(q.key) && q2.lockVersion.None?
    requires Extends(Execute(p, q, a, now).value.platform, p2)
    requires q2.key == q.key && q2.code == q.code
    requires a2.registered && a2.entityError.None?
    requires LookupInstance(p2, q2.entityType, q2.entityId, q2.workflowCode, q2.instanceKey)
          == LookupInstance(p, q.entityType, q.entityId, q.workflowCode, q.instanceKey)
    ensures Execute(p2, q2, a2, now2) == RetryResult(q, Execute(p, q, a, now).value.execution, p2, q2)
  {
    var i, t := ExecuteCase(p, q, a, now);
    var k := KeyedCallRecorded(p, q, a, now, i, t);
    StillResolves(p, q, a, now, p2, i, t, k);
    hide PlatformOk, Extends, SafeJson, LookupInstance, FindTransition, FindRecord, Perform;
  }

  /** So after any run of the engine. */
  lemma RetryReturnsFirst(p: Platform, q: TransitionRequest, a: Adapter, now: Time, steps: seq<Timed>,
                          q2: TransitionRequest, a2: Adapter, now2: Time)
    requires PlatformOk(p) && Execute(p, q, a, now).Ok? && Given(q.key) && q2.lockVersion.None?
    requires q2.key == q.key && q2.code == q.code
    requires a2.registered && a2.entityError.None?
    requires var p2 := Run(Execute(p, q, a, now).value.platform, now, steps);
             LookupInstance(p2, q2.entityType, q2.entityId, q2.workflowCode, q2.instanceKey)
             == LookupInstance(p, q.entityType, q.entityId, q.workflowCode, q.instanceKey)
    ensures var d := Execute(p, q, a, now).value;
            var p2 := Run(d.platform, now, steps);
            Execute(p2, q2, a2, now2) == RetryResult(q, d.execution, p2, q2)
  {
    hide After, PlatformOk, Execute, Extends;
    RunExtends(Execute(p, q, a, now).value.platform, now, steps);
    RetryFindsFirst(p, q, a, now, Run(Execute(p, q, a, now).value.platform, now, steps), q2, a2, now2);
  }

  /** What a later call needs: the same transition and the same record. */
  lemma StillResolves(p: Platform, q: TransitionRequest, a: Adapter, now: Time, p2: Platform, i: nat, t: Transition, k: nat)
    requires PlatformOk(p) && Execute(p, q, a, now).Ok? && Given(q.key)
    requires Extends(Execute(p, q, a, now).value.platform, p2)
    requires i < |p.instances| && p.instances[i].definition < |p.catalog.defs|
    requires FindTransition(p.catalog.defs[p.instances[i].definition].transitions, q.code) == Some(t)
    requires var d := Execute(p, q, a, now).value;
             FindRecord(d.platform.records, q.key.value, i, t.id) == Some(k) && k < |d.platform.records|
    ensures var d := Execute(p, q, a, now).value;
            && i < |p2.instances| && p2.instances[i].definition < |p2.catalog.defs|
            && FindTransition(p2.catalog.defs[p2.instances[i].definition].transitions, q.code) == Some(t)
            && FindRecord(p2.records, q.key.value, i, t.id) == Some(k) && k < |p2.records|
            && p2.records[k] == d.platform.records[k] && p2.records[k].execution < |p2.executions|
  {
    var d := Execute(p, q, a, now).value;
    assert InstanceOk(p.instances[i], p.catalog.defs);
    ExecuteKeeps(p, q, a, now);
    assert RecordOk(d.platform.records[k], d.platform);
    hide PlatformOk, Execute;
    ExecuteExtends(p, q, a, now);
    ExtendsTransitive(p, d.platform, p2);
    RecordStaysFirst(d.platform.records, p2.records, q.key.value, i, t.id);
    assert SameRowKey(p.instances[i], p2.instances[i]);
  }

  /** A request that carries a lock version never reaches the replay branch. */
  lemma VersionedNeverReplays(p: Platform, q: TransitionRequest, a: Adapter, now: Time)
    requires PlatformOk(p) && Execute(p, q, a, now).Ok? && q.lockVersion.Some?
    ensures !Execute(p, q, a, now).value.replayed
  {
    forall k | 0 <= k < |p.records| && p.records[k].fingerprint.lockVersion.Some?
      ensures p.records[k].fingerprint.lockVersion.value < p.instances[p.records[k].inst].lockVersion
    {
      assert RecordOk(p.records[k], p);
    }
    hide PlatformOk;
    var i, t := ExecuteCase(p, q, a, now);
  }

  /** At most one call ever succeeds per instance and lock version: after one has,
      every later call that resolves to the instance with that version is refused
      as stale, in every later state of the tables. */
  lemma VersionSpent(p: Platform, q: TransitionRequest, a: Adapter, now: Time, p2: Platform,
                     q2: TransitionRequest, a2: Adapter, now2: Time)
    requires PlatformOk(p) && Execute(p, q, a, now).Ok? && q.lockVersion.Some? && q2.lockVersion == q.lockVersion
    requires Extends(Execute(p, q, a, now).value.platform, p2) && a2.registered && a2.entityError.None?
    requires LookupInstance(p2, q2.entityType, q2.entityId, q2.workflowCode, q2.instanceKey)
          == LookupInstance(p, q.entityType, q.entityId, q.workflowCode, q.instanceKey)
    ensures Execute(p2, q2, a2, now2) == Err(Conflict)
  {
    VersionedNeverReplays(p, q, a, now);
    var i, t := ExecuteCase(p, q, a, now);
    var d := Execute(p, q, a, now).value;
    assert d.platform.instances[i].lockVersion == p.instances[i].lockVersion + 1;
  }

  /** So after any run of the engine. */
  lemma OneSuccessPerVersion(p: Platform, q: TransitionRequest, a: Adapter, now: Time, steps: seq<Timed>,
                             q2: TransitionRequest, a2: Adapter, now2: Time)
    requires PlatformOk(p) && Execute(p, q, a, now).Ok? && q.lockVersion.Some? && q2.lockVersion == q.lockVersion
    requires a2.registered && a2.entityError.None?
    requires var p2 := Run(Execute(p, q, a, now).value.platform, now, steps);
             LookupInstance(p2, q2.entityType, q2.entityId, q2.workflowCode, q2.instanceKey)
             == LookupInstance(p, q.entityType, q.entityId, q.workflowCode, q.instanceKey)
    ensures Execute(Run(Execute(p, q, a, now).value.platform, now, steps), q2, a2, now2) == Err(Conflict)
  {
    hide After, PlatformOk, Execute, Extends;
    RunExtends(Execute(p, q, a, now).value.platform, now, steps);
    VersionSpent(p, q, a, now, Run(Execute(p, q, a, now).value.platform, now, steps), q2, a2, now2);
  }

  /** In every reachable state there is at most one record per key, instance and
      transition, and it names an execution of that instance and transition; so the
      unique constraint behind the lookup is never hit. */
  lemma RecordsUnique(c: Catalog, t: Time, steps: seq<Timed>, j: nat, k: nat)
    requires CatalogOk(c)
    requires var p := Run(Genesis(c), t, steps); j < |p.records| && k < |p.records| && SameSlot(p.records[j], p.records[k])
    ensures var p := Run(Genesis(c), t, steps);
            && j == k && p.records[j].execution < |p.executions|
            && p.executions[p.records[j].execution].inst == p.records[j].inst
            && p.executions[p.records[j].execution].transition == p.records[j].transition
  {
    var p := Run(Genesis(c), t, steps);
    GenesisOk(c);
    RunKeeps(Genesis(c), t, steps);
    assert RecordOk(p.records[j], p);
    assert SameSlot(p.records[k], p.records[j]);
  }
}
