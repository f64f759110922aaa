/** The laws of the engine's journals over runs that mix request calls, which create
    and force instances beside the engine, with generic calls, edits and sweeps. */
module RequestJournals {
  import opened Wrappers
  import opened JsonScrubber
  import opened WorkflowModel
  import opened WorkflowEngine
  import opened EngineLaws
  import opened EngineRuns
  import opened EngineCounts
  import opened EngineScrubbing
  import opened ContractorRequests
  import opened RequestBridge
  import opened BridgeLaws
  import opened RequestRuns
  import Service = RequestService

  // -- Instances that were started ------------------------------------------

  /** The instances of other entity types; contractor requests are never started. */
  function Native(instances: seq<Instance>): nat {
    if instances == [] then 0
    else Native(instances[..|instances| - 1]) + (if instances[|instances| - 1].entityType == ENTITY_TYPE then 0 else 1)
  }

  lemma {:induction false} NativeKept(a: seq<Instance>, b: seq<Instance>)
    requires |a| <= |b| && forall i :: 0 <= i < |a| ==> b[i].entityType == a[i].entityType
    requires forall i :: |a| <= i < |b| ==> b[i].entityType == ENTITY_TYPE
    ensures Native(b) == Native(a)
    decreases |a| + |b|
  {
    if |b| > |a| {
      NativeKept(a, b[..|b| - 1]);
    } else if b != [] {
      NativeKept(a[..|a| - 1], b[..|b| - 1]);
    }
  }

  lemma {:induction false} NativeGrown(a: seq<Instance>, b: seq<Instance>)
    requires |a| <= |b| && forall i :: 0 <= i < |a| ==> b[i].entityType == a[i].entityType
    requires forall i :: |a| <= i < |b| ==> b[i].entityType != ENTITY_TYPE
    ensures Native(b) == Native(a) + |b| - |a|
    decreases |a| + |b|
  {
    if |b| > |a| {
      NativeGrown(a, b[..|b| - 1]);
    } else if b != [] {
      NativeGrown(a[..|a| - 1], b[..|b| - 1]);
    }
  }

  // -- What a request call carries on ---------------------------------------

  /** Nothing is taken back, nothing sensitive is stored, the outbox stays in balance,
      and nothing is started or cancelled. */
  ghost predicate Carries(p: Platform, p2: Platform) {
    && Extends(p, p2) && (AllScrubbed(p) ==> AllScrubbed(p2)) && Native(p2.instances) == Native(p.instances)
    && forall started: nat, cancels: nat :: Balanced(p, started, cancels) ==> Balanced(p2, started, cancels)
  }

  lemma CarriesSelf(p: Platform)
    ensures Carries(p, p)
  {
    hide AllScrubbed, Balanced, Native;
  }

  lemma CarriesOn(p: Platform, q: Platform, r: Platform)
    requires Carries(p, q) && Carries(q, r)
    ensures Carries(p, r)
  {
    hide Extends, AllScrubbed, Balanced, Native;
    ExtendsTransitive(p, q, r);
  }

  /** Instances changed in place or added for contractor requests, no other table. */
  lemma RowsCarry(p: Platform, p2: Platform)
    requires p2 == p.(instances := p2.instances) && |p.instances| <= |p2.instances|
    requires forall i :: 0 <= i < |p.instances| ==>
               SameRowKey(p.instances[i], p2.instances[i]) && p.instances[i].lockVersion <= p2.instances[i].lockVersion
    requires forall i :: |p.instances| <= i < |p2.instances| ==> p2.instances[i].entityType == ENTITY_TYPE
    ensures Carries(p, p2)
  {
    NativeKept(p.instances, p2.instances);
    hide Native, CountKind, CountBreached, Scrubbed;
  }

  lemma EnsureCarries(p: Platform, r: Request)
    ensures Ensure(p, r).Ok? ==> Carries(p, Ensure(p, r).value.0) && DefinitionV1(p.catalog.defs).Some?
  {
    hide StateForStatus, DefinitionV1, Row, Carries;
    if Ensure(p, r).Ok? {
      RowsCarry(p, Ensure(p, r).value.0);
    }
  }

  lemma SyncCarries(p: Platform, r: Request, touchedAt: Time)
    ensures Sync(p, r, touchedAt).Ok? ==> Carries(p, Sync(p, r, touchedAt).value)
  {
    hide Ensure, StateForStatus, Carries;
    EnsureCarries(p, r);
    if Sync(p, r, touchedAt).Ok? {
      var q := Ensure(p, r).value.0;
      RowsCarry(q, Sync(p, r, touchedAt).value);
      CarriesOn(p, q, Sync(p, r, touchedAt).value);
    }
  }

  lemma ExecuteCarries(p: Platform, q: TransitionRequest, a: Adapter, now: Time)
    ensures Execute(p, q, a, now).Ok? ==> Carries(p, Execute(p, q, a, now).value.platform)
  {
    if Execute(p, q, a, now).Ok? {
      hide Execute, AllScrubbed, Balanced, Moves, CountBreached, Native;
      var p2 := Execute(p, q, a, now).value.platform;
      ExecuteExtends(p, q, a, now);
      if AllScrubbed(p) { ExecuteScrubbed(p, q, a, now); }
      forall started: nat, cancels: nat | Balanced(p, started, cancels) ensures Balanced(p2, started, cancels) {
        ExecuteBalanced(p, q, a, now, started, cancels);
      }
      ExecuteRows(p, q, a, now);
      NativeKept(p.instances, p2.instances);
    }
  }

  lemma ExecuteRows(p: Platform, q: TransitionRequest, a: Adapter, now: Time)
    requires Execute(p, q, a, now).Ok?
    ensures |Execute(p, q, a, now).value.platform.instances| == |p.instances|
    ensures forall i :: 0 <= i < |p.instances| ==>
              Execute(p, q, a, now).value.platform.instances[i].entityType == p.instances[i].entityType
  {
    hide Execute;
    var i, t := ExecuteCase(p, q, a, now);
  }

  lemma RecordCarries(p: Platform, q: TransitionRequest, result: Option<Object>, a: Adapter, now: Time)
    ensures RecordExternal(p, q, result, a, now).Ok? ==> Carries(p, RecordExternal(p, q, result, a, now).value.platform)
  {
    if RecordExternal(p, q, result, a, now).Ok? {
      var i := LookupInstance(p, q.entityType, q.entityId, q.workflowCode, q.instanceKey).value;
      var t := FindTransition(p.catalog.defs[p.instances[i].definition].transitions, q.code).value;
      var p2 := RecordExternal(p, q, result, a, now).value.platform;
      if AllScrubbed(p) { RecordStepScrubbed(p, q, result, a, now); }
      AdvanceExtends(p, i, t, ExecutionOf(i, p.instances[i], t, q, result), now);
      hide AllScrubbed, Balanced, Moves, CountBreached, Native, RecordExternal, Extends;
      forall started: nat, cancels: nat | Balanced(p, started, cancels) ensures Balanced(p2, started, cancels) {
        RecordBalanced(p, q, result, a, now, started, cancels);
      }
      NativeKept(p.instances, p2.instances);
    }
  }

  // -- Each call ------------------------------------------------------------

  lemma ExecuteStatusCarries(p: Platform, entity: Request, changed: Request, target: RequestStatus, actor: Actor,
                             comment: Option<string>, action: string, now: Time, touchedAt: Time)
    ensures var done := ExecuteStatus(p, entity, changed, target, actor, comment, action, now, touchedAt);
            done.Ok? ==> Carries(p, done.value)
  {
    var done := ExecuteStatus(p, entity, changed, target, actor, comment, action, now, touchedAt);
    hide Ensure, Sync, Execute, Carries, BridgeAdapter;
    EnsureCarries(p, entity);
    if done.Ok? {
      var q := Ensure(p, entity).value.0;
      var edge := EdgeOf(entity.status, target);
      if entity.status == target || edge.None? {
        SyncCarries(q, changed, touchedAt);
      } else {
        var code := EdgeCode(edge.value);
        ExecuteCarries(q, BridgeRequest(entity.id, code, actor, comment, StatusInput(action, entity.status, target)),
                       BridgeAdapter(p.catalog.defs[DefinitionV1(p.catalog.defs).value], entity, changed, code, target, actor), now);
      }
      CarriesOn(p, q, done.value);
    }
  }

  lemma RecordStatusCarries(p: Platform, changed: Request, was: RequestStatus, actor: Actor, comment: Option<string>,
                            input: Object, now: Time, touchedAt: Time)
    ensures var done := RecordStatus(p, changed, was, actor, comment, input, now, touchedAt);
            done.Ok? ==> Carries(p, done.value)
  {
    var done := RecordStatus(p, changed, was, actor, comment, input, now, touchedAt);
    hide Ensure, Sync, RecordExternal, Carries;
    EnsureCarries(p, changed);
    SyncCarries(p, changed, touchedAt);
    var edge := EdgeOf(was, changed.status);
    if done.Ok? && !(was == changed.status || edge.None?) {
      var q := Ensure(p, changed).value.0;
      RecordCarries(q, BridgeRequest(changed.id, EdgeCode(edge.value), actor, comment, input),
                    Some(RecordedResult(changed.id, changed.status)),
                    Adapter(true, EntityError(changed, actor), None, None, Ok(map[]), map[]), now);
      CarriesOn(p, q, done.value);
    }
  }

  lemma PublishCarries(p: Platform, r: Request, ref: Reference, actor: Actor, now: Time, touchedAt: Time)
    ensures var done := Service.Publish(p, r, ref, actor, now, touchedAt);
            done.Ok? ==> Carries(p, done.value.platform)
  {
    var done := Service.Publish(p, r, ref, actor, now, touchedAt);
    hide Ensure, Sync, ExecuteStatus, Carries, AssignTypes, StatusAfterPublish, ApplyStatus, ScopeError;
    EnsureCarries(p, r);
    if done.Ok? {
      var q := Ensure(p, r).value.0;
      var offered := AssignTypes(r, ref.responsibilities, r.city.value, r.facility.value, |r.workTypes|);
      var status := StatusAfterPublish(offered);
      var changed := ApplyStatus(offered, status, PublishedEvent, None, now);
      ExecuteStatusCarries(q, offered, changed, status, actor, None, "publish", now, touchedAt);
      var moved := ExecuteStatus(q, offered, changed, status, actor, None, "publish", now, touchedAt).value;
      SyncCarries(moved, AddHistory(changed, PublishedEvent, None, Some(status), None), touchedAt);
      CarriesOn(p, q, moved);
      CarriesOn(p, moved, done.value.platform);
    }
  }

  lemma CreateCarries(p: Platform, id: Id, n: Service.NewRequest, ref: Reference, actor: Actor, now: Time, touchedAt: Time)
    ensures var done := Service.Create(p, id, n, ref, actor, now, touchedAt);
            done.Ok? ==> Carries(p, done.value.platform)
  {
    var done := Service.Create(p, id, n, ref, actor, now, touchedAt);
    var r := Service.Blank(id, n, now);
    hide Ensure, Carries, Service.Publish, Service.Blank;
    EnsureCarries(p, r);
    if done.Ok? {
      var q := Ensure(p, r).value.0;
      PublishCarries(q, r, ref, actor, now, touchedAt);
      CarriesSelf(q);
      CarriesOn(p, q, done.value.platform);
    }
  }

  lemma ChangeStatusCarries(p: Platform, r: Request, target: RequestStatus, actor: Actor, comment: Option<string>, now: Time, touchedAt: Time)
    ensures var done := Service.ChangeStatus(p, r, target, actor, comment, now, touchedAt);
            done.Ok? ==> Carries(p, done.value.platform)
  {
    var done := Service.ChangeStatus(p, r, target, actor, comment, now, touchedAt);
    hide Sync, ExecuteStatus, Carries, ApplyStatus, NextStatuses;
    if done.Ok? {
      var changed := ApplyStatus(r, target, Service.EventFor(r.status, target), comment, now);
      ExecuteStatusCarries(p, r, changed, target, actor, comment, "change_status", now, touchedAt);
      var moved := ExecuteStatus(p, r, changed, target, actor, comment, "change_status", now, touchedAt).value;
      SyncCarries(moved, changed, touchedAt);
      CarriesOn(p, moved, done.value.platform);
    }
  }

  lemma ChangeAssignmentCarries(p: Platform, r: Request, k: nat, target: TaskStatus, actorId: Option<Id>, comment: Option<string>,
                                resultMissing: bool, now: Time, touchedAt: Time)
    requires k < |r.assignments|
    ensures var done := Service.ChangeAssignment(p, r, k, target, actorId, comment, resultMissing, now, touchedAt);
            done.Ok? ==> Carries(p, done.value.platform)
  {
    var done := Service.ChangeAssignment(p, r, k, target, actorId, comment, resultMissing, now, touchedAt);
    hide Ensure, RecordStatus, Carries, WithTask, NextTaskStatuses;
    EnsureCarries(p, r);
    if done.Ok? {
      var q := Ensure(p, r).value.0;
      var changed := WithTask(r, k, target, comment, now);
      RecordStatusCarries(q, changed, r.status, ContractorActor(actorId, r.assignments[k].contractor), comment,
                          TaskInput(k, target, r.status, changed.status), now, touchedAt);
      CarriesOn(p, q, done.value.platform);
    }
  }

  lemma {:induction false} AcceptCarries(p: Platform, r: Request, owners: set<Id>, actorId: Option<Id>, n: nat, now: Time, touchedAt: Time)
    requires n <= |r.assignments|
    ensures var done := Service.AcceptFirst(p, r, owners, actorId, n, now, touchedAt);
            done.Ok? ==> Carries(p, done.value.platform)
  {
    hide Carries, Service.ChangeAssignment;
    CarriesSelf(p);
    var done := Service.AcceptFirst(p, r, owners, actorId, n, now, touchedAt);
    if n > 0 && done.Ok? {
      AcceptCarries(p, r, owners, actorId, n - 1, now, touchedAt);
      var b := Service.AcceptFirst(p, r, owners, actorId, n - 1, now, touchedAt).value;
      if Service.OwnOffer(b.request.assignments[n - 1], owners) {
        ChangeAssignmentCarries(b.platform, b.request, n - 1, Accepted, actorId, None, false, now, touchedAt);
        CarriesOn(p, b.platform, done.value.platform);
      }
    }
  }

  /** Every successful call on a request carries the journals on. */
  lemma CallCarries(w: Service.World, call: Service.RequestStep, now: Time, touchedAt: Time)
    requires !call.Elsewhere? && Service.Called(w, call, now, touchedAt).Ok?
    ensures Carries(w.platform, Service.Called(w, call, now, touchedAt).value.platform)
  {
    hide Carries, Service.Publish, Service.Create, Service.ChangeStatus, Service.ChangeAssignment, Service.AcceptFirst, Update;
    var p := w.platform;
    if call.CreateCall? {
      CreateCarries(p, call.id, call.draft, call.ref, call.actor, now, touchedAt);
    } else {
      var r := w.requests[call.id];
      match call
      case PublishCall(_, ref, actor) => PublishCarries(p, r, ref, actor, now, touchedAt);
      case UpdateCall(_, patch) => CarriesSelf(p);
      case StatusCall(_, target, actor, comment) => ChangeStatusCarries(p, r, target, actor, comment, now, touchedAt);
      case TaskCall(_, k, target, owners, actorId, comment, missing) =>
        ChangeAssignmentCarries(p, r, k, target, actorId, comment, missing, now, touchedAt);
      case AcceptCall(_, owners, actorId) => AcceptCarries(p, r, owners, actorId, |r.assignments|, now, touchedAt);
    }
  }

  // -- Runs -----------------------------------------------------------------

  /** 1 for a call that cancelled an instance. */
  function CancelsIn(w: Service.World, call: Service.RequestStep, now: Time): nat {
    if call.Elsewhere? && Service.Generic(w.platform, call.step) then CancelsBy(w.platform, call.step, now) else 0
  }

  ghost predicate WorldBalanced(w: Service.World, cancels: nat) {
    Balanced(w.platform, Native(w.platform.instances), cancels)
  }

  lemma GenericBalanced(w: Service.World, step: PlatformStep, now: Time, cancels: nat)
    requires WorldBalanced(w, cancels) && Service.Generic(w.platform, step)
    ensures var after := After(w.platform, step, now);
            Balanced(after, Native(after.instances), cancels + CancelsBy(w.platform, step, now))
  {
    var after := After(w.platform, step, now);
    ElsewhereAside(w.platform, step, now);
    hide After, Balanced, Native, CancelsBy, SweepsBy, Moves, CountBreached;
    forall i | 0 <= i < |w.platform.instances| ensures after.instances[i].entityType == w.platform.instances[i].entityType {
      assert SameRowKey(w.platform.instances[i], after.instances[i]);
    }
    NativeGrown(w.platform.instances, after.instances);
    AfterBalanced(w.platform, step, now, Native(w.platform.instances), cancels);
  }

  lemma WorldStep(w: Service.World, call: Service.RequestStep, now: Time, touchedAt: Time, cancels: nat)
    requires AllScrubbed(w.platform) && WorldBalanced(w, cancels)
    ensures var w2 := Service.WorldAfter(w, call, now, touchedAt);
            AllScrubbed(w2.platform) && WorldBalanced(w2, cancels + CancelsIn(w, call, now))
  {
    hide After, AllScrubbed, Balanced, Native, CancelsBy, Service.Called, Service.Generic, Extends;
    if call.Elsewhere? {
      if Service.Generic(w.platform, call.step) {
        AfterScrubbed(w.platform, call.step, now);
        GenericBalanced(w, call.step, now, cancels);
      }
    } else if Service.Called(w, call, now, touchedAt).Ok? {
      CallCarries(w, call, now, touchedAt);
    }
  }

  lemma WorldStepExtends(w: Service.World, call: Service.RequestStep, now: Time, touchedAt: Time)
    ensures Extends(w.platform, Service.WorldAfter(w, call, now, touchedAt).platform)
  {
    hide After, AllScrubbed, Balanced, Native, Service.Called, Service.Generic, Extends;
    ExtendsSelf(w.platform);
    if call.Elsewhere? {
      AfterExtends(w.platform, call.step, now);
    } else if Service.Called(w, call, now, touchedAt).Ok? {
      CallCarries(w, call, now, touchedAt);
    }
  }

  /** Over any run of calls, whatever its kinds: executions, records and events are only
      appended, lock versions never go back, settled timers and published definitions
      never change. */
  lemma {:induction false} WorldRunExtends(w: Service.World, t: Time, calls: seq<Service.TimedCall>)
    ensures Extends(w.platform, Service.WorldRun(w, t, calls).platform)
  {
    hide Extends, Service.WorldAfter;
    ExtendsSelf(w.platform);
    if calls != [] {
      var c := calls[|calls| - 1];
      var mid := Service.WorldRun(w, t, calls[..|calls| - 1]);
      WorldRunExtends(w, t, calls[..|calls| - 1]);
      WorldStepExtends(mid, c.call, Service.CallClock(t, calls), c.touchedAt);
      ExtendsTransitive(w.platform, mid.platform, Service.WorldRun(w, t, calls).platform);
    }
  }

  /** The number of calls of a run that cancelled an instance. */
  ghost function WorldCancellations(w: Service.World, t: Time, calls: seq<Service.TimedCall>): nat {
    if calls == [] then 0
    else
      var init := calls[..|calls| - 1];
      WorldCancellations(w, t, init) + CancelsIn(Service.WorldRun(w, t, init), calls[|calls| - 1].call, Service.CallClock(t, calls))
  }

  /** Over every run from a world without requests: nothing sensitive is stored, each
      event kind counts what happened, and the outbox holds one event per started
      instance, two per execution, one per cancellation and one per breach. */
  lemma {:induction false} WorldRunConserves(c: Catalog, t: Time, calls: seq<Service.TimedCall>)
    ensures var p := Service.WorldRun(NoRequests(c), t, calls).platform; var cancels := WorldCancellations(NoRequests(c), t, calls);
            && AllScrubbed(p) && Balanced(p, Native(p.instances), cancels)
            && |p.outbox| == Native(p.instances) + 2 * |p.executions| + cancels + CountBreached(p.timers)
  {
    hide AllScrubbed, Service.WorldAfter, CancelsIn, Native;
    if calls != [] {
      var init := calls[..|calls| - 1];
      var last := calls[|calls| - 1];
      WorldRunConserves(c, t, init);
      WorldStep(Service.WorldRun(NoRequests(c), t, init), last.call, Service.CallClock(t, calls), last.touchedAt,
                WorldCancellations(NoRequests(c), t, init));
    } else {
      NothingStored(c);
      NothingNative();
    }
    KindsTotal(Service.WorldRun(NoRequests(c), t, calls).platform.outbox);
  }

  lemma NothingNative()
    ensures Native([]) == 0
  {
  }

  /** A call under a used key is answered that way after any run of calls, of requests or
      of the engine: the same payload is replayed, any other is a conflict. */
  lemma RetryAfterCalls(p: Platform, q: TransitionRequest, a: Adapter, now: Time, requests: map<Id, Request>,
                        calls: seq<Service.TimedCall>, q2: TransitionRequest, a2: Adapter, now2: Time)
    requires PlatformOk(p) && Execute(p, q, a, now).Ok? && Given(q.key) && q2.lockVersion.None?
    requires q2.key == q.key && q2.code == q.code
    requires a2.registered && a2.entityError.None?
    requires var p2 := Service.WorldRun(Service.World(Execute(p, q, a, now).value.platform, requests), now, calls).platform;
             LookupInstance(p2, q2.entityType, q2.entityId, q2.workflowCode, q2.instanceKey)
             == LookupInstance(p, q.entityType, q.entityId, q.workflowCode, q.instanceKey)
    ensures var d := Execute(p, q, a, now).value;
            var p2 := Service.WorldRun(Service.World(d.platform, requests), now, calls).platform;
            Execute(p2, q2, a2, now2) == RetryResult(q, d.execution, p2, q2)
  {
    hide PlatformOk, Execute, Extends, Service.WorldRun;
    var w1 := Service.World(Execute(p, q, a, now).value.platform, requests);
    WorldRunExtends(w1, now, calls);
    RetryFindsFirst(p, q, a, now, Service.WorldRun(w1, now, calls).platform, q2, a2, now2);
  }

  /** A used lock version is refused as stale after any run of calls, of requests or of
      the engine. */
  lemma VersionSpentAfterCalls(p: Platform, q: TransitionRequest, a: Adapter, now: Time, requests: map<Id, Request>,
                               calls: seq<Service.TimedCall>, q2: TransitionRequest, a2: Adapter, now2: Time)
    requires PlatformOk(p) && Execute(p, q, a, now).Ok? && q.lockVersion.Some? && q2.lockVersion == q.lockVersion
    requires a2.registered && a2.entityError.None?
    requires var p2 := Service.WorldRun(Service.World(Execute(p, q, a, now).value.platform, requests), now, calls).platform;
             LookupInstance(p2, q2.entityType, q2.entityId, q2.workflowCode, q2.instanceKey)
             == LookupInstance(p, q.entityType, q.entityId, q.workflowCode, q.instanceKey)
    ensures var p2 := Service.WorldRun(Service.World(Execute(p, q, a, now).value.platform, requests), now, calls).platform;
            Execute(p2, q2, a2, now2) == Err(Conflict)
  {
    hide PlatformOk, Execute, Extends, Service.WorldRun;
    var w1 := Service.World(Execute(p, q, a, now).value.platform, requests);
    WorldRunExtends(w1, now, calls);
    VersionSpent(p, q, a, now, Service.WorldRun(w1, now, calls).platform, q2, a2, now2);
  }
}
