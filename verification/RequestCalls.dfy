/** Each call on a request: exactly when it succeeds, and what it leaves of the
    request, its history and its workflow instance. */
module RequestCalls {
  import opened Wrappers
  import opened JsonScrubber
  import opened WorkflowModel
  import opened WorkflowEngine
  import opened EngineLaws
  import opened EngineJournals
  import opened ContractorRequests
  import opened RequestRules
  import opened RequestBridge
  import opened BridgeLaws
  import opened RequestService
  import opened RequestLaws

  /** A request in step with its instance: the three views agree. */
  ghost predicate InStep(p: Platform, v: nat, first: Id, r: Request, clock: Time) {
    PlatformOk(p) && Hosts(p, v, first) && SelfOk(r, clock) && Agrees(p, v, first, r)
  }

  /** What a successful call leaves: the request in step, no other instance touched,
      one lock version and at most one execution more when the status changed. */
  ghost predicate Kept(p: Platform, v: nat, first: Id, r: Request, done: Outcome, now: Time) {
    && Row(p, v, r.id).Some? && OnlyRow(p, done.platform, Row(p, v, r.id).value)
    && done.request.id == r.id && InStep(done.platform, v, first, done.request, now)
    && Continues(r, done.request)
    && |p.executions| <= |done.platform.executions|
    && |done.platform.executions| <= |p.executions| + (if done.request.status == r.status then 0 else 1)
  }

  /** The instance after a bridge operation carries the request into step. */
  lemma Settled(p: Platform, p2: Platform, v: nat, first: Id, r: Request, x: Request, clock: Time, now: Time)
    requires InStep(p, v, first, r, clock) && x.id == r.id && SelfOk(x, now)
    requires Continues(r, x)
    requires Bridged(p, p2, Row(p, v, r.id).value, first, r.status, x.status, 1 + ChangeCount(r.history))
    requires Marked(p2.instances[Row(p, v, r.id).value], x.status)
    ensures Kept(p, v, first, r, Outcome(p2, x, []), now) && Hosts(p2, v, first)
    ensures forall u :: Kept(p, v, first, r, Outcome(p2, x, u), now)
  {
    hide PlatformOk, Hosts, SelfOk, Row, StatusChanges, Stands, Marked, SameRowKey, Followed, EdgesIn, EdgeOf, AlongEdge;
    var i := Row(p, v, r.id).value;
    OnlyRowHosts(p, p2, i, v, first);
    OnlyRowFinds(p, p2, i, v, r.id);
    FollowedOn(p, p2, i, first, r.status, x.status, 1 + ChangeCount(r.history), StatusChanges(r.history));
    NoSelfEdge(r.status);
  }

  /** A synchronisation after a bridge operation changes nothing it settled. */
  lemma SyncSettled(p: Platform, p2: Platform, v: nat, first: Id, r: Request, x: Request, clock: Time, now: Time, touchedAt: Time)
    requires InStep(p, v, first, r, clock) && x.id == r.id && SelfOk(x, now)
    requires Continues(r, x)
    requires Bridged(p, p2, Row(p, v, r.id).value, first, r.status, x.status, 1 + ChangeCount(r.history))
    ensures Sync(p2, x, touchedAt).Ok?
    ensures forall u :: Kept(p, v, first, r, Outcome(Sync(p2, x, touchedAt).value, x, u), now)
  {
    hide PlatformOk, Hosts, Row, StatusChanges, Stands, Sync, Marked, Dated, Fold, WellAssigned, TaskMoves, TotalRank, SameRowKey,
      Followed, EdgesIn, EdgeOf, AlongEdge;
    var i := Row(p, v, r.id).value;
    OnlyRowHosts(p, p2, i, v, first);
    OnlyRowFinds(p, p2, i, v, r.id);
    SyncForces(p2, v, first, x, touchedAt, i, x.status, 1 + ChangeCount(x.history));
    var p3 := Sync(p2, x, touchedAt).value;
    OnlyRowTransitive(p, p2, p3, i);
    Settled(p, p3, v, first, r, x, clock, now);
  }

  // -- Publication ----------------------------------------------------------

  /** Why a publication is refused, if it is. */
  function PublishRefusal(r: Request, ref: Reference, actor: Actor): Option<Error> {
    if r.status in {Closed, Cancelled} then Some(Conflict)
    else if PublishError(r, ref).Some? then PublishError(r, ref)
    else BridgeError(Offer(r, ref), r.status, StatusAfterPublish(Offer(r, ref)), actor)
  }

  /** A publication succeeds exactly when nothing of the list refuses it; it leaves
      the published request, in step. */
  lemma PublishLaw(p: Platform, v: nat, first: Id, r: Request, ref: Reference, actor: Actor, clock: Time, now: Time, touchedAt: Time)
    requires InStep(p, v, first, r, clock) && clock <= now
    ensures var done := Publish(p, r, ref, actor, now, touchedAt); var refusal := PublishRefusal(r, ref, actor);
            && (done.Ok? <==> refusal.None?) && (refusal.Some? ==> done == Err(refusal.value))
            && (done.Ok? ==>
                  && done.value.request == PublishedRequest(r, ref, now) && done.value.unassigned == Unassigned(done.value.request)
                  && Kept(p, v, first, r, done.value, now))
  {
    hide PlatformOk, Hosts, SelfOk, Row, StatusChanges, Stands, OnlyRow, Sync, Ensure, Bridged, Kept, BridgeError, ExecuteStatus, ScopeError,
      StatusAfterPublish, AssignTypes, Unassigned;
    EnsureFinds(p, v, first, r);
    if r.status !in {Closed, Cancelled} && PublishError(r, ref).None? {
      var i := Row(p, v, r.id).value;
      var offered := Offer(r, ref);
      var status := StatusAfterPublish(offered);
      var changed := ApplyStatus(offered, status, PublishedEvent, None, now);
      OfferKeeps(r, ref, clock, now);
      PublishedOk(r, ref, clock, now);
      SelfDated(PublishedRequest(r, ref, now), now);
      assert Dated(changed);
      ExecuteStatusBridges(p, v, first, i, 1 + ChangeCount(r.history), offered, changed, actor, None, "publish", now, touchedAt);
      var done := ExecuteStatus(p, offered, changed, status, actor, None, "publish", now, touchedAt);
      if done.Ok? {
        SyncSettled(p, done.value, v, first, r, PublishedRequest(r, ref, now), clock, now, touchedAt);
      }
    }
  }

  /** Publishing keeps every assignment, adds an offer for exactly the work types
      never assigned that find a contractor, and returns exactly the uncovered ones. */
  lemma PublishAssigns(p: Platform, v: nat, first: Id, r: Request, ref: Reference, actor: Actor, clock: Time, now: Time, touchedAt: Time)
    requires InStep(p, v, first, r, clock) && clock <= now && Publish(p, r, ref, actor, now, touchedAt).Ok?
    ensures var done := Publish(p, r, ref, actor, now, touchedAt).value; var x := done.request;
            && r.assignments <= x.assignments && r.city.Some? && r.facility.Some?
            && TypeSet(x.assignments)
               == TypeSet(r.assignments) + Served(r.workTypes, ref.responsibilities, r.city.value, r.facility.value)
            && (forall k :: |r.assignments| <= k < |x.assignments| ==>
                  x.assignments[k].status == Offered && x.assignments[k].workType !in TypeSet(r.assignments)
                  && OfferedTo(x.assignments[k], ref.responsibilities, r.city.value, r.facility.value))
            && (forall w :: w in done.unassigned <==> w in r.workTypes && !Covered(x.assignments, w))
  {
    hide PlatformOk, Hosts, Row, StatusChanges, Sync, Ensure, Kept, BridgeError, ExecuteStatus, ScopeError,
      StatusAfterPublish, AssignTypes, FindContractor, Fold, TaskMoves, TotalRank, Publish;
    PublishLaw(p, v, first, r, ref, actor, clock, now, touchedAt);
    assert r.workTypes[..|r.workTypes|] == r.workTypes;
    AssignTypesAdds(r, ref.responsibilities, r.city.value, r.facility.value, |r.workTypes|);
  }

  // -- Creation -------------------------------------------------------------

  lemma BlankOk(id: Id, n: NewRequest, now: Time)
    requires Distinct(n.workTypes)
    ensures SelfOk(Blank(id, n, now), now) && StatusChanges(Blank(id, n, now).history) == []
  {
  }

  /** The row `ensure_instance_for_request` makes. */
  function NewRow(v: nat, first: Id, r: Request): Instance {
    Instance(v, 1, ENTITY_TYPE, r.id, INSTANCE_KEY, first + IndexOf(r.status), r.createdAt,
             if r.status in {Completed, Closed} then r.completedAt else None, None, 1)
  }

  lemma EnsureAppends(p: Platform, v: nat, first: Id, r: Request)
    requires Hosts(p, v, first) && Row(p, v, r.id).None?
    ensures Ensure(p, r) == Ok((p.(instances := p.instances + [NewRow(v, first, r)]), |p.instances|))
  {
    SeedStateFound(p.catalog.defs[v], first, r.status);
    hide IsSeeded, StateForStatus, IndexOf, StatusCode, StatusAt, Row;
    SeedVersion(p.catalog.defs[v], first);
  }

  lemma SeedVersion(d: Definition, first: Id)
    requires IsSeeded(d, first)
    ensures d.version == 1 && d.isPublished
  {
  }

  lemma NewRowOk(p: Platform, v: nat, first: Id, r: Request)
    requires Hosts(p, v, first)
    ensures InstanceOk(NewRow(v, first, r), p.catalog.defs)
  {
    SeedLocated(p, v, first, r.status);
    SeedVersion(p.catalog.defs[v], first);
    hide IsSeeded, Reached, StateIds, IndexOf;
  }

  /** A row appended under a key no row has is the one a later lookup finds. */
  lemma AppendedRow(p: Platform, v: nat, first: Id, r: Request)
    requires Row(p, v, r.id).None?
    ensures var p2 := p.(instances := p.instances + [NewRow(v, first, r)]);
            Row(p2, v, r.id) == Some(|p.instances|) && Stands(p2, |p.instances|, first, r.status, 1)
            && (Dated(r) && r.status != Cancelled ==> Marked(p2.instances[|p.instances|], r.status))
    ensures forall i :: 0 <= i < |p.instances| ==> !SameRowKey(p.instances[i], NewRow(v, first, r))
  {
  }

  /** `ensure_instance_for_request` on a request it has not seen: version 1, state of
      the status, lock version 1. */
  lemma EnsureCreates(p: Platform, v: nat, first: Id, r: Request)
    requires PlatformOk(p) && Hosts(p, v, first) && Row(p, v, r.id).None?
    ensures Ensure(p, r) == Ok((p.(instances := p.instances + [NewRow(v, first, r)]), |p.instances|))
    ensures var p2 := p.(instances := p.instances + [NewRow(v, first, r)]);
            && PlatformOk(p2) && Hosts(p2, v, first)
            && Row(p2, v, r.id) == Some(|p.instances|) && Stands(p2, |p.instances|, first, r.status, 1)
            && (Dated(r) && r.status != Cancelled ==> Marked(p2.instances[|p.instances|], r.status))
  {
    hide PlatformOk, Row, Stands, IndexOf, InstanceOk, IsSeeded, Ensure, SameRowKey, Dated, Marked, DefinitionV1;
    EnsureAppends(p, v, first, r);
    NewRowOk(p, v, first, r);
    AppendedRow(p, v, first, r);
    NewInstanceOk(p, Ensure(p, r).value.0, v);
  }

  lemma NewInstanceOk(p: Platform, p2: Platform, v: nat)
    requires PlatformOk(p) && v < |p.catalog.defs| && |p2.instances| == |p.instances| + 1
    requires p2 == p.(instances := p.instances + [p2.instances[|p.instances|]])
    requires var x := p2.instances[|p.instances|];
             x.definition == v && InstanceOk(x, p.catalog.defs) && forall i :: 0 <= i < |p.instances| ==> !SameRowKey(p.instances[i], x)
    ensures PlatformOk(p2)
  {
    CreateInstance(p, p2, p2.instances[|p.instances|]);
    TimersUntouched(p, p2);
  }

  /** One instance more, for entity `id`; nothing else of the instances changed. */
  ghost predicate Grown(p: Platform, p2: Platform, id: Id) {
    && p2.catalog == p.catalog && |p2.instances| == |p.instances| + 1 && p2.instances[..|p.instances|] == p.instances
    && p2.instances[|p.instances|].entityType == ENTITY_TYPE && p2.instances[|p.instances|].entityId == id
    && OnlyExecutions(p.executions, p2.executions, |p.instances|)
  }

  /** Why a creation is refused, if it is. */
  function CreateRefusal(id: Id, n: NewRequest, ref: Reference, actor: Actor, now: Time): Option<Error> {
    if n.title == "" || !Distinct(n.workTypes) then Some(Unprocessable)
    else if !n.saveAsDraft then PublishRefusal(Blank(id, n, now), ref, actor)
    else if !Given(n.description) then Some(Unprocessable)
    else None
  }

  lemma NoExecutionsYet(p: Platform)
    requires PlatformOk(p)
    ensures ExecutionsOf(p.executions, |p.instances|) == []
  {
    forall k | 0 <= k < |p.executions| ensures p.executions[k].inst < |p.instances| {
      assert ExecutionOk(p.executions[k], p);
    }
    hide PlatformOk;
    NoneYet(p.executions, |p.instances|, |p.instances|);
  }

  lemma BlankInStep(p: Platform, v: nat, first: Id, id: Id, n: NewRequest, now: Time)
    requires PlatformOk(p) && Hosts(p, v, first) && Row(p, v, id).None? && Distinct(n.workTypes)
    ensures Ensure(p, Blank(id, n, now)).Ok?
    ensures var p2 := Ensure(p, Blank(id, n, now)).value.0;
            InStep(p2, v, first, Blank(id, n, now), now) && Grown(p, p2, id) && Row(p2, v, id) == Some(|p.instances|)
  {
    hide PlatformOk, Hosts, Row, Stands, SelfOk, StatusChanges, Ensure, IndexOf, ExecutionsOf, Marked;
    BlankOk(id, n, now);
    EnsureCreates(p, v, first, Blank(id, n, now));
    NoExecutionsYet(p);
    assert Dated(Blank(id, n, now));
  }

  /** A creation succeeds exactly when nothing of the list refuses it; it adds one
      instance, and the new request is in step with it. */
  lemma CreateLaw(p: Platform, v: nat, first: Id, id: Id, n: NewRequest, ref: Reference, actor: Actor, now: Time, touchedAt: Time)
    requires PlatformOk(p) && Hosts(p, v, first) && Row(p, v, id).None?
    ensures var done := Create(p, id, n, ref, actor, now, touchedAt); var refusal := CreateRefusal(id, n, ref, actor, now);
            && (done.Ok? <==> refusal.None?) && (refusal.Some? ==> done == Err(refusal.value))
            && (done.Ok? ==>
                  && Grown(p, done.value.platform, id) && done.value.request.id == id
                  && InStep(done.value.platform, v, first, done.value.request, now))
  {
    hide PlatformOk, Hosts, Row, InStep, Ensure, Publish, PublishRefusal, Distinct;
    if n.title != "" && Distinct(n.workTypes) {
      var r := Blank(id, n, now);
      BlankInStep(p, v, first, id, n, now);
      if !n.saveAsDraft {
        PublishLaw(Ensure(p, r).value.0, v, first, r, ref, actor, now, now, touchedAt);
      }
    }
  }

  // -- Changing the status --------------------------------------------------

  /** A status change succeeds exactly when it is in the table, the user sees the
      request, and may follow the edge. */
  lemma StatusLaw(p: Platform, v: nat, first: Id, r: Request, target: RequestStatus, actor: Actor, comment: Option<string>,
                  clock: Time, now: Time, touchedAt: Time)
    requires InStep(p, v, first, r, clock) && clock <= now
    ensures var done := ChangeStatus(p, r, target, actor, comment, now, touchedAt);
            && (target !in NextStatuses(r.status) ==> done == Err(Conflict))
            && (target in NextStatuses(r.status) ==>
                  && (done.Ok? <==> EntityError(r, actor).None? && MayFollow(EdgeOf(r.status, target).value, actor))
                  && (done.Err? ==> done.error == if EntityError(r, actor).Some? then EntityError(r, actor).value else Forbidden))
            && (done.Ok? ==> Kept(p, v, first, r, done.value, now) && done.value.request.status == target)
  {
    hide PlatformOk, Hosts, SelfOk, Row, StatusChanges, Stands, OnlyRow, Sync, Bridged, Kept, ExecuteStatus, ApplyStatus, EventFor,
      EntityError, MayFollow, NextStatuses;
    if target in NextStatuses(r.status) {
      var changed := ApplyStatus(r, target, EventFor(r.status, target), comment, now);
      assert EventFor(r.status, target) !in {AssignmentAcceptedEvent, AssignmentStatusChangedEvent} by { EventForStatus(r.status, target); }
      ApplyStatusOk(r, target, EventFor(r.status, target), comment, clock, now);
      SelfDated(changed, now);
      ExecuteStatusBridges(p, v, first, Row(p, v, r.id).value, 1 + ChangeCount(r.history), r, changed, actor, comment,
                           "change_status", now, touchedAt);
      var moved := ExecuteStatus(p, r, changed, target, actor, comment, "change_status", now, touchedAt);
      if moved.Ok? {
        SyncSettled(p, moved.value, v, first, r, changed, clock, now, touchedAt);
      }
    }
  }

  lemma EventForStatus(from': RequestStatus, to: RequestStatus)
    ensures EventFor(from', to) in {ClosedEvent, CancelledEvent, ReopenedEvent, StatusChangedEvent}
  {
  }

  // -- Moving an assignment -------------------------------------------------

  lemma ContractorMayFollow(k: nat, actorId: Option<Id>, contractor: Id)
    requires k < EDGES
    ensures MayFollow(k, ContractorActor(actorId, contractor)) <==> k in {5, 7, 8, 9, 10, 11, 12}
  {
    var actor := ContractorActor(actorId, contractor);
    assert |"requests.publish"| == 16 && |"requests.update"| == 15 && |"requests.close"| == 14 && |"requests.change_status"| == 22;
    assert "contractor.requests.update_status" in actor.permissions && "contractor.requests.update_status" in EdgeAllowed(8);
    assert |"contractor.requests.view"| == 24 && |"contractor.requests.update_status"| == 33 && |"contractor.requests.accept"| == 26
        && |"workflows.instances.view"| == 24 && |"workflows.instances.transition"| == 30;
  }

  /** The contractor of an assignment sees the request. */
  lemma ContractorSees(r: Request, k: nat, actorId: Option<Id>, contractor: Id)
    requires k < |r.assignments| && r.assignments[k].contractor == contractor
    ensures EntityError(r, ContractorActor(actorId, contractor)).None?
  {
  }

  /** Where moving an assignment takes the request: to IN_PROGRESS when work is accepted or
      begun, and never to ASSIGNED unless it is there. */
  lemma TaskTargets(r: Request, k: nat, target: TaskStatus, comment: Option<string>, now: Time)
    requires WellAssigned(r) && k < |r.assignments| && target in NextTaskStatuses(r.assignments[k].status)
    ensures WithTask(r, k, target, comment, now).status in {Cancelled, Completed, InProgress, PartiallyAssigned, r.status}
    ensures target in {Accepted, Working} ==> WithTask(r, k, target, comment, now).status == InProgress
  {
    AssignedBranchUnreached(r, k, target, now);
    var after := r.assignments[k := MoveTask(r.assignments[k], target, now)];
    assert after[k] in after;
    hide WellAssigned, Uncovered, NextTaskStatuses;
    if target in {Accepted, Working} {
      assert Active(after[k]);
    }
  }

  /** Why moving an assignment is refused, if it is: reopening a completed request is
      not for contractors. */
  function TaskRefusal(r: Request, k: nat, target: TaskStatus, resultMissing: bool, now: Time): Option<Error>
    requires k < |r.assignments|
  {
    if target !in NextTaskStatuses(r.assignments[k].status) || (target == Finished && resultMissing) then Some(Conflict)
    else if r.status == Completed && WithTask(r, k, target, None, now).status == InProgress then Some(Forbidden)
    else None
  }

  /** The statuses a move of an assignment can take a request between, and the edges
      among them: all open to contractors but the one that reopens. */
  lemma TaskEdges(from': RequestStatus, to: RequestStatus)
    requires from' !in {Draft, New} && to in {Cancelled, Completed, InProgress, PartiallyAssigned, from'} && from' != to
    ensures var edge := EdgeOf(from', to);
            edge.Some? ==> if from' == Completed && to == InProgress then edge.value == 14 else edge.value in {7, 8, 9, 10, 11, 12}
    ensures from' == Completed && to == InProgress ==> EdgeOf(from', to).Some?
  {
  }

  lemma TaskBridgeError(r: Request, k: nat, target: TaskStatus, comment: Option<string>, actorId: Option<Id>, clock: Time, now: Time)
    requires SelfOk(r, clock) && k < |r.assignments| && target in NextTaskStatuses(r.assignments[k].status)
    ensures var x := WithTask(r, k, target, comment, now);
            BridgeError(x, r.status, x.status, ContractorActor(actorId, r.assignments[k].contractor))
            == if r.status == Completed && x.status == InProgress then Some(Forbidden) else None
  {
    var contractor := r.assignments[k].contractor;
    assert r.status !in {Draft, New} && WellAssigned(r);
    hide SelfOk, EntityError, MayFollow, ContractorActor, NextTaskStatuses, EdgeAt, NextStatuses, WellAssigned, Recalculate, MoveTask, EdgeOf;
    var x := WithTask(r, k, target, comment, now);
    KeepsContractor(r, k, target, comment, now);
    hide WithTask;
    TaskTargets(r, k, target, comment, now);
    ContractorSees(x, k, actorId, contractor);
    var edge := EdgeOf(r.status, x.status);
    if r.status != x.status {
      TaskEdges(r.status, x.status);
      if edge.Some? {
        ContractorMayFollow(edge.value, actorId, contractor);
      }
    }
  }

  lemma KeepsContractor(r: Request, k: nat, target: TaskStatus, comment: Option<string>, now: Time)
    requires k < |r.assignments|
    ensures var x := WithTask(r, k, target, comment, now);
            |x.assignments| == |r.assignments| && x.assignments[k].contractor == r.assignments[k].contractor
  {
  }

  /** Moving an assignment succeeds exactly when nothing of the list refuses it. */
  lemma TaskLaw(p: Platform, v: nat, first: Id, r: Request, k: nat, target: TaskStatus, actorId: Option<Id>, comment: Option<string>,
                resultMissing: bool, clock: Time, now: Time, touchedAt: Time)
    requires InStep(p, v, first, r, clock) && clock <= now && k < |r.assignments|
    ensures var done := ChangeAssignment(p, r, k, target, actorId, comment, resultMissing, now, touchedAt);
            var refusal := TaskRefusal(r, k, target, resultMissing, now);
            && (done.Ok? <==> refusal.None?) && (refusal.Some? ==> done == Err(refusal.value))
            && (done.Ok? ==> done.value.request == WithTask(r, k, target, comment, now) && Kept(p, v, first, r, done.value, now))
  {
    hide PlatformOk, Hosts, SelfOk, Row, StatusChanges, Stands, OnlyRow, Ensure, Bridged, Kept, RecordStatus, WithTask, BridgeError,
      NextTaskStatuses, TaskInput, ContractorActor;
    EnsureFinds(p, v, first, r);
    if target in NextTaskStatuses(r.assignments[k].status) {
      var x := WithTask(r, k, target, comment, now);
      var actor := ContractorActor(actorId, r.assignments[k].contractor);
      var input := TaskInput(k, target, r.status, x.status);
      WithTaskOk(r, k, target, comment, clock, now);
      TaskBridgeError(r, k, target, comment, actorId, clock, now);
      SameTarget(r, k, target, comment, now);
      SelfDated(x, now);
      RecordStatusBridges(p, v, first, Row(p, v, r.id).value, 1 + ChangeCount(r.history), x, r.status, actor, comment, input, now, touchedAt);
      var moved := RecordStatus(p, x, r.status, actor, comment, input, now, touchedAt);
      if moved.Ok? {
        assert Marked(moved.value.instances[Row(p, v, r.id).value], x.status) by { NotReopened(p, moved.value, v, first, r, x); }
        Settled(p, moved.value, v, first, r, x, clock, now);
      }
    }
  }

  lemma NotReopened(p: Platform, p2: Platform, v: nat, first: Id, r: Request, x: Request)
    requires Agrees(p, v, first, r) && !(r.status == Completed && x.status == InProgress)
    requires Bridged(p, p2, Row(p, v, r.id).value, first, r.status, x.status, 1 + ChangeCount(r.history))
    ensures Row(p, v, r.id).value < |p2.instances| && Marked(p2.instances[Row(p, v, r.id).value], x.status)
  {
    hide PlatformOk, Row, Marked, Stands, StatusChanges, SameRowKey;
  }

  lemma SameTarget(r: Request, k: nat, target: TaskStatus, comment: Option<string>, now: Time)
    requires k < |r.assignments|
    ensures WithTask(r, k, target, comment, now).status == WithTask(r, k, target, None, now).status
  {
  }

  // -- Accepting a request --------------------------------------------------

  predicate SomeOwnOffer(assignments: seq<Assignment>, owners: set<Id>, n: nat)
    requires n <= |assignments|
  {
    exists j :: 0 <= j < n && OwnOffer(assignments[j], owners)
  }

  /** The assignments once the own offers among the first `n` are accepted. */
  function Taken(assignments: seq<Assignment>, owners: set<Id>, n: nat, now: Time): seq<Assignment> {
    seq(|assignments|, j requires 0 <= j < |assignments| =>
      if j < n && OwnOffer(assignments[j], owners) then MoveTask(assignments[j], Accepted, now) else assignments[j])
  }

  /** What accepting does to a request: its own offers taken, and in progress if there were any. */
  ghost predicate AcceptedAs(r: Request, x: Request, owners: set<Id>, n: nat, now: Time)
    requires n <= |r.assignments|
  {
    x == r.(assignments := Taken(r.assignments, owners, n, now), history := x.history,
            status := if SomeOwnOffer(r.assignments, owners, n) then InProgress else r.status)
  }

  lemma KeptSelf(p: Platform, v: nat, first: Id, r: Request, clock: Time, now: Time, u: seq<Id>)
    requires InStep(p, v, first, r, clock) && clock <= now
    ensures Kept(p, v, first, r, Outcome(p, r, u), now)
  {
    hide PlatformOk, Hosts, Fold, TotalRank, TaskMoves, WellAssigned, SomeActive, Row, IndexOf;
  }

  lemma KeptTransitive(p: Platform, v: nat, first: Id, r: Request, a: Outcome, b: Outcome, now: Time)
    requires Kept(p, v, first, r, a, now) && Kept(a.platform, v, first, a.request, b, now)
    requires a.request.status == r.status || b.request.status == a.request.status
    ensures Kept(p, v, first, r, b, now)
  {
    hide PlatformOk, Hosts, SelfOk, Row, Stands, OnlyRow, StatusChanges;
    var i := Row(p, v, r.id).value;
    OnlyRowFinds(p, a.platform, i, v, r.id);
    OnlyRowTransitive(p, a.platform, b.platform, i);
  }

  /** Accepting the own offer at `n`. */
  lemma AcceptOne(r: Request, y: Request, x: Request, owners: set<Id>, n: nat, now: Time)
    requires n < |r.assignments| && AcceptedAs(r, y, owners, n, now) && OwnOffer(y.assignments[n], owners)
    requires x == y.(assignments := y.assignments[n := MoveTask(y.assignments[n], Accepted, now)], status := InProgress, history := x.history)
    ensures AcceptedAs(r, x, owners, n + 1, now) && OwnOffer(r.assignments[n], owners)
  {
  }

  lemma AcceptNone(r: Request, y: Request, owners: set<Id>, n: nat, now: Time)
    requires n < |r.assignments| && AcceptedAs(r, y, owners, n, now) && !OwnOffer(y.assignments[n], owners)
    ensures AcceptedAs(r, y, owners, n + 1, now) && !OwnOffer(r.assignments[n], owners)
  {
  }

  lemma NothingTaken(r: Request, owners: set<Id>, now: Time)
    ensures AcceptedAs(r, r, owners, 0, now)
  {
  }

  /** An accepted offer takes the request to IN_PROGRESS and changes nothing else. */
  lemma AcceptedTask(r: Request, k: nat, now: Time)
    requires k < |r.assignments| && r.assignments[k].status == Offered
    ensures var x := WithTask(r, k, Accepted, None, now);
            x == r.(assignments := r.assignments[k := MoveTask(r.assignments[k], Accepted, now)], status := InProgress, history := x.history)
    ensures TaskRefusal(r, k, Accepted, false, now) == if r.status == Completed then Some(Forbidden) else None
  {
    var after := r.assignments[k := MoveTask(r.assignments[k], Accepted, now)];
    assert after[k] in after && Active(after[k]);
    hide Uncovered;
  }

  lemma {:induction false} AcceptFirstLaw(p: Platform, v: nat, first: Id, r: Request, owners: set<Id>, actorId: Option<Id>, n: nat,
                                          clock: Time, now: Time, touchedAt: Time)
    requires InStep(p, v, first, r, clock) && clock <= now && n <= |r.assignments|
    ensures var done := AcceptFirst(p, r, owners, actorId, n, now, touchedAt);
            && (done.Err? <==> r.status == Completed && SomeOwnOffer(r.assignments, owners, n))
            && (done.Err? ==> done.error == Forbidden)
            && (done.Ok? ==> AcceptedAs(r, done.value.request, owners, n, now) && Kept(p, v, first, r, done.value, now))
  {
    hide InStep, Kept, ChangeAssignment, WithTask, TaskRefusal, AcceptedAs;
    if n == 0 {
      KeptSelf(p, v, first, r, clock, now, []);
      NothingTaken(r, owners, now);
    } else {
      AcceptFirstLaw(p, v, first, r, owners, actorId, n - 1, clock, now, touchedAt);
      var before := AcceptFirst(p, r, owners, actorId, n - 1, now, touchedAt);
      if before.Ok? {
        AcceptNext(p, v, first, r, before.value, owners, actorId, n - 1, now, touchedAt);
      }
    }
  }

  /** One more turn of the loop. */
  lemma AcceptNext(p: Platform, v: nat, first: Id, r: Request, b: Outcome, owners: set<Id>, actorId: Option<Id>, n: nat,
                   now: Time, touchedAt: Time)
    requires n < |r.assignments| && |b.request.assignments| == |r.assignments|
    requires AcceptedAs(r, b.request, owners, n, now) && Kept(p, v, first, r, b, now)
    requires !(r.status == Completed && SomeOwnOffer(r.assignments, owners, n))
    ensures var done := if OwnOffer(b.request.assignments[n], owners) then
                ChangeAssignment(b.platform, b.request, n, Accepted, actorId, None, false, now, touchedAt) else Ok(b);
            && (done.Err? <==> r.status == Completed && SomeOwnOffer(r.assignments, owners, n + 1))
            && (done.Err? ==> done.error == Forbidden)
            && (done.Ok? ==> AcceptedAs(r, done.value.request, owners, n + 1, now) && Kept(p, v, first, r, done.value, now))
  {
    var y := b.request;
    hide InStep, ChangeAssignment, WithTask, TaskRefusal, Taken;
    if OwnOffer(y.assignments[n], owners) {
      AcceptedTask(y, n, now);
      TaskLaw(b.platform, v, first, y, n, Accepted, actorId, None, false, now, now, touchedAt);
      AcceptOne(r, y, WithTask(y, n, Accepted, None, now), owners, n, now);
      var done := ChangeAssignment(b.platform, y, n, Accepted, actorId, None, false, now, touchedAt);
      hide Kept;
      if done.Ok? {
        KeptTransitive(p, v, first, r, b, done.value, now);
      }
    } else {
      AcceptNone(r, y, owners, n, now);
    }
  }

  /** Accepting is all or nothing: it succeeds exactly when some assignment is one's
      own and none has to reopen a completed request.  Then exactly the own offers are
      accepted, and the request is in progress if there were any; its lock version and
      the executions have grown by one at most. */
  lemma AcceptLaw(p: Platform, v: nat, first: Id, r: Request, owners: set<Id>, actorId: Option<Id>, clock: Time, now: Time, touchedAt: Time)
    requires InStep(p, v, first, r, clock) && clock <= now
    ensures var done := Accept(p, r, owners, actorId, now, touchedAt); var n := |r.assignments|;
            && (done.Ok? <==> Owned(r, owners) && !(r.status == Completed && SomeOwnOffer(r.assignments, owners, n)))
            && (done.Err? ==> done.error == if Owned(r, owners) then Forbidden else NotFound)
            && (done.Ok? ==> AcceptedAs(r, done.value.request, owners, n, now) && Kept(p, v, first, r, done.value, now))
  {
    hide InStep, Kept, AcceptFirst, AcceptedAs, SomeOwnOffer;
    AcceptFirstLaw(p, v, first, r, owners, actorId, |r.assignments|, clock, now, touchedAt);
  }
}
