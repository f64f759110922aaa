/** The calls of request_service.py and of the contractor portal that touch both a
    request and its workflow instance, and runs of such calls. */
module RequestService {
  import opened Wrappers
  import opened JsonScrubber
  import opened WorkflowModel
  import opened WorkflowEngine
  import opened EngineRuns
  import opened ContractorRequests
  import opened RequestBridge

  datatype NewRequest = NewRequest(
    city: Option<Id>, facility: Option<Id>, premise: Option<Id>, title: string, description: Option<string>,
    priority: Option<string>, workTypes: seq<Id>, saveAsDraft: bool)

  datatype Outcome = Outcome(platform: Platform, request: Request, unassigned: seq<Id>)

  // -- Internal users -------------------------------------------------------

  /** `publish_contractor_request`. */
  function Publish(p: Platform, r: Request, ref: Reference, actor: Actor, now: Time, touchedAt: Time): Result<Outcome> {
    if r.status in {Closed, Cancelled} then Err(Conflict) else
    var ensured :- Ensure(p, r);
    var invalid := PublishError(r, ref);
    if invalid.Some? then Err(invalid.value) else
    var offered := AssignTypes(r, ref.responsibilities, r.city.value, r.facility.value, |r.workTypes|);
    var status := StatusAfterPublish(offered);
    var changed := ApplyStatus(offered, status, PublishedEvent, None, now);
    var moved :- ExecuteStatus(ensured.0, offered, changed, status, actor, None, "publish", now, touchedAt);
    var logged := AddHistory(changed, PublishedEvent, None, Some(status), None);
    var synced :- Sync(moved, logged, touchedAt);
    Ok(Outcome(synced, logged, Unassigned(logged)))
  }

  function Blank(id: Id, n: NewRequest, now: Time): Request {
    Request(id, n.city, n.facility, n.premise, n.title, n.description, n.priority, n.workTypes, [], Draft, now, None, None,
            [HistoryEntry(CreatedEvent, None, Some(Draft), None)])
  }

  /** `create_contractor_request`, with the payload schema in front. */
  function Create(p: Platform, id: Id, n: NewRequest, ref: Reference, actor: Actor, now: Time, touchedAt: Time): Result<Outcome> {
    if n.title == "" || !Distinct(n.workTypes) then Err(Unprocessable) else
    var r := Blank(id, n, now);
    var ensured :- Ensure(p, r);
    if !n.saveAsDraft then Publish(ensured.0, r, ref, actor, now, touchedAt)
    else if !Given(n.description) then Err(Unprocessable)
    else Ok(Outcome(ensured.0, r, []))
  }

  function EventFor(from': RequestStatus, to: RequestStatus): HistoryEvent {
    if to == Closed then ClosedEvent
    else if to == Cancelled then CancelledEvent
    else if from' == Completed && to == InProgress then ReopenedEvent
    else StatusChangedEvent
  }

  /** `change_request_status`. */
  function ChangeStatus(p: Platform, r: Request, target: RequestStatus, actor: Actor, comment: Option<string>,
                        now: Time, touchedAt: Time): Result<Outcome>
  {
    if target !in NextStatuses(r.status) then Err(Conflict) else
    var changed := ApplyStatus(r, target, EventFor(r.status, target), comment, now);
    var moved :- ExecuteStatus(p, r, changed, target, actor, comment, "change_status", now, touchedAt);
    var synced :- Sync(moved, changed, touchedAt);
    Ok(Outcome(synced, changed, []))
  }

  // -- Contractors ----------------------------------------------------------

  /** `change_assignment_status` by a contractor; `resultMissing`: a work result is
      demanded for completion and there is none. */
  function ChangeAssignment(p: Platform, r: Request, k: nat, target: TaskStatus, actorId: Option<Id>, comment: Option<string>,
                            resultMissing: bool, now: Time, touchedAt: Time): (done: Result<Outcome>)
    requires k < |r.assignments|
    ensures done.Ok? ==> |done.value.request.assignments| == |r.assignments| && done.value.unassigned == []
  {
    if target !in NextTaskStatuses(r.assignments[k].status) then Err(Conflict)
    else if target == Finished && resultMissing then Err(Conflict) else
    var ensured :- Ensure(p, r);
    var changed := WithTask(r, k, target, comment, now);
    var moved :- RecordStatus(ensured.0, changed, r.status, ContractorActor(actorId, r.assignments[k].contractor), comment,
                              TaskInput(k, target, r.status, changed.status), now, touchedAt);
    Ok(Outcome(moved, changed, []))
  }

  /** `update_assignment_status`: only one's own assignment. */
  function UpdateTask(p: Platform, r: Request, k: nat, target: TaskStatus, owners: set<Id>, actorId: Option<Id>,
                      comment: Option<string>, resultMissing: bool, now: Time, touchedAt: Time): Result<Outcome>
  {
    if k >= |r.assignments| || r.assignments[k].contractor !in owners then Err(NotFound)
    else ChangeAssignment(p, r, k, target, actorId, comment, resultMissing, now, touchedAt)
  }

  predicate OwnOffer(a: Assignment, owners: set<Id>) {
    a.contractor in owners && a.status == Offered
  }

  /** The loop of `accept_contractor_request` over the first `n` assignments. */
  function AcceptFirst(p: Platform, r: Request, owners: set<Id>, actorId: Option<Id>, n: nat, now: Time, touchedAt: Time)
    : (done: Result<Outcome>)
    requires n <= |r.assignments|
    ensures done.Ok? ==> |done.value.request.assignments| == |r.assignments| && done.value.unassigned == []
  {
    if n == 0 then Ok(Outcome(p, r, [])) else
    var before :- AcceptFirst(p, r, owners, actorId, n - 1, now, touchedAt);
    if OwnOffer(before.request.assignments[n - 1], owners) then
      ChangeAssignment(before.platform, before.request, n - 1, Accepted, actorId, None, false, now, touchedAt)
    else Ok(before)
  }

  predicate Owned(r: Request, owners: set<Id>) {
    exists a :: a in r.assignments && a.contractor in owners
  }

  /** `accept_contractor_request`. */
  function Accept(p: Platform, r: Request, owners: set<Id>, actorId: Option<Id>, now: Time, touchedAt: Time): Result<Outcome> {
    if !Owned(r, owners) then Err(NotFound)
    else AcceptFirst(p, r, owners, actorId, |r.assignments|, now, touchedAt)
  }

  // -- Runs -----------------------------------------------------------------

  datatype World = World(platform: Platform, requests: map<Id, Request>)

  datatype RequestStep =
    | CreateCall(id: Id, draft: NewRequest, ref: Reference, actor: Actor)
    | PublishCall(id: Id, ref: Reference, actor: Actor)
    | UpdateCall(id: Id, patch: RequestPatch)
    | StatusCall(id: Id, target: RequestStatus, actor: Actor, comment: Option<string>)
    | TaskCall(id: Id, k: nat, task: TaskStatus, owners: set<Id>, actorId: Option<Id>, comment: Option<string>, resultMissing: bool)
    | AcceptCall(id: Id, owners: set<Id>, actorId: Option<Id>)
    | Elsewhere(step: PlatformStep)

  datatype TimedCall = TimedCall(elapsed: nat, touchedAt: Time, call: RequestStep)

  /** Generic calls on contractor requests are switched off
      (api/v1/workflows.py); sweeps and definition edits are not. */
  predicate Generic(p: Platform, step: PlatformStep) {
    match step
    case EditCatalog(_) => true
    case StartStep(q, _) => q.entityType != ENTITY_TYPE
    case ExecuteStep(q, _) => q.entityType != ENTITY_TYPE
    case RecordStep(q, _, _) => q.entityType != ENTITY_TYPE
    case CancelStep(i, _) => i < |p.instances| ==> p.instances[i].entityType != ENTITY_TYPE
    case SweepStep => true
  }

  /** The result of one call on a request; a fresh id is one no request has. */
  function Called(w: World, call: RequestStep, now: Time, touchedAt: Time): Result<Outcome>
    requires !call.Elsewhere?
  {
    if call.CreateCall? then
      if call.id in w.requests then Err(Internal) else Create(w.platform, call.id, call.draft, call.ref, call.actor, now, touchedAt)
    else if call.id !in w.requests then Err(NotFound) else
    var r := w.requests[call.id];
    match call
    case PublishCall(_, ref, actor) => Publish(w.platform, r, ref, actor, now, touchedAt)
    case UpdateCall(_, patch) =>
      var edited :- Update(r, patch);
      Ok(Outcome(w.platform, edited, Unassigned(edited)))
    case StatusCall(_, target, actor, comment) => ChangeStatus(w.platform, r, target, actor, comment, now, touchedAt)
    case TaskCall(_, k, target, owners, actorId, comment, missing) =>
      UpdateTask(w.platform, r, k, target, owners, actorId, comment, missing, now, touchedAt)
    case AcceptCall(_, owners, actorId) => Accept(w.platform, r, owners, actorId, now, touchedAt)
  }

  ghost function WorldAfter(w: World, call: RequestStep, now: Time, touchedAt: Time): World {
    if call.Elsewhere? then
      if Generic(w.platform, call.step) then w.(platform := After(w.platform, call.step, now)) else w
    else
      var done := Called(w, call, now, touchedAt);
      if done.Ok? then World(done.value.platform, w.requests[call.id := done.value.request]) else w
  }

  function CallClock(t: Time, calls: seq<TimedCall>): Time {
    if calls == [] then t else CallClock(t, calls[..|calls| - 1]) + calls[|calls| - 1].elapsed
  }

  ghost function WorldRun(w: World, t: Time, calls: seq<TimedCall>): World {
    if calls == [] then w
    else
      var c := calls[|calls| - 1];
      WorldAfter(WorldRun(w, t, calls[..|calls| - 1]), c.call, CallClock(t, calls), c.touchedAt)
  }
}
