/** What the calls on a request answer, said on its columns: when a call succeeds, with
    which error it fails, and every column it leaves. */
module RequestAnswers {
  import opened Wrappers
  import opened JsonScrubber
  import opened WorkflowModel
  import opened DefinitionLaws
  import opened WorkflowEngine
  import opened EngineLaws
  import opened EngineRuns
  import opened EngineAnswers
  import opened ContractorRequests
  import opened RequestRules
  import opened RequestBridge
  import opened BridgeLaws
  import opened RequestService
  import opened RequestLaws
  import opened RequestCalls
  import opened RequestRuns

  // -- The tables -----------------------------------------------------------

  /** Work goes forward one step at a time, and may be dropped until it is finished. */
  predicate TaskStep(from': TaskStatus, to: TaskStatus) {
    match to
    case Offered => false
    case Accepted => from' == Offered
    case Working => from' == Accepted
    case Finished => from' == Working
    case Dropped => from' in {Offered, Accepted, Working}
  }

  /** A request leaves DRAFT by publication, gains coverage, starts, completes and is
      closed; it may be cancelled from NEW until it completes, and reopened once complete. */
  predicate StatusStep(from': RequestStatus, to: RequestStatus) {
    match to
    case Draft => false
    case New => from' == Draft
    case PartiallyAssigned => from' in {Draft, New}
    case Assigned => from' in {Draft, New, PartiallyAssigned}
    case InProgress => from' in {PartiallyAssigned, Assigned, Completed}
    case Completed => from' == InProgress
    case Closed => from' == Completed
    case Cancelled => from' in {New, PartiallyAssigned, Assigned, InProgress}
  }

  lemma TablesAre(s: RequestStatus, to: RequestStatus, t: TaskStatus, u: TaskStatus)
    ensures to in NextStatuses(s) <==> StatusStep(s, to)
    ensures u in NextTaskStatuses(t) <==> TaskStep(t, u)
  {
  }

  // -- The status of a request after an assignment moved --------------------

  /** Some assignment of the work type has one of the statuses. */
  predicate Has(tasks: seq<Assignment>, workType: Id, statuses: set<TaskStatus>) {
    exists a :: a in tasks && a.workType == workType && a.status in statuses
  }

  /** All work dropped: CANCELLED.  All types finished: COMPLETED.  Some work accepted or
      begun: IN_PROGRESS.  Some type without live work: PARTIALLY_ASSIGNED.  Else unchanged. */
  predicate FollowsWork(workTypes: seq<Id>, tasks: seq<Assignment>, was: RequestStatus, status: RequestStatus) {
    if forall a :: a in tasks ==> a.status == Dropped then status == Cancelled
    else if forall w :: w in workTypes ==> Has(tasks, w, {Finished}) then status == Completed
    else if exists a :: a in tasks && a.status in {Accepted, Working} then status == InProgress
    else if exists w :: w in workTypes && !Has(tasks, w, {Offered, Accepted, Working, Finished}) then status == PartiallyAssigned
    else status == was
  }

  lemma FinishedTypes(r: Request)
    requires WellAssigned(r) && r.workTypes != []
    ensures AllFinished(r) <==> forall w :: w in r.workTypes ==> Has(r.assignments, w, {Finished})
  {
    hide AllFinished, WellAssigned, Recalculated;
    CompletedIff(r);
    forall w ensures RequestRules.Done(r.assignments, w) <==> Has(r.assignments, w, {Finished}) {
    }
  }

  lemma LiveTypes(workTypes: seq<Id>, tasks: seq<Assignment>)
    ensures Uncovered(workTypes, tasks) != []
       <==> exists w :: w in workTypes && !Has(tasks, w, {Offered, Accepted, Working, Finished})
  {
    forall w ensures Covered(tasks, w) <==> Has(tasks, w, {Offered, Accepted, Working, Finished}) {
      if Covered(tasks, w) {
        var a :| a in tasks && Covers(a, w);
        assert a.status in {Offered, Accepted, Working, Finished};
      }
      if Has(tasks, w, {Offered, Accepted, Working, Finished}) {
        var a :| a in tasks && a.workType == w && a.status in {Offered, Accepted, Working, Finished};
        assert Covers(a, w);
      }
    }
    var missing := Uncovered(workTypes, tasks);
    if missing != [] { assert missing[0] in missing; }
  }

  lemma LiveWork(tasks: seq<Assignment>)
    ensures SomeActive(tasks) <==> !(forall a :: a in tasks ==> a.status == Dropped)
  {
    if SomeActive(tasks) {
      var a :| a in tasks && Active(a);
    }
    if !(forall a :: a in tasks ==> a.status == Dropped) {
      var a :| a in tasks && a.status != Dropped;
      assert Active(a);
    }
  }

  lemma SomeType(r: Request)
    requires WellAssigned(r) && r.assignments != []
    ensures r.workTypes != []
  {
    assert r.assignments[0] in r.assignments;
  }

  lemma RecalculatedAnswer(r: Request, was: RequestStatus)
    requires WellAssigned(r) && r.assignments != []
    requires !(SomeActive(r.assignments) && Unassigned(r) == [] && ActiveAll(r.assignments, Offered))
    ensures FollowsWork(r.workTypes, r.assignments, was, Recalculated(r.workTypes, r.assignments, was))
  {
    hide Uncovered, SomeActive, ActiveAll, Has, WellAssigned;
    SomeType(r);
    FinishedTypes(r);
    LiveTypes(r.workTypes, r.assignments);
    LiveWork(r.assignments);
  }

  /** Who did what to an assignment: the columns of the row moved and of the request. */
  predicate TaskMoved(r: Request, x: Request, k: nat, target: TaskStatus, comment: Option<string>, now: Time)
    requires k < |r.assignments|
  {
    var a := r.assignments[k];
    && x.assignments == r.assignments[k := a.(status := target, acceptedAt := if target == Accepted then Some(now) else a.acceptedAt,
                                              completedAt := if target == Finished then Some(now) else a.completedAt)]
    && FollowsWork(r.workTypes, x.assignments, r.status, x.status)
    && x == r.(assignments := x.assignments, status := x.status, completedAt := x.completedAt, history := x.history)
    && x.completedAt == (if r.completedAt.None? && forall w :: w in r.workTypes ==> Has(x.assignments, w, {Finished})
                         then Some(now) else r.completedAt)
    && x.history == r.history + [HistoryEntry(if target == Accepted then AssignmentAcceptedEvent else AssignmentStatusChangedEvent,
                                              Some(r.status), Some(x.status), comment)]
  }

  /** The request with the moved row, before its status follows. */
  function WithRow(r: Request, k: nat, target: TaskStatus, now: Time): Request
    requires k < |r.assignments|
  {
    r.(assignments := r.assignments[k := MoveTask(r.assignments[k], target, now)])
  }

  lemma WithRowOk(r: Request, k: nat, target: TaskStatus, clock: Time, now: Time)
    requires SelfOk(r, clock) && clock <= now && k < |r.assignments| && target in NextTaskStatuses(r.assignments[k].status)
    ensures var y := WithRow(r, k, target, now);
            && WellAssigned(y) && y.assignments != []
            && !(SomeActive(y.assignments) && Unassigned(y) == [] && ActiveAll(y.assignments, Offered))
            && (target == Accepted ==> r.assignments[k].acceptedAt.None?)
  {
    hide NextTaskStatuses, SomeActive, ActiveAll, Uncovered, Fold, TaskMoves, TotalRank;
    assert r.assignments[k] in r.assignments && Stamped(r.assignments[k], clock);
    AssignedBranchUnreached(r, k, target, now);
    MovedAssignments(r, k, target, clock, now);
    TablesAre(Draft, Draft, r.assignments[k].status, target);
  }

  lemma WithTaskAnswer(r: Request, k: nat, target: TaskStatus, comment: Option<string>, clock: Time, now: Time)
    requires SelfOk(r, clock) && clock <= now && k < |r.assignments| && target in NextTaskStatuses(r.assignments[k].status)
    ensures TaskMoved(r, WithTask(r, k, target, comment, now), k, target, comment, now)
  {
    hide SelfOk, WellAssigned, NextTaskStatuses, FollowsWork, Recalculated, Uncovered, SomeActive, ActiveAll, Has;
    var y := WithRow(r, k, target, now);
    WithRowOk(r, k, target, clock, now);
    RecalculatedAnswer(y, r.status);
    SomeType(y);
    FinishedTypes(y);
  }

  /** The assignments once the k-th has the status; the rest of the row does not matter here. */
  function Restatused(r: Request, k: nat, target: TaskStatus): seq<Assignment>
    requires k < |r.assignments|
  {
    r.assignments[k := r.assignments[k].(status := target)]
  }

  lemma FollowsStatuses(workTypes: seq<Id>, a: seq<Assignment>, b: seq<Assignment>, was: RequestStatus, status: RequestStatus)
    requires |a| == |b| && forall j :: 0 <= j < |a| ==> a[j].workType == b[j].workType && a[j].status == b[j].status
    ensures FollowsWork(workTypes, a, was, status) <==> FollowsWork(workTypes, b, was, status)
  {
    forall w, statuses ensures Has(a, w, statuses) <==> Has(b, w, statuses) {
      SameHas(a, b, w, statuses);
      SameHas(b, a, w, statuses);
    }
    SameStatuses(a, b);
    SameStatuses(b, a);
    hide Has;
  }

  lemma SameStatuses(a: seq<Assignment>, b: seq<Assignment>)
    requires |a| == |b| && forall j :: 0 <= j < |a| ==> a[j].status == b[j].status
    ensures (forall x :: x in a ==> x.status == Dropped) ==> (forall x :: x in b ==> x.status == Dropped)
    ensures (exists x :: x in a && x.status in {Accepted, Working}) ==> (exists x :: x in b && x.status in {Accepted, Working})
  {
    if exists x :: x in a && x.status in {Accepted, Working} {
      var j :| 0 <= j < |a| && a[j].status in {Accepted, Working};
      assert b[j] in b;
    }
    if forall x :: x in a ==> x.status == Dropped {
      forall x | x in b ensures x.status == Dropped {
        var j :| 0 <= j < |b| && b[j] == x;
        assert a[j] in a;
      }
    }
  }

  lemma SameHas(a: seq<Assignment>, b: seq<Assignment>, w: Id, statuses: set<TaskStatus>)
    requires |a| == |b| && forall j :: 0 <= j < |a| ==> a[j].workType == b[j].workType && a[j].status == b[j].status
    ensures Has(a, w, statuses) ==> Has(b, w, statuses)
  {
    if Has(a, w, statuses) {
      var j :| 0 <= j < |a| && a[j].workType == w && a[j].status in statuses;
      assert b[j] in b;
    }
  }

  /** A move of an assignment: refused when the table does not have it, when a demanded
      result is missing, or when it would reopen a completed request; otherwise done. */
  lemma TaskAnswer(p: Platform, v: nat, first: Id, r: Request, k: nat, target: TaskStatus, actorId: Option<Id>, comment: Option<string>,
                   resultMissing: bool, clock: Time, now: Time, touchedAt: Time)
    requires InStep(p, v, first, r, clock) && clock <= now && k < |r.assignments|
    ensures var done := ChangeAssignment(p, r, k, target, actorId, comment, resultMissing, now, touchedAt);
            var allowed := TaskStep(r.assignments[k].status, target) && !(target == Finished && resultMissing);
            var reopens := r.status == Completed && FollowsWork(r.workTypes, Restatused(r, k, target), r.status, InProgress);
            && (done.Ok? <==> allowed && !reopens)
            && (!allowed ==> done == Err(Conflict))
            && (allowed && reopens ==> done == Err(Forbidden))
            && (done.Ok? ==> TaskMoved(r, done.value.request, k, target, comment, now) && done.value.unassigned == [])
  {
    hide InStep, ChangeAssignment, Kept, WithTask, FollowsWork, TaskStep, NextTaskStatuses, TaskMoved;
    TaskLaw(p, v, first, r, k, target, actorId, comment, resultMissing, clock, now, touchedAt);
    TablesAre(Draft, Draft, r.assignments[k].status, target);
    StepSelf(p, v, first, r, clock);
    if target in NextTaskStatuses(r.assignments[k].status) {
      WithTaskAnswer(r, k, target, comment, clock, now);
      ReopensIff(r, k, target, clock, now);
    }
  }

  lemma StepSelf(p: Platform, v: nat, first: Id, r: Request, clock: Time)
    requires InStep(p, v, first, r, clock)
    ensures SelfOk(r, clock)
  {
  }

  lemma ReopensIff(r: Request, k: nat, target: TaskStatus, clock: Time, now: Time)
    requires SelfOk(r, clock) && clock <= now && k < |r.assignments| && target in NextTaskStatuses(r.assignments[k].status)
    ensures WithTask(r, k, target, None, now).status == InProgress
       <==> FollowsWork(r.workTypes, Restatused(r, k, target), r.status, InProgress)
  {
    hide SelfOk, WithTask, NextTaskStatuses, FollowsWork, Has;
    var x := WithTask(r, k, target, None, now);
    WithTaskAnswer(r, k, target, None, clock, now);
    FollowsStatuses(r.workTypes, x.assignments, Restatused(r, k, target), r.status, InProgress);
    FollowsOnce(r.workTypes, x.assignments, r.status, x.status, InProgress);
  }

  lemma FollowsOnce(workTypes: seq<Id>, tasks: seq<Assignment>, was: RequestStatus, s: RequestStatus, t: RequestStatus)
    requires FollowsWork(workTypes, tasks, was, s)
    ensures FollowsWork(workTypes, tasks, was, t) <==> s == t
  {
    hide Has;
  }

  // -- Whose assignments ----------------------------------------------------

  predicate OwnsTask(w: World, id: Id, k: nat, owners: set<Id>) {
    id in w.requests && k < |w.requests[id].assignments| && w.requests[id].assignments[k].contractor in owners
  }

  /** A contractor's call moves an assignment of its own; any other is not found, and
      the world stays as it is. */
  lemma TaskCallAnswer(w: World, id: Id, k: nat, target: TaskStatus, owners: set<Id>, actorId: Option<Id>, comment: Option<string>,
                       resultMissing: bool, now: Time, touchedAt: Time)
    ensures var call := TaskCall(id, k, target, owners, actorId, comment, resultMissing);
            && (OwnsTask(w, id, k, owners) ==>
                  Called(w, call, now, touchedAt)
                  == ChangeAssignment(w.platform, w.requests[id], k, target, actorId, comment, resultMissing, now, touchedAt))
            && (!OwnsTask(w, id, k, owners) ==> Called(w, call, now, touchedAt) == Err(NotFound) && WorldAfter(w, call, now, touchedAt) == w)
  {
  }

  /** A call by which the contractor's assignment may come to another status. */
  predicate MovesOwn(call: RequestStep, id: Id, k: nat, contractor: Id, from': TaskStatus, to: TaskStatus) {
    || (call.TaskCall? && call.id == id && call.k == k && contractor in call.owners && call.task == to && TaskStep(from', to))
    || (call.AcceptCall? && call.id == id && contractor in call.owners && from' == Offered && to == Accepted)
  }

  /** The same assignment, at another status only by a call of its contractor. */
  predicate OwnMove(a: Assignment, b: Assignment, call: RequestStep, id: Id, k: nat) {
    && b.contractor == a.contractor && b.workType == a.workType
    && (b.status != a.status ==> MovesOwn(call, id, k, a.contractor, a.status, b.status))
  }

  lemma CallMovesOwn(w: World, v: nat, first: Id, call: RequestStep, clock: Time, now: Time, touchedAt: Time, k: nat)
    requires WorldOk(w, v, first, clock) && clock <= now && !call.Elsewhere? && !call.CreateCall? && call.id in w.requests
    requires k < |w.requests[call.id].assignments| && Called(w, call, now, touchedAt).Ok?
    ensures var x := Called(w, call, now, touchedAt).value.request;
            k < |x.assignments| && OwnMove(w.requests[call.id].assignments[k], x.assignments[k], call, call.id, k)
  {
    hide PlatformOk, Hosts, Agrees, SelfOk, Kept, RequestService.Publish, ChangeStatus, ChangeAssignment, Accept, Update, TaskStep, FollowsWork;
    var p := w.platform;
    var r := w.requests[call.id];
    match call
    case PublishCall(_, ref, actor) => PublishAssigns(p, v, first, r, ref, actor, clock, now, touchedAt);
    case UpdateCall(_, patch) => UpdateKeepsTasks(r, patch, clock);
    case StatusCall(_, target, actor, comment) => StatusKeepsTasks(p, r, target, actor, comment, now, touchedAt);
    case TaskCall(_, j, target, owners, actorId, comment, missing) =>
      TaskCallAnswer(w, call.id, j, target, owners, actorId, comment, missing, now, touchedAt);
      TaskAnswer(p, v, first, r, j, target, actorId, comment, missing, clock, now, touchedAt);
    case AcceptCall(_, owners, actorId) =>
      AcceptLaw(p, v, first, r, owners, actorId, clock, now, touchedAt);
  }

  lemma UpdateKeepsTasks(r: Request, patch: RequestPatch, clock: Time)
    requires SelfOk(r, clock) && Update(r, patch).Ok?
    ensures Update(r, patch).value.assignments == r.assignments
  {
    hide Update, TypesApart, Distinct;
    UpdateWellAssigned(r, patch);
  }

  lemma StatusKeepsTasks(p: Platform, r: Request, target: RequestStatus, actor: Actor, comment: Option<string>, now: Time, touchedAt: Time)
    requires ChangeStatus(p, r, target, actor, comment, now, touchedAt).Ok?
    ensures ChangeStatus(p, r, target, actor, comment, now, touchedAt).value.request.assignments == r.assignments
  {
    hide ExecuteStatus, Sync;
  }

  lemma StepMovesOwn(w: World, v: nat, first: Id, call: RequestStep, clock: Time, now: Time, touchedAt: Time, id: Id, k: nat)
    requires WorldOk(w, v, first, clock) && clock <= now && id in w.requests && k < |w.requests[id].assignments|
    ensures var w2 := WorldAfter(w, call, now, touchedAt);
            id in w2.requests && k < |w2.requests[id].assignments|
            && OwnMove(w.requests[id].assignments[k], w2.requests[id].assignments[k], call, id, k)
  {
    hide WorldOk, Called, MovesOwn, Generic, After;
    if !call.Elsewhere? && Called(w, call, now, touchedAt).Ok? && call.id == id {
      CreatesFresh(w, call, now, touchedAt);
      CallMovesOwn(w, v, first, call, clock, now, touchedAt, k);
    }
  }

  lemma CreatesFresh(w: World, call: RequestStep, now: Time, touchedAt: Time)
    requires !call.Elsewhere? && call.id in w.requests && Called(w, call, now, touchedAt).Ok?
    ensures !call.CreateCall?
  {
  }

  predicate SomeMovesOwn(calls: seq<TimedCall>, id: Id, k: nat, contractor: Id) {
    exists n :: 0 <= n < |calls| && (exists s, t :: MovesOwn(calls[n].call, id, k, contractor, s, t))
  }

  /** Over every run no assignment is lost or handed to another contractor, and it comes to
      another status only by calls of its own contractor. */
  lemma {:induction false} OnlyOwnersMove(w: World, v: nat, first: Id, t: Time, calls: seq<TimedCall>, id: Id, k: nat)
    requires WorldOk(w, v, first, t) && id in w.requests && k < |w.requests[id].assignments|
    ensures var w2 := WorldRun(w, t, calls);
            id in w2.requests && k < |w2.requests[id].assignments|
            && var a, b := w.requests[id].assignments[k], w2.requests[id].assignments[k];
               b.contractor == a.contractor && b.workType == a.workType
               && (b.status != a.status ==> SomeMovesOwn(calls, id, k, a.contractor))
  {
    hide WorldOk, WorldAfter, MovesOwn;
    if calls != [] {
      var n := |calls| - 1;
      var c := calls[n];
      var before := WorldRun(w, t, calls[..n]);
      var clock, now := CallClock(t, calls[..n]), CallClock(t, calls);
      OnlyOwnersMove(w, v, first, t, calls[..n], id, k);
      WorldRunKeeps(w, v, first, t, calls[..n]);
      StepMovesOwn(before, v, first, c.call, clock, now, c.touchedAt, id, k);
      var a := w.requests[id].assignments[k];
      if SomeMovesOwn(calls[..n], id, k, a.contractor) {
        var m :| 0 <= m < n && (exists s, u :: MovesOwn(calls[..n][m].call, id, k, a.contractor, s, u));
        assert calls[..n][m] == calls[m];
      }
    }
  }
}
