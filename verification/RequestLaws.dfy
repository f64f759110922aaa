/** What one call does to a request and to its workflow instance. */
module RequestLaws {
  import opened Wrappers
  import opened JsonScrubber
  import opened WorkflowModel
  import opened WorkflowEngine
  import opened EngineLaws
  import opened ContractorRequests
  import opened RequestRules
  import opened RequestBridge
  import opened BridgeLaws
  import opened RequestService

  // -- The request by itself ------------------------------------------------

  lemma SelfDated(r: Request, clock: Time)
    requires SelfOk(r, clock)
    ensures Dated(r)
  {
  }

  /** The history leads to the status, assignments are in order, and the moves made
      so far are paid for by the ranks lost. */
  ghost predicate SelfOk(r: Request, clock: Time) {
    && Fold(r.history) == Some(Some(r.status)) && WellAssigned(r) && Dated(r)
    && (r.status == New ==> r.assignments == [])
    && (r.assignments != [] && !SomeActive(r.assignments) ==> r.status == Cancelled)
    && (forall a :: a in r.assignments ==> Stamped(a, clock))
    && TaskMoves(r.history) + TotalRank(r.assignments) <= 3 * |r.assignments|
  }

  /** Work types and the times that do not concern the assignments are free. */
  lemma LoggedOk(r: Request, e: HistoryEntry, status: RequestStatus, clock: Time, now: Time)
    requires SelfOk(r, clock) && clock <= now
    requires e.oldStatus.Some? ==> e.oldStatus == Some(r.status)
    requires e.newStatus == Some(status) && e.event !in {AssignmentAcceptedEvent, AssignmentStatusChangedEvent}
    requires status == Draft ==> r.status == Draft
    requires status == New ==> r.assignments == []
    requires r.assignments != [] && !SomeActive(r.assignments) ==> status == Cancelled
    ensures forall x: Request :: (x.status == status && x.history == r.history + [e] && x.assignments == r.assignments
                                  && x.workTypes == r.workTypes && Dated(x)) ==> SelfOk(x, now)
  {
    HistoryAppend(r.history, e);
  }

  lemma EdgesOutward(from': RequestStatus, to: RequestStatus)
    requires to in NextStatuses(from')
    ensures from' != to && to != Draft && (to == New ==> from' == Draft) && from' != Cancelled
  {
  }

  lemma ApplyStatusOk(r: Request, target: RequestStatus, event: HistoryEvent, comment: Option<string>, clock: Time, now: Time)
    requires SelfOk(r, clock) && clock <= now && event !in {AssignmentAcceptedEvent, AssignmentStatusChangedEvent}
    requires target in NextStatuses(r.status)
    ensures var x := ApplyStatus(r, target, event, comment, now);
            && SelfOk(x, now) && x.id == r.id && x.status == target && target != r.status
            && Continues(r, x)
  {
    var e := HistoryEntry(event, Some(r.status), Some(target), comment);
    HistoryAppend(r.history, e);
    EdgesOutward(r.status, target);
    assert r.status in {New, Draft} || target !in {New, Draft};
    hide NextStatuses, Fold, StatusChanges, TaskMoves, TotalRank, Stamped, SomeActive, TypesApart, Distinct;
    LoggedOk(r, e, target, clock, now);
  }

  lemma UpdateOk(r: Request, patch: RequestPatch, clock: Time, now: Time)
    requires SelfOk(r, clock) && clock <= now && Update(r, patch).Ok?
    ensures var x := Update(r, patch).value;
            && SelfOk(x, now) && x.id == r.id && x.status == r.status && Continues(r, x)
  {
    UpdateWellAssigned(r, patch);
    HistoryAppend(r.history, HistoryEntry(UpdatedEvent, Some(r.status), Some(r.status), None));
  }

  // -- Publication ----------------------------------------------------------

  function Offer(r: Request, ref: Reference): Request
    requires r.city.Some? && r.facility.Some?
  {
    AssignTypes(r, ref.responsibilities, r.city.value, r.facility.value, |r.workTypes|)
  }

  lemma OfferKeeps(r: Request, ref: Reference, clock: Time, now: Time)
    requires SelfOk(r, clock) && clock <= now && r.city.Some? && r.facility.Some?
    ensures var x := Offer(r, ref);
            && x == r.(assignments := x.assignments, history := x.history)
            && Fold(x.history) == Fold(r.history) && StatusChanges(x.history) == StatusChanges(r.history)
            && TypesApart(x.assignments) && r.assignments <= x.assignments
            && (forall a :: a in x.assignments ==> a.workType in r.workTypes && Stamped(a, now))
            && TaskMoves(x.history) + TotalRank(x.assignments) <= 3 * |x.assignments|
            && (forall k :: |r.assignments| <= k < |x.assignments| ==> x.assignments[k].status == Offered)
  {
    hide AssignTypes, FindContractor, Fold, StatusChanges, TaskMoves, TotalRank;
    var x := Offer(r, ref);
    assert r.workTypes[..|r.workTypes|] == r.workTypes;
    AssignTypesAdds(r, ref.responsibilities, r.city.value, r.facility.value, |r.workTypes|);
    AssignTypesHistory(r, ref.responsibilities, r.city.value, r.facility.value, |r.workTypes|);
    SilentEntries(r.history, x.history);
    RankOfOffers(x.assignments, |r.assignments|);
    assert x.assignments[..|r.assignments|] == r.assignments;
    forall a | a in x.assignments ensures a.workType in r.workTypes && Stamped(a, now) {
      var k :| 0 <= k < |x.assignments| && x.assignments[k] == a;
      assert a.workType in TypeSet(x.assignments);
      if k < |r.assignments| {
        assert a == r.assignments[k] && a in r.assignments;
      }
    }
  }

  /** NEW is published exactly when nothing is covered, so when nothing is active. */
  lemma PublishedStatus(r: Request)
    requires forall a :: a in r.assignments ==> a.workType in r.workTypes
    ensures StatusAfterPublish(r) in {New, PartiallyAssigned, Assigned}
    ensures StatusAfterPublish(r) == New && r.workTypes != [] <==> r.workTypes != [] && !SomeActive(r.assignments)
  {
    if SomeActive(r.assignments) {
      var a :| a in r.assignments && Active(a);
      assert Covers(a, a.workType);
      assert a.workType in r.workTypes;
    }
    forall w | Covered(r.assignments, w) ensures SomeActive(r.assignments) {
      var a :| a in r.assignments && Covers(a, w);
      assert Active(a);
    }
  }

  /** The request as a publication leaves it. */
  function PublishedRequest(r: Request, ref: Reference, now: Time): Request
    requires r.city.Some? && r.facility.Some?
  {
    var offered := Offer(r, ref);
    var status := StatusAfterPublish(offered);
    AddHistory(ApplyStatus(offered, status, PublishedEvent, None, now), PublishedEvent, None, Some(status), None)
  }

  lemma PublishedHistory(r: Request, status: RequestStatus, now: Time)
    requires Fold(r.history) == Some(Some(r.status)) && status in {New, PartiallyAssigned, Assigned}
    ensures var x := AddHistory(ApplyStatus(r, status, PublishedEvent, None, now), PublishedEvent, None, Some(status), None);
            && Fold(x.history) == Some(Some(status)) && TaskMoves(x.history) == TaskMoves(r.history)
            && Continues(r, x)
            && x.status == status && x.assignments == r.assignments && x.workTypes == r.workTypes && x.id == r.id && (Dated(r) ==> Dated(x))
  {
    hide Fold, StatusChanges, TaskMoves;
    var changed := ApplyStatus(r, status, PublishedEvent, None, now);
    HistoryAppend(r.history, HistoryEntry(PublishedEvent, Some(r.status), Some(status), None));
    HistoryAppend(changed.history, HistoryEntry(PublishedEvent, None, Some(status), None));
  }

  lemma PublishedOk(r: Request, ref: Reference, clock: Time, now: Time)
    requires SelfOk(r, clock) && clock <= now && PublishError(r, ref).None? && r.status !in {Closed, Cancelled}
    ensures var x := PublishedRequest(r, ref, now); var status := StatusAfterPublish(Offer(r, ref));
            && SelfOk(x, now) && x.id == r.id && x.status == status
            && Continues(r, x)
  {
    hide Offer, StatusAfterPublish, Fold, StatusChanges, TaskMoves, TotalRank, ScopeError, ApplyStatus;
    OfferKeeps(r, ref, clock, now);
    var offered := Offer(r, ref);
    var status := StatusAfterPublish(offered);
    PublishedStatus(offered);
    PublishedHistory(offered, status, now);
    if !SomeActive(offered.assignments) && offered.assignments != [] {
      OnlyOffersAdded(r, offered);
    }
    SomeIsActive(offered.assignments);
  }

  lemma SomeIsActive(assignments: seq<Assignment>)
    ensures assignments == [] ==> !SomeActive(assignments)
  {
  }

  /** A publication of a live request leaves none without an active assignment. */
  lemma OnlyOffersAdded(r: Request, x: Request)
    requires r.assignments <= x.assignments && x.assignments != [] && !SomeActive(x.assignments)
    requires forall k :: |r.assignments| <= k < |x.assignments| ==> x.assignments[k].status == Offered
    ensures r.assignments != [] && !SomeActive(r.assignments)
  {
    if |x.assignments| > |r.assignments| {
      assert Active(x.assignments[|r.assignments|]);
    }
    assert x.assignments[..|r.assignments|] == r.assignments;
    assert forall a :: a in r.assignments ==> a in x.assignments;
  }

  // -- Assignments ----------------------------------------------------------

  /** The assignments after one of them moved. */
  lemma MovedAssignments(r: Request, k: nat, target: TaskStatus, clock: Time, now: Time)
    requires SelfOk(r, clock) && clock <= now && k < |r.assignments| && target in NextTaskStatuses(r.assignments[k].status)
    ensures var after := r.assignments[k := MoveTask(r.assignments[k], target, now)];
            && TypesApart(after) && TotalRank(after) < TotalRank(r.assignments)
            && (forall a :: a in after ==> Stamped(a, now) && a.workType in r.workTypes)
  {
    var a := MoveTask(r.assignments[k], target, now);
    var after := r.assignments[k := a];
    assert r.assignments[k] in r.assignments;
    MoveTaskStamped(r.assignments[k], target, clock, now);
    RankUpdate(r.assignments, k, a);
    hide Fold, TaskMoves, TotalRank, NextTaskStatuses, Rank;
    forall b | b in after ensures Stamped(b, now) && b.workType in r.workTypes {
      var j :| 0 <= j < |after| && after[j] == b;
      assert r.assignments[j] in r.assignments;
    }
  }

  lemma RecalculatedStatus(workTypes: seq<Id>, assignments: seq<Assignment>, current: RequestStatus)
    ensures Recalculated(workTypes, assignments, current) in {Cancelled, Completed, InProgress, Assigned, PartiallyAssigned, current}
    ensures assignments != [] && !SomeActive(assignments) ==> Recalculated(workTypes, assignments, current) == Cancelled
  {
    hide SomeActive, ActiveAll, Uncovered;
  }

  lemma RecalculatedDates(r: Request, now: Time)
    requires Dated(r)
    ensures Dated(Recalculate(r, now))
  {
  }

  lemma WithTaskOk(r: Request, k: nat, target: TaskStatus, comment: Option<string>, clock: Time, now: Time)
    requires SelfOk(r, clock) && clock <= now && k < |r.assignments| && target in NextTaskStatuses(r.assignments[k].status)
    ensures var x := WithTask(r, k, target, comment, now);
            && SelfOk(x, now) && x.id == r.id
            && Continues(r, x)
  {
    hide Fold, StatusChanges, TaskMoves, TotalRank, MoveTask, NextTaskStatuses, Recalculated, Stamped, TypesApart, SomeActive, Distinct,
      ActiveAll, Uncovered;
    var after := r.assignments[k := MoveTask(r.assignments[k], target, now)];
    var x := WithTask(r, k, target, comment, now);
    MovedAssignments(r, k, target, clock, now);
    RecalculatedStatus(r.workTypes, after, r.status);
    RecalculatedDates(r.(assignments := after), now);
    HistoryAppend(r.history, x.history[|r.history|]);
    assert x.assignments == after && x.history == r.history + [x.history[|r.history|]];
  }
}
