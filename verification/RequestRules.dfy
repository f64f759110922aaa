/** Laws of contractor requests that do not involve the workflow engine. */
module RequestRules {
  import opened Wrappers
  import opened WorkflowModel
  import opened ContractorRequests

  // -- The contractor search ------------------------------------------------

  /** How specific a responsibility is for a site: facility 0, city 1, everywhere 2. */
  function TierOf(r: Responsibility, city: Id, facility: Id): Option<nat> {
    if r.facility == Some(facility) then Some(0)
    else if r.facility.Some? then None
    else if r.city == Some(city) then Some(1)
    else if r.city.None? then Some(2)
    else None
  }

  predicate Eligible(r: Responsibility, city: Id, facility: Id, workType: Id) {
    Serves(r, workType) && TierOf(r, city, facility).Some?
  }

  predicate Before(a: Responsibility, b: Responsibility, city: Id, facility: Id)
    requires TierOf(a, city, facility).Some? && TierOf(b, city, facility).Some?
  {
    var s, t := TierOf(a, city, facility).value, TierOf(b, city, facility).value;
    s < t || (s == t && a.priority <= b.priority)
  }

  /** The three-stage search is one lexicographic minimum over (tier, priority), and
      finds nothing exactly when nothing is eligible. */
  lemma SearchIsMinimum(rs: seq<Responsibility>, city: Id, facility: Id, workType: Id)
    ensures var found := FindContractor(rs, city, facility, workType);
            && (found.None? <==> !exists x :: x in rs && Eligible(x, city, facility, workType))
            && (found.Some? ==>
                  && found.value in rs && Eligible(found.value, city, facility, workType)
                  && forall x :: x in rs && Eligible(x, city, facility, workType) ==> Before(found.value, x, city, facility))
  {
  }

  // -- The assignment invariant ---------------------------------------------

  predicate TypesApart(assignments: seq<Assignment>) {
    forall i, j :: 0 <= i < j < |assignments| ==> assignments[i].workType != assignments[j].workType
  }

  /** One assignment at most per work type of the request, none in a draft. */
  ghost predicate WellAssigned(r: Request) {
    && Distinct(r.workTypes) && TypesApart(r.assignments)
    && (forall a :: a in r.assignments ==> a.workType in r.workTypes)
    && (r.status == Draft ==> r.assignments == [])
  }

  lemma UpdateWellAssigned(r: Request, p: RequestPatch)
    requires WellAssigned(r) && Update(r, p).Ok?
    ensures WellAssigned(Update(r, p).value) && Update(r, p).value.status == r.status
    ensures Update(r, p).value.assignments == r.assignments
  {
  }

  /** The payload is well formed, the request is not final, and its scope is touched in
      a draft only. */
  predicate Accepts(r: Request, p: RequestPatch) {
    && (p.workTypes.Set? ==> p.workTypes.value != [] && Distinct(p.workTypes.value)) && p.title != Set("")
    && r.status !in {Closed, Cancelled} && (TouchesScope(p) ==> r.status == Draft)
  }

  /** The given columns set, no other. */
  function Edited(r: Request, p: RequestPatch): Request {
    r.(title := p.title.Or(r.title), description := p.description.Or(r.description), priority := p.priority.Or(r.priority),
       city := p.city.Or(r.city), facility := p.facility.Or(r.facility), premise := p.premise.Or(r.premise),
       workTypes := p.workTypes.Or(r.workTypes))
  }

  /** When an edit is accepted.  Then the given columns have the given values and nothing
      else changes but the history, by one entry if any column did change; and the same
      edit again changes nothing. */
  lemma UpdateIff(r: Request, p: RequestPatch)
    requires WellAssigned(r)
    ensures Update(r, p).Ok? <==> Accepts(r, p)
    ensures Update(r, p).Ok? ==>
              var x := Update(r, p).value;
              && x == Edited(r, p).(history := x.history) && r.history <= x.history
              && |x.history| == |r.history| + (if Edited(r, p) == r then 0 else 1)
              && Update(x, p) == Ok(x)
  {
    hide Distinct, TypesApart;
    if Update(r, p).Ok? {
      assert !Changes(Update(r, p).value, p);
    }
  }

  function Over<T>(first: Patch<T>, second: Patch<T>): Patch<T> {
    if second.Set? then second else first
  }

  /** The second edit over the first. */
  function Merge(p: RequestPatch, q: RequestPatch): RequestPatch {
    RequestPatch(Over(p.title, q.title), Over(p.description, q.description), Over(p.priority, q.priority), Over(p.city, q.city),
                 Over(p.facility, q.facility), Over(p.premise, q.premise), Over(p.workTypes, q.workTypes))
  }

  lemma EditedMerges(r: Request, p: RequestPatch, q: RequestPatch)
    ensures Edited(Edited(r, p), q) == Edited(r, Merge(p, q))
  {
  }

  lemma EditedHistory(r: Request, p: RequestPatch, history: seq<HistoryEntry>)
    ensures Edited(r.(history := history), p) == Edited(r, p).(history := history)
  {
  }

  /** Two accepted edits leave what the one merged edit leaves, but for the history. */
  lemma UpdateMerges(r: Request, p: RequestPatch, q: RequestPatch)
    requires WellAssigned(r) && Update(r, p).Ok? && Update(Update(r, p).value, q).Ok?
    ensures Update(r, Merge(p, q)).Ok?
    ensures Update(r, Merge(p, q)).value.(history := []) == Update(Update(r, p).value, q).value.(history := [])
  {
    hide Update, WellAssigned, Edited, Merge, Accepts;
    var x := Update(r, p).value;
    UpdateIff(r, p);
    UpdateWellAssigned(r, p);
    UpdateIff(x, q);
    AcceptsMerged(r, x, p, q);
    UpdateIff(r, Merge(p, q));
    EditedMerges(r, p, q);
    EditedHistory(Edited(r, p), q, x.history);
  }

  lemma AcceptsMerged(r: Request, x: Request, p: RequestPatch, q: RequestPatch)
    requires x.status == r.status && Accepts(r, p) && Accepts(x, q)
    ensures Accepts(r, Merge(p, q))
  {
    hide Distinct;
  }

  function TypeSet(assignments: seq<Assignment>): set<Id> {
    set a | a in assignments :: a.workType
  }

  /** The work types that find a contractor. */
  function Served(workTypes: seq<Id>, rs: seq<Responsibility>, city: Id, facility: Id): set<Id> {
    set w | w in workTypes && FindContractor(rs, city, facility, w).Some?
  }

  lemma AppendType(assignments: seq<Assignment>, a: Assignment)
    requires TypesApart(assignments) && a.workType !in TypeSet(assignments)
    ensures TypesApart(assignments + [a]) && TypeSet(assignments + [a]) == TypeSet(assignments) + {a.workType}
  {
    forall i | 0 <= i < |assignments| ensures assignments[i].workType != a.workType {
      assert assignments[i] in assignments;
    }
    assert (assignments + [a])[|assignments|] == a;
    forall x | x in TypeSet(assignments) ensures x in TypeSet(assignments + [a]) {
      var b :| b in assignments && b.workType == x;
      assert b in assignments + [a];
    }
  }

  lemma ServedStep(workTypes: seq<Id>, n: nat, rs: seq<Responsibility>, city: Id, facility: Id)
    requires Distinct(workTypes) && 0 < n <= |workTypes|
    ensures var w := workTypes[n - 1]; var before := Served(workTypes[..n - 1], rs, city, facility);
            Served(workTypes[..n], rs, city, facility) == before + (if FindContractor(rs, city, facility, w).Some? then {w} else {})
            && w !in before
  {
  }

  lemma NothingServed(workTypes: seq<Id>, rs: seq<Responsibility>, city: Id, facility: Id)
    ensures Served(workTypes[..0], rs, city, facility) == {}
  {
  }

  /** The contractor of an assignment is the one the search finds for its work type. */
  predicate OfferedTo(a: Assignment, rs: seq<Responsibility>, city: Id, facility: Id) {
    var found := FindContractor(rs, city, facility, a.workType);
    found.Some? && found.value.contractor == a.contractor
  }

  /** Publishing keeps every assignment there was and adds one, offered to the
      contractor found, for exactly the never-assigned work types that find one. */
  lemma {:induction false} AssignTypesAdds(r: Request, rs: seq<Responsibility>, city: Id, facility: Id, n: nat)
    requires Distinct(r.workTypes) && TypesApart(r.assignments) && n <= |r.workTypes|
    ensures var done := AssignTypes(r, rs, city, facility, n);
            && done == r.(assignments := done.assignments, history := done.history)
            && r.assignments <= done.assignments && TypesApart(done.assignments)
            && TypeSet(done.assignments) == TypeSet(r.assignments) + Served(r.workTypes[..n], rs, city, facility)
            && forall k :: |r.assignments| <= k < |done.assignments| ==>
                 done.assignments[k].status == Offered && done.assignments[k].acceptedAt.None?
                 && done.assignments[k].completedAt.None? && done.assignments[k].workType !in TypeSet(r.assignments)
                 && OfferedTo(done.assignments[k], rs, city, facility)
  {
    NothingServed(r.workTypes, rs, city, facility);
    hide FindContractor, Distinct, Served, TypesApart;
    if n > 0 {
      AssignTypesAdds(r, rs, city, facility, n - 1);
      ServedStep(r.workTypes, n, rs, city, facility);
      var before := AssignTypes(r, rs, city, facility, n - 1);
      var w := r.workTypes[n - 1];
      assert HasAssignment(r.assignments, w) <==> w in TypeSet(r.assignments);
      var found := FindContractor(rs, city, facility, w);
      if !HasAssignment(r.assignments, w) && found.Some? {
        AppendType(before.assignments, Assignment(found.value.contractor, w, Offered, None, None));
      }
    }
  }

  lemma {:induction false} AssignTypesHistory(r: Request, rs: seq<Responsibility>, city: Id, facility: Id, n: nat)
    requires n <= |r.workTypes|
    ensures var done := AssignTypes(r, rs, city, facility, n);
            r.history <= done.history
            && forall k :: |r.history| <= k < |done.history| ==>
                 done.history[k] == HistoryEntry(AssignmentCreatedEvent, None, None, None)
  {
    if n > 0 {
      AssignTypesHistory(r, rs, city, facility, n - 1);
    }
  }

  // -- Recalculation --------------------------------------------------------

  lemma RecalculateIdempotent(r: Request, now: Time, later: Time)
    ensures Recalculate(Recalculate(r, now), later) == Recalculate(r, now)
  {
  }

  lemma {:induction false} UncoveredByMembership(workTypes: seq<Id>, a: seq<Assignment>, b: seq<Assignment>)
    requires forall x :: x in a <==> x in b
    ensures Uncovered(workTypes, a) == Uncovered(workTypes, b)
  {
    if workTypes != [] {
      UncoveredByMembership(workTypes[..|workTypes| - 1], a, b);
    }
  }

  /** The outcome does not depend on the order of the assignments. */
  lemma RecalculateAnyOrder(r: Request, other: seq<Assignment>, now: Time)
    requires multiset(other) == multiset(r.assignments)
    ensures Recalculate(r.(assignments := other), now) == Recalculate(r, now).(assignments := other)
  {
    forall x ensures x in other <==> x in r.assignments {
      assert x in multiset(other) <==> x in multiset(r.assignments);
    }
    UncoveredByMembership(r.workTypes, other, r.assignments);
    assert |multiset(other)| == |other| && |multiset(r.assignments)| == |r.assignments|;
  }

  lemma Head<T>(xs: seq<T>)
    ensures xs == [] || xs[0] in xs
  {
  }

  predicate Done(assignments: seq<Assignment>, workType: Id) {
    exists a :: a in assignments && a.workType == workType && a.status == Finished
  }

  lemma SameType(assignments: seq<Assignment>, a: Assignment, b: Assignment)
    requires TypesApart(assignments) && a in assignments && b in assignments && a.workType == b.workType
    ensures a == b
  {
  }

  /** The COMPLETED branch of recalculation. */
  predicate AllFinished(r: Request) {
    SomeActive(r.assignments) && Unassigned(r) == [] && ActiveAll(r.assignments, Finished)
  }

  /** It fires exactly when there is work and every work type has a completed
      assignment; a request not COMPLETED before becomes so by it alone. */
  lemma CompletedIff(r: Request)
    requires WellAssigned(r)
    ensures AllFinished(r) <==> r.workTypes != [] && forall w :: w in r.workTypes ==> Done(r.assignments, w)
    ensures AllFinished(r) ==> Recalculated(r.workTypes, r.assignments, r.status) == Completed
    ensures r.status != Completed ==>
              (Recalculated(r.workTypes, r.assignments, r.status) == Completed <==> AllFinished(r))
  {
    var missing := Unassigned(r);
    if r.workTypes != [] && forall w :: w in r.workTypes ==> Done(r.assignments, w) {
      forall a | a in r.assignments ensures a.status == Finished {
        assert Done(r.assignments, a.workType);
        var b :| b in r.assignments && b.workType == a.workType && b.status == Finished;
        SameType(r.assignments, a, b);
      }
      forall w | w in r.workTypes ensures Covered(r.assignments, w) {
        var b :| b in r.assignments && b.workType == w && b.status == Finished;
        assert Covers(b, w);
      }
      Head(missing);
      assert Done(r.assignments, r.workTypes[0]);
    }
    if AllFinished(r) {
      forall w | w in r.workTypes ensures Done(r.assignments, w) {
        assert w !in missing;
        var a :| a in r.assignments && Covers(a, w);
        assert Active(a);
      }
    }
  }

  /** After `change_assignment_status` has set its target, recalculation never
      takes its ASSIGNED branch: the moved assignment is not ASSIGNED, and if it was
      dropped its work type is uncovered. */
  lemma AssignedBranchUnreached(r: Request, k: nat, target: TaskStatus, now: Time)
    requires WellAssigned(r) && k < |r.assignments| && target in NextTaskStatuses(r.assignments[k].status)
    ensures var after := r.assignments[k := MoveTask(r.assignments[k], target, now)];
            !(SomeActive(after) && Uncovered(r.workTypes, after) == [] && ActiveAll(after, Offered))
  {
  }

  // -- The first publication ------------------------------------------------

  /** The status a publication of a fresh draft chooses is a fixpoint of
      recalculation exactly when at least one work type found a contractor. */
  lemma FirstPublishFixpointIff(r: Request, rs: seq<Responsibility>, city: Id, facility: Id)
    requires WellAssigned(r) && r.status == Draft && r.workTypes != []
    ensures var done := AssignTypes(r, rs, city, facility, |r.workTypes|);
            var status := StatusAfterPublish(done);
            Recalculated(done.workTypes, done.assignments, status) == status
            <==> Served(r.workTypes, rs, city, facility) != {}
  {
    AssignTypesAdds(r, rs, city, facility, |r.workTypes|);
    var done := AssignTypes(r, rs, city, facility, |r.workTypes|);
    assert r.workTypes[..|r.workTypes|] == r.workTypes;
    var served := Served(r.workTypes, rs, city, facility);
    assert TypeSet(done.assignments) == served by {
      assert TypeSet(r.assignments) == {};
    }
    hide FindContractor, AssignTypes, Recalculated, StatusAfterPublish, TypesApart, WellAssigned;
    forall a | a in done.assignments ensures a.status == Offered && a.workType in r.workTypes {
      assert a.workType in TypeSet(done.assignments);
    }
    AllOffered(done, served);
  }

  /** With every assignment offered: the published status is a fixpoint exactly when
      there is an assignment. */
  lemma AllOffered(r: Request, types: set<Id>)
    requires r.workTypes != [] && TypeSet(r.assignments) == types && forall a :: a in r.assignments ==> a.status == Offered
    requires forall a :: a in r.assignments ==> a.workType in r.workTypes
    ensures Recalculated(r.workTypes, r.assignments, StatusAfterPublish(r)) == StatusAfterPublish(r) <==> types != {}
  {
    var missing := Unassigned(r);
    forall w | w in r.workTypes ensures Covered(r.assignments, w) <==> w in types {
      if w in types {
        var a :| a in r.assignments && a.workType == w;
        assert Covers(a, w);
      }
    }
    if types != {} {
      var w :| w in types;
      var a :| a in r.assignments && a.workType == w;
      assert Active(a) && w in r.workTypes && Covered(r.assignments, w);
    } else {
      Head(r.assignments);
      assert forall a :: a in r.assignments ==> a.workType in types;
      assert r.workTypes[0] in missing;
    }
  }

  // -- Termination of the work on a request ---------------------------------

  function Rank(s: TaskStatus): nat {
    match s
    case Offered => 3
    case Accepted => 2
    case Working => 1
    case Finished => 0
    case Dropped => 0
  }

  function TotalRank(assignments: seq<Assignment>): nat {
    if assignments == [] then 0
    else TotalRank(assignments[..|assignments| - 1]) + Rank(assignments[|assignments| - 1].status)
  }

  lemma {:induction false} RankUpdate(assignments: seq<Assignment>, k: nat, a: Assignment)
    requires k < |assignments|
    ensures TotalRank(assignments[k := a]) == TotalRank(assignments) + Rank(a.status) - Rank(assignments[k].status)
  {
    var n := |assignments| - 1;
    if k < n {
      assert assignments[k := a][..n] == assignments[..n][k := a];
      RankUpdate(assignments[..n], k, a);
    } else {
      assert assignments[k := a][..n] == assignments[..n];
    }
  }

  lemma {:induction false} RankOfOffers(assignments: seq<Assignment>, n: nat)
    requires n <= |assignments| && forall k :: n <= k < |assignments| ==> assignments[k].status == Offered
    ensures TotalRank(assignments) == TotalRank(assignments[..n]) + 3 * (|assignments| - n)
  {
    if n < |assignments| {
      RankOfOffers(assignments[..|assignments| - 1], n);
      assert assignments[..|assignments| - 1][..n] == assignments[..n];
    } else {
      assert assignments[..n] == assignments;
    }
  }

  // -- Time stamps ----------------------------------------------------------

  /** completed_at is set exactly on completed assignments, after acceptance. */
  predicate Stamped(a: Assignment, clock: Time) {
    && (a.completedAt.Some? <==> a.status == Finished)
    && (a.status in {Accepted, Working, Finished} ==> a.acceptedAt.Some?)
    && (a.status == Offered ==> a.acceptedAt.None?)
    && (a.acceptedAt.Some? ==> a.acceptedAt.value <= clock)
    && (a.acceptedAt.Some? && a.completedAt.Some? ==> a.acceptedAt.value <= a.completedAt.value)
    && (a.completedAt.Some? ==> a.completedAt.value <= clock)
  }

  lemma MoveTaskStamped(a: Assignment, target: TaskStatus, clock: Time, now: Time)
    requires Stamped(a, clock) && clock <= now && target in NextTaskStatuses(a.status)
    ensures Stamped(MoveTask(a, target, now), now) && Rank(MoveTask(a, target, now).status) < Rank(a.status)
  {
  }

  // -- History --------------------------------------------------------------

  /** The status a history leads to; None when an entry with an old status does not
      continue the one before it. */
  function Fold(history: seq<HistoryEntry>): Option<Option<RequestStatus>> {
    if history == [] then Some(None)
    else
      var before := Fold(history[..|history| - 1]);
      var e := history[|history| - 1];
      if before.None? || (e.oldStatus.Some? && e.oldStatus != before.value) then None
      else if e.newStatus.Some? then Some(e.newStatus)
      else before
  }

  predicate StatusChange(e: HistoryEntry) {
    e.oldStatus.Some? && e.newStatus.Some? && e.oldStatus != e.newStatus
  }

  /** The status changes of a history: from where and to where. */
  function StatusChanges(history: seq<HistoryEntry>): seq<(RequestStatus, RequestStatus)> {
    if history == [] then []
    else
      var e := history[|history| - 1];
      StatusChanges(history[..|history| - 1]) + (if StatusChange(e) then [(e.oldStatus.value, e.newStatus.value)] else [])
  }

  function ChangeCount(history: seq<HistoryEntry>): nat {
    |StatusChanges(history)|
  }

  /** The history of `x` continues that of `r` by the one change of status, if any. */
  predicate Continues(r: Request, x: Request) {
    if x.status == r.status then StatusChanges(x.history) == StatusChanges(r.history)
    else StatusChanges(x.history) == StatusChanges(r.history) + [(r.status, x.status)]
  }

  /** How often an assignment was moved. */
  function TaskMoves(history: seq<HistoryEntry>): nat {
    if history == [] then 0
    else
      TaskMoves(history[..|history| - 1])
      + (if history[|history| - 1].event in {AssignmentAcceptedEvent, AssignmentStatusChangedEvent} then 1 else 0)
  }

  lemma HistoryAppend(history: seq<HistoryEntry>, e: HistoryEntry)
    ensures StatusChanges(history + [e])
         == StatusChanges(history) + (if StatusChange(e) then [(e.oldStatus.value, e.newStatus.value)] else [])
    ensures TaskMoves(history + [e])
         == TaskMoves(history) + (if e.event in {AssignmentAcceptedEvent, AssignmentStatusChangedEvent} then 1 else 0)
    ensures Fold(history).Some? && (e.oldStatus.Some? ==> e.oldStatus == Fold(history).value) ==>
              Fold(history + [e]) == Some(if e.newStatus.Some? then e.newStatus else Fold(history).value)
  {
  }

  lemma {:induction false} SilentEntries(history: seq<HistoryEntry>, more: seq<HistoryEntry>)
    requires history <= more
    requires forall k :: |history| <= k < |more| ==> more[k] == HistoryEntry(AssignmentCreatedEvent, None, None, None)
    ensures Fold(more) == Fold(history) && StatusChanges(more) == StatusChanges(history) && TaskMoves(more) == TaskMoves(history)
  {
    if |more| > |history| {
      SilentEntries(history, more[..|more| - 1]);
    } else {
      assert more == history;
    }
  }
}
