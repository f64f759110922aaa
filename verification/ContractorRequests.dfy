/** Contractor requests (models/requests.py, request_service.py): the rows, the
    status tables, and everything that only touches the request itself. */
module ContractorRequests {
  import opened Wrappers
  import opened WorkflowModel

  datatype RequestStatus = Draft | New | PartiallyAssigned | Assigned | InProgress | Completed | Closed | Cancelled

  datatype TaskStatus = Offered | Accepted | Working | Finished | Dropped
  // AssignmentStatus: ASSIGNED, ACCEPTED, IN_PROGRESS, COMPLETED, CANCELLED

  datatype HistoryEvent =
    | CreatedEvent | UpdatedEvent | PublishedEvent | StatusChangedEvent | AssignmentCreatedEvent | AssignmentAcceptedEvent
    | AssignmentStatusChangedEvent | ReopenedEvent | ClosedEvent | CancelledEvent

  datatype HistoryEntry = HistoryEntry(
    event: HistoryEvent, oldStatus: Option<RequestStatus>, newStatus: Option<RequestStatus>, comment: Option<string>)

  datatype Assignment = Assignment(
    contractor: Id, workType: Id, status: TaskStatus, acceptedAt: Option<Time>, completedAt: Option<Time>)

  datatype Request = Request(
    id: Id, city: Option<Id>, facility: Option<Id>, premise: Option<Id>,
    title: string, description: Option<string>, priority: Option<string>,
    workTypes: seq<Id>, assignments: seq<Assignment>, status: RequestStatus,
    createdAt: Time, completedAt: Option<Time>, closedAt: Option<Time>, history: seq<HistoryEntry>)

  // -- Status tables --------------------------------------------------------

  function NextStatuses(s: RequestStatus): set<RequestStatus> {
    match s
    case Draft => {New, PartiallyAssigned, Assigned}
    case New => {PartiallyAssigned, Assigned, Cancelled}
    case PartiallyAssigned => {Assigned, InProgress, Cancelled}
    case Assigned => {InProgress, Cancelled}
    case InProgress => {Completed, Cancelled}
    case Completed => {Closed, InProgress}
    case Closed => {}
    case Cancelled => {}
  }

  function NextTaskStatuses(s: TaskStatus): set<TaskStatus> {
    match s
    case Offered => {Accepted, Dropped}
    case Accepted => {Working, Dropped}
    case Working => {Finished, Dropped}
    case Finished => {}
    case Dropped => {}
  }

  // -- Reference data and the contractor search ------------------------------

  datatype Responsibility = Responsibility(
    contractor: Id, city: Option<Id>, facility: Option<Id>, workType: Id, priority: int, isActive: bool)

  /** The reference tables one call sees: existing cities, the city of each facility,
      the facility of each premise, active work types with their premise demand. */
  datatype Reference = Reference(
    cities: set<Id>, facilities: map<Id, Id>, premises: map<Id, Id>, workTypes: map<Id, bool>,
    responsibilities: seq<Responsibility>)

  /** The filters of the three queries, tried in order: facility, city, everywhere. */
  predicate InTier(r: Responsibility, tier: nat, city: Id, facility: Id) {
    if tier == 0 then r.facility == Some(facility)
    else if tier == 1 then r.city == Some(city) && r.facility.None?
    else r.city.None? && r.facility.None?
  }

  predicate Serves(r: Responsibility, workType: Id) {
    r.isActive && r.workType == workType
  }

  /** One query: the first row with the least priority. */
  function Query(rs: seq<Responsibility>, tier: nat, city: Id, facility: Id, workType: Id): (r: Option<Responsibility>)
    ensures r.Some? ==> r.value in rs && Serves(r.value, workType) && InTier(r.value, tier, city, facility)
    ensures forall x :: x in rs && Serves(x, workType) && InTier(x, tier, city, facility) ==>
              r.Some? && r.value.priority <= x.priority
  {
    if rs == [] then None
    else
      var n := |rs| - 1;
      var best := Query(rs[..n], tier, city, facility, workType);
      if Serves(rs[n], workType) && InTier(rs[n], tier, city, facility) && (best.None? || rs[n].priority < best.value.priority)
      then Some(rs[n]) else best
  }

  function FindContractor(rs: seq<Responsibility>, city: Id, facility: Id, workType: Id): Option<Responsibility> {
    var byFacility := Query(rs, 0, city, facility, workType);
    if byFacility.Some? then byFacility else
    var byCity := Query(rs, 1, city, facility, workType);
    if byCity.Some? then byCity else Query(rs, 2, city, facility, workType)
  }

  // -- Assignments ----------------------------------------------------------

  predicate Covers(a: Assignment, workType: Id) {
    a.workType == workType && a.status != Dropped
  }

  predicate Covered(assignments: seq<Assignment>, workType: Id) {
    exists a :: a in assignments && Covers(a, workType)
  }

  function Uncovered(workTypes: seq<Id>, assignments: seq<Assignment>): (r: seq<Id>)
    ensures forall w :: w in r <==> w in workTypes && !Covered(assignments, w)
    ensures |r| <= |workTypes|
    ensures |r| == |workTypes| <==> forall w :: w in workTypes ==> !Covered(assignments, w)
  {
    if workTypes == [] then []
    else
      var rest := Uncovered(workTypes[..|workTypes| - 1], assignments);
      var w := workTypes[|workTypes| - 1];
      if Covered(assignments, w) then rest else rest + [w]
  }

  /** `unassigned_work_type_ids`. */
  function Unassigned(r: Request): seq<Id> {
    Uncovered(r.workTypes, r.assignments)
  }

  predicate HasAssignment(assignments: seq<Assignment>, workType: Id) {
    exists a :: a in assignments && a.workType == workType
  }

  /** The loop of `create_assignments_for_request` over the first `n` work types;
      types that already had an assignment before the loop are skipped. */
  function AssignTypes(r: Request, rs: seq<Responsibility>, city: Id, facility: Id, n: nat): Request
    requires n <= |r.workTypes|
  {
    if n == 0 then r
    else
      var done := AssignTypes(r, rs, city, facility, n - 1);
      var w := r.workTypes[n - 1];
      if HasAssignment(r.assignments, w) then done
      else
        var found := FindContractor(rs, city, facility, w);
        if found.None? then done
        else done.(assignments := done.assignments + [Assignment(found.value.contractor, w, Offered, None, None)],
                   history := done.history + [HistoryEntry(AssignmentCreatedEvent, None, None, None)])
  }

  function StatusAfterPublish(r: Request): RequestStatus {
    var missing := Unassigned(r);
    if |missing| == |r.workTypes| then New
    else if missing != [] then PartiallyAssigned
    else Assigned
  }

  // -- Validation -----------------------------------------------------------

  /** `validate_request_scope`: the error it raises, if any. */
  function ScopeError(ref: Reference, city: Id, facility: Id, premise: Option<Id>, workTypes: seq<Id>): Option<Error> {
    if city !in ref.cities then Some(NotFound)
    else if facility !in ref.facilities then Some(NotFound)
    else if ref.facilities[facility] != city then Some(Unprocessable)
    else if exists w :: w in workTypes && w !in ref.workTypes then Some(NotFound)
    else if premise.None? && (exists w :: w in workTypes && ref.workTypes[w]) then Some(Unprocessable)
    else if premise.None? then None
    else if premise.value !in ref.premises then Some(NotFound)
    else if ref.premises[premise.value] != facility then Some(Unprocessable)
    else None
  }

  function PublishError(r: Request, ref: Reference): Option<Error> {
    if r.title == "" || !Given(r.description) || r.city.None? || r.facility.None? || r.workTypes == [] then Some(Unprocessable)
    else ScopeError(ref, r.city.value, r.facility.value, r.premise, r.workTypes)
  }

  // -- Status changes -------------------------------------------------------

  function AddHistory(r: Request, event: HistoryEvent, old': Option<RequestStatus>, new': Option<RequestStatus>,
                      comment: Option<string>): Request {
    r.(history := r.history + [HistoryEntry(event, old', new', comment)])
  }

  /** `apply_request_status`. */
  function ApplyStatus(r: Request, target: RequestStatus, event: HistoryEvent, comment: Option<string>, now: Time): Request {
    if r.status == target then r
    else
      var reopened := r.status == Completed && target == InProgress;
      AddHistory(r.(status := target,
                    completedAt := if reopened then None else if target == Completed then Some(now) else r.completedAt,
                    closedAt := if reopened then None else if target == Closed then Some(now) else r.closedAt),
                 event, Some(r.status), Some(target), comment)
  }

  predicate Active(a: Assignment) {
    a.status != Dropped
  }

  predicate SomeActive(assignments: seq<Assignment>) {
    exists a :: a in assignments && Active(a)
  }

  predicate ActiveAll(assignments: seq<Assignment>, s: TaskStatus) {
    forall a :: a in assignments && Active(a) ==> a.status == s
  }

  /** The status `recalculate_request_status_from_assignments` arrives at. */
  function Recalculated(workTypes: seq<Id>, assignments: seq<Assignment>, current: RequestStatus): RequestStatus {
    var missing := Uncovered(workTypes, assignments);
    if assignments != [] && !SomeActive(assignments) then Cancelled
    else if SomeActive(assignments) && missing == [] && ActiveAll(assignments, Finished) then Completed
    else if exists a :: a in assignments && a.status in {Accepted, Working} then InProgress
    else if SomeActive(assignments) && missing == [] && ActiveAll(assignments, Offered) then Assigned
    else if missing != [] then PartiallyAssigned
    else current
  }

  function Recalculate(r: Request, now: Time): Request {
    var status := Recalculated(r.workTypes, r.assignments, r.status);
    var finished := SomeActive(r.assignments) && Unassigned(r) == [] && ActiveAll(r.assignments, Finished);
    r.(status := status, completedAt := if finished && r.completedAt.None? then Some(now) else r.completedAt)
  }

  /** The row update of `change_assignment_status`. */
  function MoveTask(a: Assignment, target: TaskStatus, now: Time): Assignment {
    a.(status := target,
       acceptedAt := if target == Accepted && a.acceptedAt.None? then Some(now) else a.acceptedAt,
       completedAt := if target == Finished then Some(now) else a.completedAt)
  }

  /** A request after one of its assignments moved, with the history entry. */
  function WithTask(r: Request, k: nat, target: TaskStatus, comment: Option<string>, now: Time): Request
    requires k < |r.assignments|
  {
    var moved := Recalculate(r.(assignments := r.assignments[k := MoveTask(r.assignments[k], target, now)]), now);
    AddHistory(moved, if target == Accepted then AssignmentAcceptedEvent else AssignmentStatusChangedEvent,
               Some(r.status), Some(moved.status), comment)
  }

  // -- Editing --------------------------------------------------------------

  datatype RequestPatch = RequestPatch(
    title: Patch<string>, description: Patch<Option<string>>, priority: Patch<Option<string>>,
    city: Patch<Option<Id>>, facility: Patch<Option<Id>>, premise: Patch<Option<Id>>, workTypes: Patch<seq<Id>>)

  predicate Distinct(ids: seq<Id>) {
    forall i, j :: 0 <= i < j < |ids| ==> ids[i] != ids[j]
  }

  predicate TouchesScope(p: RequestPatch) {
    p.city.Set? || p.facility.Set? || p.premise.Set? || p.workTypes.Set?
  }

  predicate Changes(r: Request, p: RequestPatch) {
    || p.title.Or(r.title) != r.title || p.description.Or(r.description) != r.description
    || p.priority.Or(r.priority) != r.priority || p.city.Or(r.city) != r.city
    || p.facility.Or(r.facility) != r.facility || p.premise.Or(r.premise) != r.premise
    || p.workTypes.Or(r.workTypes) != r.workTypes
  }

  /** `update_contractor_request`, with the payload schema in front. */
  function Update(r: Request, p: RequestPatch): Result<Request> {
    if p.workTypes.Set? && (p.workTypes.value == [] || !Distinct(p.workTypes.value)) then Err(Unprocessable)
    else if p.title == Set("") then Err(Unprocessable)
    else if r.status in {Closed, Cancelled} then Err(Conflict)
    else if r.status != Draft && TouchesScope(p) then Err(Conflict)
    else if !Changes(r, p) then Ok(r)
    else
      var edited := r.(title := p.title.Or(r.title), description := p.description.Or(r.description),
                       priority := p.priority.Or(r.priority), city := p.city.Or(r.city),
                       facility := p.facility.Or(r.facility), premise := p.premise.Or(r.premise),
                       workTypes := p.workTypes.Or(r.workTypes),
                       assignments := if p.workTypes.Set? then [] else r.assignments);
      Ok(AddHistory(edited, UpdatedEvent, Some(r.status), Some(r.status), None))
  }
}
