/** contractor_request_workflow.py: the seeded workflow of contractor requests and
    the bridge that keeps its instance in step with the request. */
module RequestBridge {
  import opened Wrappers
  import opened JsonScrubber
  import opened WorkflowModel
  import opened WorkflowEngine
  import opened ContractorRequests

  const ENTITY_TYPE := "CONTRACTOR_REQUEST"
  const WORKFLOW_CODE := "CONTRACTOR_REQUEST"
  const INSTANCE_KEY := "default"

  // -- Tables ---------------------------------------------------------------

  function StatusCode(s: RequestStatus): string {
    match s
    case Draft => "DRAFT"
    case New => "NEW"
    case PartiallyAssigned => "PARTIALLY_ASSIGNED"
    case Assigned => "ASSIGNED"
    case InProgress => "IN_PROGRESS"
    case Completed => "COMPLETED"
    case Closed => "CLOSED"
    case Cancelled => "CANCELLED"
  }

  function TaskCode(s: TaskStatus): string {
    match s
    case Offered => "ASSIGNED"
    case Accepted => "ACCEPTED"
    case Working => "IN_PROGRESS"
    case Finished => "COMPLETED"
    case Dropped => "CANCELLED"
  }

  /** `RequestStatus(code)`; None is the ValueError. */
  function ParseStatus(code: string): Option<RequestStatus> {
    if code == "DRAFT" then Some(Draft)
    else if code == "NEW" then Some(New)
    else if code == "PARTIALLY_ASSIGNED" then Some(PartiallyAssigned)
    else if code == "ASSIGNED" then Some(Assigned)
    else if code == "IN_PROGRESS" then Some(InProgress)
    else if code == "COMPLETED" then Some(Completed)
    else if code == "CLOSED" then Some(Closed)
    else if code == "CANCELLED" then Some(Cancelled)
    else None
  }

  /** Position in APPROVED_REQUEST_STATE_CODES. */
  function IndexOf(s: RequestStatus): (k: nat)
    ensures k < 8 && StatusAt(k) == s
  {
    match s
    case Draft => 0
    case New => 1
    case PartiallyAssigned => 2
    case Assigned => 3
    case InProgress => 4
    case Completed => 5
    case Closed => 6
    case Cancelled => 7
  }

  function StatusAt(k: nat): RequestStatus
    requires k < 8
  {
    [Draft, New, PartiallyAssigned, Assigned, InProgress, Completed, Closed, Cancelled][k]
  }

  function StateTypeOf(s: RequestStatus): StateType {
    match s
    case Draft => InitialState
    case New => ActiveState
    case PartiallyAssigned => ActiveState
    case Assigned => ActiveState
    case InProgress => ActiveState
    case Completed => CompletedState
    case Closed => ClosedState
    case Cancelled => CancelledState
  }

  const EDGES := 15

  /** The k-th entry of REQUEST_TRANSITION_CODES: its two statuses. */
  function EdgeAt(k: nat): (RequestStatus, RequestStatus)
    requires k < EDGES
  {
    [(Draft, New), (Draft, PartiallyAssigned), (Draft, Assigned), (New, PartiallyAssigned), (New, Assigned), (New, Cancelled),
     (PartiallyAssigned, Assigned), (PartiallyAssigned, InProgress), (PartiallyAssigned, Cancelled), (Assigned, InProgress),
     (Assigned, Cancelled), (InProgress, Completed), (InProgress, Cancelled), (Completed, Closed), (Completed, InProgress)][k]
  }

  function EdgeCode(k: nat): string
    requires k < EDGES
  {
    if k == 0 then "PUBLISH_TO_NEW"
    else if k == 1 then "PUBLISH_TO_PARTIALLY_ASSIGNED"
    else if k == 2 then "PUBLISH_TO_ASSIGNED"
    else if k == 3 then "ASSIGN_PARTIALLY"
    else if k == 4 then "ASSIGN"
    else if k == 5 then "CANCEL_FROM_NEW"
    else if k == 6 then "ASSIGN_REMAINING"
    else if k == 7 then "START_WORK_FROM_PARTIALLY_ASSIGNED"
    else if k == 8 then "CANCEL_FROM_PARTIALLY_ASSIGNED"
    else if k == 9 then "START_WORK"
    else if k == 10 then "CANCEL_FROM_ASSIGNED"
    else if k == 11 then "COMPLETE"
    else if k == 12 then "CANCEL_FROM_IN_PROGRESS"
    else if k == 13 then "CLOSE"
    else "REOPEN"
  }

  function EdgePermission(k: nat): Option<string> {
    if k <= 2 then Some("requests.publish")
    else if k in {3, 4, 6} then Some("requests.update")
    else if k == 13 then Some("requests.close")
    else if k == 14 then Some("requests.change_status")
    else None
  }

  function EdgeAllowed(k: nat): set<string> {
    if k in {7, 9} then {"requests.change_status", "contractor.requests.update_status", "contractor.requests.accept"}
    else if k in {5, 8, 10, 11, 12} then {"requests.change_status", "contractor.requests.update_status"}
    else {}
  }

  /** `transition_code_for_status_change`, as a position in the table. */
  function EdgeOf(from': RequestStatus, to: RequestStatus): (r: Option<nat>)
    ensures r.Some? ==> r.value < EDGES && EdgeAt(r.value) == (from', to)
    ensures r.Some? <==> to in NextStatuses(from')
  {
    match from'
    case Draft => if to == New then Some(0) else if to == PartiallyAssigned then Some(1) else if to == Assigned then Some(2) else None
    case New => if to == PartiallyAssigned then Some(3) else if to == Assigned then Some(4) else if to == Cancelled then Some(5) else None
    case PartiallyAssigned =>
      if to == Assigned then Some(6) else if to == InProgress then Some(7) else if to == Cancelled then Some(8) else None
    case Assigned => if to == InProgress then Some(9) else if to == Cancelled then Some(10) else None
    case InProgress => if to == Completed then Some(11) else if to == Cancelled then Some(12) else None
    case Completed => if to == Closed then Some(13) else if to == InProgress then Some(14) else None
    case Closed => None
    case Cancelled => None
  }

  // -- The seeded definition ------------------------------------------------

  function SeedState(k: nat, first: Id): State
    requires k < 8
  {
    var s := StatusAt(k);
    State(first + k, StatusCode(s), StatusCode(s), StateTypeOf(s), (k + 1) * 10, s == Draft, s in {Closed, Cancelled}, true)
  }

  function SeedTransition(k: nat, first: Id): Transition
    requires k < EDGES
  {
    Transition(first + 8 + k, EdgeCode(k), EdgeCode(k), first + IndexOf(EdgeAt(k).0), first + IndexOf(EdgeAt(k).1),
               EdgePermission(k), false, false, (k + 1) * 10, true,
               Some(Configuration({"allowed_actor_types", "allowed_permissions"}, [],
                                  {"INTERNAL_USER", "CONTRACTOR_USER"}, EdgeAllowed(k))))
  }

  /** What `seed_contractor_request_workflow_definition` leaves in the tables. */
  function Seeded(first: Id): Definition {
    Definition(WORKFLOW_CODE, "Contractor Request", ENTITY_TYPE, 1, true, true,
               seq(8, k requires 0 <= k < 8 => SeedState(k, first)),
               seq(EDGES, k requires 0 <= k < EDGES => SeedTransition(k, first)), [])
  }

  function DefinitionV1(defs: seq<Definition>): Option<nat> {
    FirstWhere(defs, (d: Definition) => d.code == WORKFLOW_CODE && d.version == 1)
  }

  /** `state_for_request_status`. */
  function StateForStatus(d: Definition, s: RequestStatus): Option<State> {
    var k := FirstWhere(d.states, (x: State) => x.code == StatusCode(s) && x.isActive);
    if k.Some? then Some(d.states[k.value]) else None
  }

  // -- Actors ---------------------------------------------------------------

  /** `ContractorRequestWorkflowAdapter.get_entity`: the error it raises, if any. */
  function EntityError(r: Request, actor: Actor): Option<Error> {
    if actor.actorType.ContractorUser? then
      if actor.contractorIds == {} || !(exists a :: a in r.assignments && a.contractor in actor.contractorIds) then Some(NotFound)
      else if "contractor.requests.view" !in actor.permissions then Some(Forbidden)
      else None
    else if "requests.view" !in actor.permissions && "workflows.instances.view" !in actor.permissions then Some(Forbidden)
    else None
  }

  /** The actor `change_assignment_status` builds for a contractor. */
  function ContractorActor(actorId: Option<Id>, contractor: Id): Actor {
    Actor(ContractorUser, actorId,
          {"contractor.requests.view", "contractor.requests.update_status", "contractor.requests.accept",
           "workflows.instances.view", "workflows.instances.transition"}, {contractor})
  }

  /** `validate_transition`: the target state must be a next status of the request. */
  function TransitionError(d: Definition, t: Transition, status: RequestStatus): Option<Error> {
    var to := FindState(d.states, t.toId);
    if to.None? then Some(Conflict) else
    var expected := ParseStatus(to.value.code);
    if expected.None? then Some(Internal)
    else if expected.value !in NextStatuses(status) then Some(Conflict)
    else None
  }

  function VetoByCode(d: Definition, code: string, status: RequestStatus): Option<Error> {
    var t := FindTransition(d.transitions, code);
    if t.None? then None else TransitionError(d, t.value, status)
  }

  // -- The bridge -----------------------------------------------------------

  function Row(p: Platform, v: nat, id: Id): Option<nat> {
    FindInstance(p, v, ENTITY_TYPE, id, INSTANCE_KEY)
  }

  /** `ensure_instance_for_request`: no timer, no event. */
  function Ensure(p: Platform, r: Request): Result<(Platform, nat)> {
    var v := DefinitionV1(p.catalog.defs);
    if v.None? then Err(Internal) else
    var existing := Row(p, v.value, r.id);
    if existing.Some? then Ok((p, existing.value)) else
    var d := p.catalog.defs[v.value];
    var state := StateForStatus(d, r.status);
    if state.None? then Err(Conflict) else
    var inst := Instance(v.value, d.version, ENTITY_TYPE, r.id, INSTANCE_KEY, state.value.id, r.createdAt,
                         if r.status in {Completed, Closed} then r.completedAt else None, None, 1);
    Ok((p.(instances := p.instances + [inst]), |p.instances|))
  }

  /** `synchronize_instance_from_request`; `touchedAt` is the request's updated_at. */
  function Sync(p: Platform, r: Request, touchedAt: Time): Result<Platform> {
    var ensured :- Ensure(p, r);
    var (q, i) := ensured;
    if i >= |q.instances| || q.instances[i].definition >= |q.catalog.defs| then Err(Internal) else
    var inst := q.instances[i];
    var state := StateForStatus(q.catalog.defs[inst.definition], r.status);
    if state.None? then Err(Conflict)
    else
      Ok(q.(instances := q.instances[i := inst.(
              current := state.value.id,
              completedAt := if r.status in {Completed, Closed} then r.completedAt else None,
              cancelledAt := if r.status == Cancelled then Some(touchedAt) else None,
              lockVersion := if inst.current != state.value.id then inst.lockVersion + 1 else inst.lockVersion)]))
  }

  function BridgeRequest(id: Id, code: string, actor: Actor, comment: Option<string>, input: Object): TransitionRequest {
    TransitionRequest(ENTITY_TYPE, id, code, actor, comment, None, Some(input), None, None, Some(WORKFLOW_CODE), INSTANCE_KEY)
  }

  function StatusInput(action: string, from': RequestStatus, to: RequestStatus): Object {
    map["action" := Str(action), "old_status" := Str(StatusCode(from')), "new_status" := Str(StatusCode(to))]
  }

  function TaskInput(k: nat, target: TaskStatus, from': RequestStatus, to: RequestStatus): Object {
    map["action" := Str("assignment_status"), "assignment_id" := Str(IdText(k)), "assignment_status" := Str(TaskCode(target)),
        "old_request_status" := Str(StatusCode(from')), "new_request_status" := Str(StatusCode(to))]
  }

  function RecordedResult(id: Id, to: RequestStatus): Object {
    map["request_id" := Str(IdText(id)), "new_status" := Str(StatusCode(to)), "compatibility_mode" := Bool(true)]
  }

  function StatusResult(id: Id, from': RequestStatus, to: RequestStatus): Object {
    map["request_id" := Str(IdText(id)), "old_status" := Str(StatusCode(from')), "new_status" := Str(StatusCode(to)),
        "compatibility_mode" := Bool(true)]
  }

  /** The adapter's answers while `changed` is what the callback makes of `entity`. */
  function BridgeAdapter(d: Definition, entity: Request, changed: Request, code: string, target: RequestStatus, actor: Actor): Adapter {
    Adapter(true, EntityError(entity, actor), None, VetoByCode(d, code, entity.status),
            if changed.status != target then Err(Conflict) else Ok(StatusResult(entity.id, entity.status, target)), map[])
  }

  /** `execute_request_status_transition`: through the engine when the change is an
      edge of the table, otherwise by changing the request and forcing the instance. */
  function ExecuteStatus(p: Platform, entity: Request, changed: Request, target: RequestStatus, actor: Actor,
                         comment: Option<string>, action: string, now: Time, touchedAt: Time): Result<Platform>
  {
    var ensured :- Ensure(p, entity);
    var edge := EdgeOf(entity.status, target);
    if entity.status == target || edge.None? then Sync(ensured.0, changed, touchedAt) else
    var code := EdgeCode(edge.value);
    var v := DefinitionV1(p.catalog.defs).value;
    var done :- Execute(ensured.0, BridgeRequest(entity.id, code, actor, comment, StatusInput(action, entity.status, target)),
                        BridgeAdapter(p.catalog.defs[v], entity, changed, code, target, actor), now);
    Ok(done.platform)
  }

  /** `record_request_status_transition_after_change`. */
  function RecordStatus(p: Platform, changed: Request, was: RequestStatus, actor: Actor, comment: Option<string>,
                        input: Object, now: Time, touchedAt: Time): Result<Platform>
  {
    var edge := EdgeOf(was, changed.status);
    if was == changed.status || edge.None? then Sync(p, changed, touchedAt) else
    var ensured :- Ensure(p, changed);
    var done :- RecordExternal(ensured.0,
                               BridgeRequest(changed.id, EdgeCode(edge.value), actor, comment, input),
                               Some(RecordedResult(changed.id, changed.status)),
                               Adapter(true, EntityError(changed, actor), None, None, Ok(map[]), map[]), now);
    Ok(done.platform)
  }

  /** `verify_request_workflow_consistency`. */
  predicate Consistent(p: Platform, r: Request) {
    && DefinitionV1(p.catalog.defs).Some?
    && var v := DefinitionV1(p.catalog.defs).value;
       var d := p.catalog.defs[v];
       && (exists i :: 0 <= i < |p.instances| && SameKey(p.instances[i], v, ENTITY_TYPE, r.id, INSTANCE_KEY))
       && (forall i, j :: 0 <= i < j < |p.instances| && SameKey(p.instances[i], v, ENTITY_TYPE, r.id, INSTANCE_KEY) ==>
             !SameKey(p.instances[j], v, ENTITY_TYPE, r.id, INSTANCE_KEY))
       && (forall i :: 0 <= i < |p.instances| && SameKey(p.instances[i], v, ENTITY_TYPE, r.id, INSTANCE_KEY) ==>
             && p.instances[i].workflowVersion == d.version
             && StateForStatus(d, r.status).Some? && StateForStatus(d, r.status).value.id == p.instances[i].current)
  }
}
