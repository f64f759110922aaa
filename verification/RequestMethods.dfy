/** request_service.py, the bridge and the accepting loop in their own form: a request
    object and the tables are updated step by step, and put back when a call fails. */
module RequestMethods {
  import opened Wrappers
  import opened JsonScrubber
  import opened WorkflowModel
  import opened WorkflowEngine
  import opened ContractorRequests
  import opened RequestBridge
  import Laws = RequestCalls
  import Service = RequestService
  import opened Storage
  import opened EngineCalls

  /** `find_contractor_for_work_type`: three queries, the first answer wins. */
  method FindContractorForWorkType(rs: seq<Responsibility>, city: Id, facility: Id, workType: Id) returns (found: Option<Responsibility>)
    ensures found == FindContractor(rs, city, facility, workType)
  {
    for tier := 0 to 3
      invariant forall t :: 0 <= t < tier ==> Query(rs, t, city, facility, workType).None?
    {
      found := Query(rs, tier, city, facility, workType);
      if found.Some? { return; }
    }
    found := None;
  }

  class ContractorRequest {
    var id: Id
    var city: Option<Id>
    var facility: Option<Id>
    var premise: Option<Id>
    var title: string
    var description: Option<string>
    var priority: Option<string>
    var workTypes: seq<Id>
    var assignments: seq<Assignment>
    var status: RequestStatus
    var createdAt: Time
    var completedAt: Option<Time>
    var closedAt: Option<Time>
    var history: seq<HistoryEntry>

    function Value(): Request
      reads this
    {
      Request(id, city, facility, premise, title, description, priority, workTypes, assignments, status,
              createdAt, completedAt, closedAt, history)
    }

    constructor (r: Request)
      ensures Value() == r
    {
      id, city, facility, premise := r.id, r.city, r.facility, r.premise;
      title, description, priority := r.title, r.description, r.priority;
      workTypes, assignments, status := r.workTypes, r.assignments, r.status;
      createdAt, completedAt, closedAt, history := r.createdAt, r.completedAt, r.closedAt, r.history;
    }

    /** Back to the row as it was read. */
    method Refresh(r: Request)
      modifies this
      ensures Value() == r
    {
      id, createdAt, history := r.id, r.createdAt, r.history;
      title, description, priority, city, facility, premise := r.title, r.description, r.priority, r.city, r.facility, r.premise;
      RefreshWork(r);
    }

    method RefreshWork(r: Request)
      modifies this`workTypes, this`assignments, this`status, this`completedAt, this`closedAt
      ensures workTypes == r.workTypes && assignments == r.assignments && status == r.status
      ensures completedAt == r.completedAt && closedAt == r.closedAt
    {
      workTypes, assignments, status, completedAt, closedAt := r.workTypes, r.assignments, r.status, r.completedAt, r.closedAt;
    }

    /** `add_history`. */
    method Log(event: HistoryEvent, old': Option<RequestStatus>, new': Option<RequestStatus>, comment: Option<string>)
      modifies this`history
      ensures Value() == AddHistory(old(Value()), event, old', new', comment)
    {
      history := history + [HistoryEntry(event, old', new', comment)];
    }

    /** `apply_request_status`. */
    method Enter(target: RequestStatus, event: HistoryEvent, comment: Option<string>, now: Time)
      modifies this
      ensures Value() == ApplyStatus(old(Value()), target, event, comment, now)
    {
      var was := status;
      if was == target { return; }
      status := target;
      if target == Completed { completedAt := Some(now); }
      if target == Closed { closedAt := Some(now); }
      if was == Completed && target == InProgress {
        completedAt := None;
        closedAt := None;
      }
      Log(event, Some(was), Some(target), comment);
    }

    /** `create_assignments_for_request`. */
    method CreateAssignments(rs: seq<Responsibility>) returns (unassigned: seq<Id>)
      requires city.Some? && facility.Some?
      modifies this
      ensures Value() == AssignTypes(old(Value()), rs, old(city).value, old(facility).value, |old(workTypes)|)
      ensures unassigned == Unassigned(Value())
    {
      ghost var before := Value();
      var existing := set a | a in assignments :: a.workType;
      for k := 0 to |workTypes|
        invariant Value() == AssignTypes(before, rs, before.city.value, before.facility.value, k)
        invariant workTypes == before.workTypes && city == before.city && facility == before.facility
      {
        var w := workTypes[k];
        assert w in existing <==> HasAssignment(before.assignments, w);
        if w in existing { continue; }
        var found := FindContractorForWorkType(rs, city.value, facility.value, w);
        if found.None? { continue; }
        assignments := assignments + [Assignment(found.value.contractor, w, Offered, None, None)];
        Log(AssignmentCreatedEvent, None, None, None);
      }
      unassigned := Unassigned(Value());
    }

    /** `recalculate_request_status_from_assignments`. */
    method RecalculateStatus(now: Time)
      modifies this
      ensures Value() == Recalculate(old(Value()), now)
    {
      if assignments != [] && forall a :: a in assignments ==> a.status == Dropped {
        status := Cancelled;
        return;
      }
      var missing := Unassigned(Value());
      var working := exists a :: a in assignments && a.status != Dropped;
      if working && missing == [] && ActiveAll(assignments, Finished) {
        status := Completed;
        if completedAt.None? { completedAt := Some(now); }
        return;
      }
      if exists a :: a in assignments && a.status in {Accepted, Working} {
        status := InProgress;
        return;
      }
      if working && missing == [] && ActiveAll(assignments, Offered) {
        status := Assigned;
        return;
      }
      if missing != [] {
        status := PartiallyAssigned;
      }
    }

    /** The part of `change_assignment_status` that changes the request. */
    method SetTask(k: nat, target: TaskStatus, comment: Option<string>, now: Time)
      requires k < |assignments|
      modifies this
      ensures Value() == WithTask(old(Value()), k, target, comment, now)
    {
      var was := status;
      assignments := assignments[k := assignments[k].(status := target)];
      if target == Accepted && assignments[k].acceptedAt.None? {
        assignments := assignments[k := assignments[k].(acceptedAt := Some(now))];
      }
      if target == Finished {
        assignments := assignments[k := assignments[k].(completedAt := Some(now))];
      }
      assert assignments == old(assignments)[k := MoveTask(old(assignments)[k], target, now)];
      hide Recalculate, MoveTask;
      RecalculateStatus(now);
      Log(if target == Accepted then AssignmentAcceptedEvent else AssignmentStatusChangedEvent, Some(was), Some(status), comment);
    }

    /** The `setattr` loop over the columns of the payload. */
    method SetFields(p: RequestPatch)
      modifies this`title, this`description, this`priority, this`city, this`facility, this`premise
      ensures title == p.title.Or(old(title)) && description == p.description.Or(old(description))
      ensures priority == p.priority.Or(old(priority)) && city == p.city.Or(old(city))
      ensures facility == p.facility.Or(old(facility)) && premise == p.premise.Or(old(premise))
    {
      if p.title.Set? { title := p.title.value; }
      if p.description.Set? { description := p.description.value; }
      if p.priority.Set? { priority := p.priority.value; }
      if p.city.Set? { city := p.city.value; }
      if p.facility.Set? { facility := p.facility.value; }
      if p.premise.Set? { premise := p.premise.value; }
    }

    /** `update_contractor_request`. */
    method Edit(p: RequestPatch) returns (error: Option<Error>)
      modifies this
      ensures match Update(old(Value()), p)
        case Ok(x) => Value() == x && error.None?
        case Err(e) => Value() == old(Value()) && error == Some(e)
    {
      hide Changes, Distinct;
      if p.workTypes.Set? && (p.workTypes.value == [] || !Distinct(p.workTypes.value)) { return Some(Unprocessable); }
      if p.title == Set("") { return Some(Unprocessable); }
      if status in {Closed, Cancelled} { return Some(Conflict); }
      if status != Draft && TouchesScope(p) { return Some(Conflict); }
      if !Changes(Value(), p) { return None; }
      SetFields(p);
      if p.workTypes.Set? {
        workTypes := p.workTypes.value;
        assignments := [];
      }
      Log(UpdatedEvent, Some(status), Some(status), None);
      error := None;
    }
  }

  // -- The bridge -----------------------------------------------------------

  /** `ensure_instance_for_request`. */
  method EnsureInstance(db: Database, r: Request) returns (done: Result<nat>)
    modifies db
    ensures match Ensure(old(db.Rows()), r)
      case Ok(x) => db.Rows() == x.0 && done == Ok(x.1)
      case Err(e) => db.Rows() == old(db.Rows()) && done == Err(e)
  {
    var v := DefinitionV1(db.definitions);
    if v.None? { return Err(Internal); }
    var existing := Row(db.Rows(), v.value, r.id);
    if existing.Some? { return Ok(existing.value); }
    var d := db.definitions[v.value];
    var state := StateForStatus(d, r.status);
    if state.None? { return Err(Conflict); }
    done := Ok(|db.instances|);
    db.instances := db.instances + [Instance(
        v.value, d.version, ENTITY_TYPE, r.id, INSTANCE_KEY, state.value.id, r.createdAt,
        if r.status in {Completed, Closed} then r.completedAt else None, None, 1)];
  }

  /** `synchronize_instance_from_request`. */
  method Synchronize(db: Database, r: Request, touchedAt: Time) returns (error: Option<Error>)
    modifies db
    ensures match Sync(old(db.Rows()), r, touchedAt)
      case Ok(p) => db.Rows() == p && error.None?
      case Err(e) => db.Rows() == old(db.Rows()) && error == Some(e)
  {
    hide Ensure, StateForStatus;
    var before := db.Rows();
    var ensured := EnsureInstance(db, r);
    if ensured.Err? { return Some(ensured.error); }
    var i := ensured.value;
    if i >= |db.instances| || db.instances[i].definition >= |db.definitions| {
      db.Rollback(before);
      return Some(Internal);
    }
    var state := StateForStatus(db.definitions[db.instances[i].definition], r.status);
    if state.None? {
      db.Rollback(before);
      return Some(Conflict);
    }
    var changed := db.instances[i].current != state.value.id;
    db.instances := db.instances[i := db.instances[i].(
        current := state.value.id,
        completedAt := if r.status in {Completed, Closed} then r.completedAt else None,
        cancelledAt := if r.status == Cancelled then Some(touchedAt) else None)];
    if changed {
      db.instances := db.instances[i := db.instances[i].(lockVersion := db.instances[i].lockVersion + 1)];
    }
    error := None;
  }

  /** A change along an edge of the table: the request changes inside the engine's call. */
  method ExecuteEdge(db: Database, entity: Request, changed: Request, k: nat, target: RequestStatus, actor: Actor,
                     comment: Option<string>, action: string, now: Time) returns (error: Option<Error>)
    requires k < EDGES && DefinitionV1(db.definitions).Some?
    modifies db
    ensures var d := old(db.definitions)[DefinitionV1(old(db.definitions)).value];
            match Execute(old(db.Rows()), BridgeRequest(entity.id, EdgeCode(k), actor, comment, StatusInput(action, entity.status, target)),
                          BridgeAdapter(d, entity, changed, EdgeCode(k), target, actor), now)
      case Ok(done) => db.Rows() == done.platform && error.None?
      case Err(e) => db.Rows() == old(db.Rows()) && error == Some(e)
  {
    hide Execute, BridgeAdapter, BridgeRequest, EdgeCode;
    var v := DefinitionV1(db.definitions).value;
    var done := ExecuteTransition(
      db, BridgeRequest(entity.id, EdgeCode(k), actor, comment, StatusInput(action, entity.status, target)),
      BridgeAdapter(db.definitions[v], entity, changed, EdgeCode(k), target, actor), now);
    error := if done.Err? then Some(done.error) else None;
  }

  lemma EnsureKeepsDefinitions(p: Platform, r: Request)
    ensures Ensure(p, r).Ok? ==> DefinitionV1(p.catalog.defs).Some? && Ensure(p, r).value.0.catalog == p.catalog
  {
  }

  /** `execute_request_status_transition`, the change being `apply_request_status`. */
  method ExecuteRequestStatus(db: Database, request: ContractorRequest, target: RequestStatus, event: HistoryEvent, actor: Actor,
                              comment: Option<string>, action: string, now: Time, touchedAt: Time) returns (error: Option<Error>)
    modifies db, request
    ensures var changed := ApplyStatus(old(request.Value()), target, event, comment, now);
            match ExecuteStatus(old(db.Rows()), old(request.Value()), changed, target, actor, comment, action, now, touchedAt)
      case Ok(p) => db.Rows() == p && request.Value() == changed && error.None?
      case Err(e) => db.Rows() == old(db.Rows()) && request.Value() == old(request.Value()) && error == Some(e)
  {
    hide Ensure, ApplyStatus, Execute, Sync, BridgeAdapter, BridgeRequest, StatusInput;
    var before, entity := db.Rows(), request.Value();
    EnsureKeepsDefinitions(before, entity);
    var ensured := EnsureInstance(db, entity);
    if ensured.Err? { return Some(ensured.error); }
    var edge := EdgeOf(entity.status, target);
    request.Enter(target, event, comment, now);
    if entity.status == target || edge.None? {
      error := Synchronize(db, request.Value(), touchedAt);
    } else {
      error := ExecuteEdge(db, entity, request.Value(), edge.value, target, actor, comment, action, now);
    }
    if error.Some? {
      db.Rollback(before);
      request.Refresh(entity);
    }
  }

  /** `record_request_status_transition_after_change`. */
  method RecordRequestStatus(db: Database, changed: Request, was: RequestStatus, actor: Actor, comment: Option<string>,
                             input: Object, now: Time, touchedAt: Time) returns (error: Option<Error>)
    modifies db
    ensures match RecordStatus(old(db.Rows()), changed, was, actor, comment, input, now, touchedAt)
      case Ok(p) => db.Rows() == p && error.None?
      case Err(e) => db.Rows() == old(db.Rows()) && error == Some(e)
  {
    hide RecordExternal, Sync, Ensure;
    var edge := EdgeOf(was, changed.status);
    if was == changed.status || edge.None? {
      error := Synchronize(db, changed, touchedAt);
      return;
    }
    var before := db.Rows();
    var ensured := EnsureInstance(db, changed);
    if ensured.Err? { return Some(ensured.error); }
    var done := RecordExternalTransition(
      db, BridgeRequest(changed.id, EdgeCode(edge.value), actor, comment, input), Some(RecordedResult(changed.id, changed.status)),
      Adapter(true, EntityError(changed, actor), None, None, Ok(map[]), map[]), now);
    if done.Err? {
      db.Rollback(before);
      return Some(done.error);
    }
    error := None;
  }

  // -- Calls ----------------------------------------------------------------

  /** A request in step with its instance is in step afterwards. */
  ghost predicate StaysInStep(p: Platform, r: Request, p2: Platform, r2: Request, now: Time) {
    forall v: nat, first: Id, clock: Time {:trigger Laws.InStep(p, v, first, r, clock)} ::
      Laws.InStep(p, v, first, r, clock) && clock <= now ==> Laws.InStep(p2, v, first, r2, now)
  }

  lemma StaysSelf(p: Platform, r: Request, now: Time)
    ensures StaysInStep(p, r, p, r, now)
  {
    hide Laws.InStep, Laws.Kept;
    forall v: nat, first: Id, clock: Time | Laws.InStep(p, v, first, r, clock) && clock <= now ensures Laws.InStep(p, v, first, r, now) {
      Laws.KeptSelf(p, v, first, r, clock, now, []);
      KeptInStep(p, v, first, r, Service.Outcome(p, r, []), now);
    }
  }

  lemma KeptInStep(p: Platform, v: nat, first: Id, r: Request, done: Service.Outcome, now: Time)
    requires Laws.Kept(p, v, first, r, done, now)
    ensures Laws.InStep(done.platform, v, first, done.request, now)
  {
    hide Laws.InStep;
  }

  lemma PublishStays(p: Platform, r: Request, ref: Reference, actor: Actor, now: Time, touchedAt: Time)
    ensures var done := Service.Publish(p, r, ref, actor, now, touchedAt);
            done.Ok? ==> StaysInStep(p, r, done.value.platform, done.value.request, now)
  {
    hide Laws.InStep, Laws.Kept, Service.Publish;
    var done := Service.Publish(p, r, ref, actor, now, touchedAt);
    if done.Ok? {
      forall v: nat, first: Id, clock: Time | Laws.InStep(p, v, first, r, clock) && clock <= now
        ensures Laws.InStep(done.value.platform, v, first, done.value.request, now)
      {
        Laws.PublishLaw(p, v, first, r, ref, actor, clock, now, touchedAt);
        KeptInStep(p, v, first, r, done.value, now);
      }
    }
  }

  lemma StatusStays(p: Platform, r: Request, target: RequestStatus, actor: Actor, comment: Option<string>, now: Time, touchedAt: Time)
    ensures var done := Service.ChangeStatus(p, r, target, actor, comment, now, touchedAt);
            done.Ok? ==> StaysInStep(p, r, done.value.platform, done.value.request, now)
  {
    hide Laws.InStep, Laws.Kept, Service.ChangeStatus;
    var done := Service.ChangeStatus(p, r, target, actor, comment, now, touchedAt);
    if done.Ok? {
      forall v: nat, first: Id, clock: Time | Laws.InStep(p, v, first, r, clock) && clock <= now
        ensures Laws.InStep(done.value.platform, v, first, done.value.request, now)
      {
        Laws.StatusLaw(p, v, first, r, target, actor, comment, clock, now, touchedAt);
        KeptInStep(p, v, first, r, done.value, now);
      }
    }
  }

  lemma TaskStays(p: Platform, r: Request, k: nat, target: TaskStatus, actorId: Option<Id>, comment: Option<string>,
                  resultMissing: bool, now: Time, touchedAt: Time)
    requires k < |r.assignments|
    ensures var done := Service.ChangeAssignment(p, r, k, target, actorId, comment, resultMissing, now, touchedAt);
            done.Ok? ==> StaysInStep(p, r, done.value.platform, done.value.request, now)
  {
    hide Laws.InStep, Laws.Kept, Service.ChangeAssignment;
    var done := Service.ChangeAssignment(p, r, k, target, actorId, comment, resultMissing, now, touchedAt);
    if done.Ok? {
      forall v: nat, first: Id, clock: Time | Laws.InStep(p, v, first, r, clock) && clock <= now
        ensures Laws.InStep(done.value.platform, v, first, done.value.request, now)
      {
        Laws.TaskLaw(p, v, first, r, k, target, actorId, comment, resultMissing, clock, now, touchedAt);
        KeptInStep(p, v, first, r, done.value, now);
      }
    }
  }

  lemma AcceptStays(p: Platform, r: Request, owners: set<Id>, actorId: Option<Id>, now: Time, touchedAt: Time)
    ensures var done := Service.Accept(p, r, owners, actorId, now, touchedAt);
            done.Ok? ==> StaysInStep(p, r, done.value.platform, done.value.request, now)
  {
    hide Laws.InStep, Laws.Kept, Service.Accept;
    var done := Service.Accept(p, r, owners, actorId, now, touchedAt);
    if done.Ok? {
      forall v: nat, first: Id, clock: Time | Laws.InStep(p, v, first, r, clock) && clock <= now
        ensures Laws.InStep(done.value.platform, v, first, done.value.request, now)
      {
        Laws.AcceptLaw(p, v, first, r, owners, actorId, clock, now, touchedAt);
        KeptInStep(p, v, first, r, done.value, now);
      }
    }
  }

  lemma StatusKeepsTypes(r: Request, target: RequestStatus, event: HistoryEvent, comment: Option<string>, now: Time)
    ensures ApplyStatus(r, target, event, comment, now).workTypes == r.workTypes
    ensures ApplyStatus(r, target, event, comment, now).assignments == r.assignments
  {
  }

  /** `publish_contractor_request`. */
  method Publish(db: Database, request: ContractorRequest, ref: Reference, actor: Actor, now: Time, touchedAt: Time)
    returns (r: Result<seq<Id>>)
    modifies db, request
    ensures match Service.Publish(old(db.Rows()), old(request.Value()), ref, actor, now, touchedAt)
      case Ok(o) => db.Rows() == o.platform && request.Value() == o.request && r == Ok(o.unassigned)
      case Err(e) => db.Rows() == old(db.Rows()) && request.Value() == old(request.Value()) && r == Err(e)
    ensures StaysInStep(old(db.Rows()), old(request.Value()), db.Rows(), request.Value(), now)
  {
    hide StaysInStep, Ensure, ExecuteStatus, Sync, AssignTypes, ScopeError, ApplyStatus, Uncovered;
    StaysSelf(db.Rows(), request.Value(), now);
    PublishStays(db.Rows(), request.Value(), ref, actor, now, touchedAt);
    if request.status in {Closed, Cancelled} { return Err(Conflict); }
    var before, row := db.Rows(), request.Value();
    var ensured := EnsureInstance(db, row);
    if ensured.Err? { return Err(ensured.error); }
    var invalid := PublishError(row, ref);
    if invalid.Some? {
      db.Rollback(before);
      return Err(invalid.value);
    }
    var unassigned := request.CreateAssignments(ref.responsibilities);
    var status := StatusAfterPublish(request.Value());
    StatusKeepsTypes(request.Value(), status, PublishedEvent, None, now);
    var error := ExecuteRequestStatus(db, request, status, PublishedEvent, actor, None, "publish", now, touchedAt);
    if error.None? {
      request.Log(PublishedEvent, None, Some(status), None);
      error := Synchronize(db, request.Value(), touchedAt);
    }
    if error.Some? {
      db.Rollback(before);
      request.Refresh(row);
      return Err(error.value);
    }
    r := Ok(unassigned);
  }

  /** `create_contractor_request`; the row is only kept when the call succeeds. */
  method Create(db: Database, id: Id, n: Service.NewRequest, ref: Reference, actor: Actor, now: Time, touchedAt: Time)
    returns (r: Result<seq<Id>>, request: ContractorRequest)
    modifies db
    ensures fresh(request)
    ensures match Service.Create(old(db.Rows()), id, n, ref, actor, now, touchedAt)
      case Ok(o) => db.Rows() == o.platform && request.Value() == o.request && r == Ok(o.unassigned)
      case Err(e) => db.Rows() == old(db.Rows()) && r == Err(e)
  {
    hide Ensure, Service.Publish;
    request := new ContractorRequest(Service.Blank(id, n, now));
    if n.title == "" || !Distinct(n.workTypes) { return Err(Unprocessable), request; }
    var before := db.Rows();
    var ensured := EnsureInstance(db, request.Value());
    if ensured.Err? { return Err(ensured.error), request; }
    if !n.saveAsDraft {
      r := Publish(db, request, ref, actor, now, touchedAt);
      if r.Err? { db.Rollback(before); }
    } else if !Given(n.description) {
      db.Rollback(before);
      r := Err(Unprocessable);
    } else {
      r := Ok([]);
    }
  }

  /** `change_request_status`. */
  method ChangeStatus(db: Database, request: ContractorRequest, target: RequestStatus, actor: Actor, comment: Option<string>,
                      now: Time, touchedAt: Time) returns (error: Option<Error>)
    modifies db, request
    ensures match Service.ChangeStatus(old(db.Rows()), old(request.Value()), target, actor, comment, now, touchedAt)
      case Ok(o) => db.Rows() == o.platform && request.Value() == o.request && error.None?
      case Err(e) => db.Rows() == old(db.Rows()) && request.Value() == old(request.Value()) && error == Some(e)
    ensures StaysInStep(old(db.Rows()), old(request.Value()), db.Rows(), request.Value(), now)
  {
    hide StaysInStep, ExecuteStatus, Sync, ApplyStatus, Service.EventFor, NextStatuses;
    StaysSelf(db.Rows(), request.Value(), now);
    StatusStays(db.Rows(), request.Value(), target, actor, comment, now, touchedAt);
    if target !in NextStatuses(request.status) { return Some(Conflict); }
    var before, row := db.Rows(), request.Value();
    var event := Service.EventFor(request.status, target);
    error := ExecuteRequestStatus(db, request, target, event, actor, comment, "change_status", now, touchedAt);
    if error.None? {
      error := Synchronize(db, request.Value(), touchedAt);
    }
    if error.Some? {
      db.Rollback(before);
      request.Refresh(row);
    }
  }

  /** The request and the tables once the guards of `change_assignment_status` passed. */
  method MoveTaskOf(db: Database, request: ContractorRequest, k: nat, target: TaskStatus, actor: Actor, comment: Option<string>,
                    now: Time, touchedAt: Time) returns (error: Option<Error>)
    requires k < |request.assignments|
    modifies db, request
    ensures var r := old(request.Value()); var changed := WithTask(r, k, target, comment, now);
            request.Value() == changed
            && match RecordStatus(old(db.Rows()), changed, r.status, actor, comment, TaskInput(k, target, r.status, changed.status), now, touchedAt)
      case Ok(p) => db.Rows() == p && error.None?
      case Err(e) => db.Rows() == old(db.Rows()) && error == Some(e)
  {
    hide WithTask, RecordStatus, TaskInput;
    var was := request.status;
    request.SetTask(k, target, comment, now);
    error := RecordRequestStatus(db, request.Value(), was, actor, comment, TaskInput(k, target, was, request.status), now, touchedAt);
  }

  /** `change_assignment_status`. */
  method ChangeAssignment(db: Database, request: ContractorRequest, k: nat, target: TaskStatus, actorId: Option<Id>,
                          comment: Option<string>, resultMissing: bool, now: Time, touchedAt: Time) returns (error: Option<Error>)
    requires k < |request.assignments|
    modifies db, request
    ensures match Service.ChangeAssignment(old(db.Rows()), old(request.Value()), k, target, actorId, comment, resultMissing, now, touchedAt)
      case Ok(o) => db.Rows() == o.platform && request.Value() == o.request && error.None?
      case Err(e) => db.Rows() == old(db.Rows()) && request.Value() == old(request.Value()) && error == Some(e)
    ensures StaysInStep(old(db.Rows()), old(request.Value()), db.Rows(), request.Value(), now)
  {
    hide StaysInStep, Ensure, WithTask, RecordStatus, NextTaskStatuses, TaskInput, ContractorActor;
    StaysSelf(db.Rows(), request.Value(), now);
    TaskStays(db.Rows(), request.Value(), k, target, actorId, comment, resultMissing, now, touchedAt);
    if target !in NextTaskStatuses(request.assignments[k].status) { return Some(Conflict); }
    if target == Finished && resultMissing { return Some(Conflict); }
    var before, row := db.Rows(), request.Value();
    var ensured := EnsureInstance(db, row);
    if ensured.Err? { return Some(ensured.error); }
    error := MoveTaskOf(db, request, k, target, ContractorActor(actorId, row.assignments[k].contractor), comment, now, touchedAt);
    if error.Some? {
      db.Rollback(before);
      request.Refresh(row);
    }
  }

  /** `accept_contractor_request`: all own offers, or none. */
  method Accept(db: Database, request: ContractorRequest, owners: set<Id>, actorId: Option<Id>, now: Time, touchedAt: Time)
    returns (error: Option<Error>)
    modifies db, request
    ensures match Service.Accept(old(db.Rows()), old(request.Value()), owners, actorId, now, touchedAt)
      case Ok(o) => db.Rows() == o.platform && request.Value() == o.request && error.None?
      case Err(e) => db.Rows() == old(db.Rows()) && request.Value() == old(request.Value()) && error == Some(e)
    ensures StaysInStep(old(db.Rows()), old(request.Value()), db.Rows(), request.Value(), now)
  {
    hide StaysInStep, Service.ChangeAssignment, Service.Owned;
    StaysSelf(db.Rows(), request.Value(), now);
    AcceptStays(db.Rows(), request.Value(), owners, actorId, now, touchedAt);
    if !Service.Owned(request.Value(), owners) { return Some(NotFound); }
    error := AcceptOffers(db, request, owners, actorId, now, touchedAt);
  }

  /** The loop of `accept_contractor_request`, with the one commit behind it. */
  method AcceptOffers(db: Database, request: ContractorRequest, owners: set<Id>, actorId: Option<Id>, now: Time, touchedAt: Time)
    returns (error: Option<Error>)
    modifies db, request
    ensures match Service.AcceptFirst(old(db.Rows()), old(request.Value()), owners, actorId, |old(request.assignments)|, now, touchedAt)
      case Ok(o) => db.Rows() == o.platform && request.Value() == o.request && error.None?
      case Err(e) => db.Rows() == old(db.Rows()) && request.Value() == old(request.Value()) && error == Some(e)
  {
    hide Service.ChangeAssignment;
    var before, row := db.Rows(), request.Value();
    for k := 0 to |row.assignments|
      invariant |request.assignments| == |row.assignments|
      invariant Service.AcceptFirst(before, row, owners, actorId, k, now, touchedAt)
             == Ok(Service.Outcome(db.Rows(), request.Value(), []))
    {
      var assignment := request.assignments[k];
      if assignment.contractor in owners && assignment.status == Offered {
        error := ChangeAssignment(db, request, k, Accepted, actorId, None, false, now, touchedAt);
        if error.Some? {
          AcceptStops(before, row, owners, actorId, k + 1, now, touchedAt);
          db.Rollback(before);
          request.Refresh(row);
          return;
        }
      }
    }
    error := None;
  }

  /** An error within the loop is the error of the whole loop. */
  lemma {:induction false} AcceptStops(p: Platform, r: Request, owners: set<Id>, actorId: Option<Id>, n: nat, now: Time, touchedAt: Time)
    requires n <= |r.assignments| && Service.AcceptFirst(p, r, owners, actorId, n, now, touchedAt).Err?
    ensures Service.AcceptFirst(p, r, owners, actorId, |r.assignments|, now, touchedAt)
         == Service.AcceptFirst(p, r, owners, actorId, n, now, touchedAt)
    decreases |r.assignments| - n
  {
    hide Service.ChangeAssignment;
    if n < |r.assignments| {
      AcceptStops(p, r, owners, actorId, n + 1, now, touchedAt);
    }
  }
}
