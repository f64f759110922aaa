/** The bridge keeps request and instance in step: two state machines and a log. */
module BridgeLaws {
  import opened Wrappers
  import opened JsonScrubber
  import opened WorkflowModel
  import opened Reachability
  import opened DefinitionService
  import opened DefinitionLaws
  import opened WorkflowEngine
  import opened EngineLaws
  import opened EngineJournals
  import opened ContractorRequests
  import opened RequestRules
  import opened RequestBridge
  import opened Sorting

  // -- The seeded definition ------------------------------------------------

  lemma StatusCodesDiffer(a: RequestStatus, b: RequestStatus)
    requires StatusCode(a) == StatusCode(b)
    ensures a == b
  {
  }

  lemma ParseInverts(s: RequestStatus)
    ensures ParseStatus(StatusCode(s)) == Some(s)
  {
  }

  lemma EdgeCodesDiffer(j: nat, k: nat)
    requires j < EDGES && k < EDGES && EdgeCode(j) == EdgeCode(k)
    ensures j == k
  {
  }

  ghost predicate IsSeeded(d: Definition, first: Id) {
    SameContents(Seeded(first), d)
  }

  lemma SeedStateFound(d: Definition, first: Id, s: RequestStatus)
    requires IsSeeded(d, first)
    ensures StateForStatus(d, s) == Some(SeedState(IndexOf(s), first))
  {
    var k := IndexOf(s);
    assert d.states[k] == SeedState(k, first);
    var j := FirstWhere(d.states, (x: State) => x.code == StatusCode(s) && x.isActive).value;
    assert d.states[j] == SeedState(j, first);
    StatusCodesDiffer(StatusAt(j), s);
  }

  lemma SeedStateById(d: Definition, first: Id, k: nat)
    requires IsSeeded(d, first) && k < 8
    ensures FindState(d.states, first + k) == Some(SeedState(k, first))
  {
    assert d.states[k] == SeedState(k, first);
    var j := FirstWhere(d.states, (x: State) => x.id == first + k).value;
    assert d.states[j] == SeedState(j, first);
  }

  lemma SeedTransitionFound(d: Definition, first: Id, k: nat)
    requires IsSeeded(d, first) && k < EDGES
    ensures FindTransition(d.transitions, EdgeCode(k)) == Some(SeedTransition(k, first))
  {
    assert d.transitions[k] == SeedTransition(k, first);
    var j := FirstWhere(d.transitions, (t: Transition) => t.code == EdgeCode(k) && t.isActive).value;
    assert d.transitions[j] == SeedTransition(j, first);
    EdgeCodesDiffer(j, k);
  }

  lemma SeedEdge(ts: seq<Transition>, first: Id, k: nat, a: Id)
    requires ts == Seeded(first).transitions && k < EDGES && Connected(a, first + IndexOf(EdgeAt(k).0), ts)
    ensures Connected(a, first + IndexOf(EdgeAt(k).1), ts)
  {
    SeedRows(first);
    hide Seeded, EdgeCode, EdgePermission, EdgeAllowed, EdgeAt, IndexOf, Connected;
    ConnectedStep(a, ts[k], ts);
  }

  lemma SeedConnected(first: Id, k: nat)
    requires k < 8
    ensures Connected(first, first + k, Seeded(first).transitions)
  {
    var ts := Seeded(first).transitions;
    ConnectedSelf(first, ts);
    hide Connected, Seeded;
    SeedEdge(ts, first, 0, first);
    SeedEdge(ts, first, 1, first);
    SeedEdge(ts, first, 2, first);
    SeedEdge(ts, first, 9, first);
    SeedEdge(ts, first, 10, first);
    SeedEdge(ts, first, 11, first);
    SeedEdge(ts, first, 13, first);
  }

  lemma SeedRows(first: Id)
    ensures var d := Seeded(first);
            && |d.states| == 8 && |d.transitions| == EDGES
            && (forall k :: 0 <= k < 8 ==> d.states[k] == SeedState(k, first))
            && (forall k :: 0 <= k < EDGES ==> d.transitions[k] == SeedTransition(k, first))
  {
  }

  lemma SeedEnds(first: Id, k: nat)
    requires k < EDGES
    ensures var d := Seeded(first);
            && d.transitions[k].fromId in StateIds(d.states) && d.transitions[k].toId in StateIds(d.states)
            && d.transitions[k].fromId in ActiveStateIds(d.states) && d.transitions[k].toId in ActiveStateIds(d.states)
  {
    var d := Seeded(first);
    SeedRows(first);
    var i, j := IndexOf(EdgeAt(k).0), IndexOf(EdgeAt(k).1);
    hide Seeded, IndexOf, EdgeAt, StatusCode, StateTypeOf, StatusAt;
    assert d.states[i] in d.states && d.states[j] in d.states;
    assert d.states[i].isActive && d.states[j].isActive;
  }

  lemma SeedInitial(first: Id)
    ensures SoleInitial(Seeded(first).states, SeedState(0, first))
  {
    var d := Seeded(first);
    SeedRows(first);
    hide Seeded;
    assert d.states[0] == SeedState(0, first);
    forall s | s in d.states && s.isActive && s.isInitial ensures s == SeedState(0, first) {
      var j :| 0 <= j < |d.states| && d.states[j] == s;
    }
  }

  /** The seeded workflow passes the soundness part of the publish check. */
  lemma SeededSound(first: Id)
    ensures Sound(Seeded(first))
  {
    var d := Seeded(first);
    SeedInitial(first);
    SeedRows(first);
    hide Seeded, Connected, SoleInitial, StateIds, ActiveStateIds, IndexOf, EdgeAt, StatusCode, StateTypeOf, StatusAt;
    forall s | s in d.states && s.isActive ensures Connected(SeedState(0, first).id, s.id, d.transitions) {
      var j :| 0 <= j < |d.states| && d.states[j] == s;
      SeedConnected(first, j);
    }
    forall t | t in d.transitions && t.isActive ensures t.fromId in ActiveStateIds(d.states) && t.toId in ActiveStateIds(d.states) {
      var j :| 0 <= j < |d.transitions| && d.transitions[j] == t;
      SeedEnds(first, j);
    }
  }

  lemma SeedStatesApart(first: Id)
    ensures Apart(Seeded(first).states, StatesDiffer)
  {
    var d := Seeded(first);
    SeedRows(first);
    hide Seeded, StatusCode, StateTypeOf;
    forall i, j | 0 <= i < j < |d.states| ensures StatesDiffer(d.states[i], d.states[j]) {
      if d.states[i].code == d.states[j].code { SeedStatusesDiffer(i, j); }
    }
  }

  lemma SeedTransitionsApart(first: Id)
    ensures Apart(Seeded(first).transitions, TransitionsDiffer)
  {
    var d := Seeded(first);
    SeedRows(first);
    hide Seeded, EdgeCode, EdgeAt, IndexOf, EdgePermission, EdgeAllowed, StatusAt;
    forall i, j | 0 <= i < j < |d.transitions| ensures TransitionsDiffer(d.transitions[i], d.transitions[j]) {
      if d.transitions[i].code == d.transitions[j].code { EdgeCodesDiffer(i, j); }
    }
  }

  lemma SeedIdsBelow(first: Id)
    ensures IdsBelow(Seeded(first), first + 8 + EDGES)
  {
  }

  /** The seeded rows satisfy the invariant of the catalogue. */
  lemma SeededOk(first: Id)
    ensures DefinitionOk(Seeded(first), first + 8 + EDGES)
  {
    var d := Seeded(first);
    SeededSound(first);
    SeedStatesApart(first);
    SeedTransitionsApart(first);
    SeedIdsBelow(first);
    SeedRows(first);
    assert d.isPublished && d.policies == [];
    hide Seeded, Sound, Apart, IdsBelow, StateIds, SeedTransition, SeedState;
    forall t | t in d.transitions ensures t.fromId in StateIds(d.states) && t.toId in StateIds(d.states) {
      var j :| 0 <= j < |d.transitions| && d.transitions[j] == t;
      SeedEnds(first, j);
    }
  }

  lemma SeedStatusesDiffer(i: nat, j: nat)
    requires i < 8 && j < 8 && StatusCode(StatusAt(i)) == StatusCode(StatusAt(j))
    ensures i == j
  {
  }

  // -- What the gate asks on each edge --------------------------------------

  /** Who may follow the k-th edge of the table. */
  predicate MayFollow(k: nat, actor: Actor) {
    && (EdgePermission(k).Some? ==> EdgePermission(k).value in actor.permissions)
    && (EdgeAllowed(k) != {} ==> !(actor.permissions !! EdgeAllowed(k)))
    && actor.actorType != System
  }

  lemma SeedGate(inst: Instance, k: nat, first: Id, actor: Actor)
    requires k < EDGES && inst.current == first + IndexOf(EdgeAt(k).0)
    ensures Gate(inst, SeedTransition(k, first), actor) == if MayFollow(k, actor) then None else Some(Forbidden)
  {
    assert "allowed_actor_types" in SAFE_CONFIG_KEYS && "allowed_permissions" in SAFE_CONFIG_KEYS;
    assert |"requests.publish"| == 16 && |"requests.update"| == 15 && |"requests.close"| == 14 && |"requests.change_status"| == 22;
    assert InternalUser.Code() == "INTERNAL_USER" && ContractorUser.Code() == "CONTRACTOR_USER" && |System.Code()| == 6;
  }

  // -- Agreement ------------------------------------------------------------

  /** Version 1 of the workflow is where it was seeded, and every instance of a
      contractor request runs it under the default key. */
  ghost predicate Hosts(p: Platform, v: nat, first: Id) {
    && v < |p.catalog.defs| && IsSeeded(p.catalog.defs[v], first)
    && DefinitionV1(p.catalog.defs) == Some(v)
    && forall i :: 0 <= i < |p.instances| && p.instances[i].entityType == ENTITY_TYPE ==>
         p.instances[i].definition == v && p.instances[i].instanceKey == INSTANCE_KEY
  }

  /** Instance `i` is in the state named by `status` and has lock version `lock`. */
  ghost predicate Stands(p: Platform, i: nat, first: Id, status: RequestStatus, lock: int) {
    i < |p.instances| && p.instances[i].current == first + IndexOf(status) && p.instances[i].lockVersion == lock
  }

  /** A request that is over says since when. */
  predicate Dated(r: Request) {
    (r.status in {Completed, Closed} ==> r.completedAt.Some?) && (r.status == Closed ==> r.closedAt.Some?)
  }

  /** The instance says it is over exactly when the status does. */
  predicate Marked(inst: Instance, status: RequestStatus) {
    && (inst.completedAt.Some? <==> status in {Completed, Closed})
    && (inst.cancelledAt.Some? <==> status == Cancelled)
  }

  /** The table edges among some changes of status, oldest first. */
  function EdgesIn(changes: seq<(RequestStatus, RequestStatus)>): (r: seq<nat>)
    ensures |r| <= |changes|
    ensures forall k :: 0 <= k < |r| ==> r[k] < EDGES
  {
    if changes == [] then []
    else
      var edge := EdgeOf(changes[|changes| - 1].0, changes[|changes| - 1].1);
      EdgesIn(changes[..|changes| - 1]) + (if edge.Some? then [edge.value] else [])
  }

  /** The changes that no edge of the table makes; they were forced. */
  function Forced(changes: seq<(RequestStatus, RequestStatus)>): nat {
    if changes == [] then 0
    else
      var last := changes[|changes| - 1];
      Forced(changes[..|changes| - 1]) + (if last.1 in NextStatuses(last.0) then 0 else 1)
  }

  lemma {:induction false} EdgeOrForced(changes: seq<(RequestStatus, RequestStatus)>)
    ensures |changes| == |EdgesIn(changes)| + Forced(changes)
  {
    if changes != [] {
      EdgeOrForced(changes[..|changes| - 1]);
    }
  }

  /** An execution along the k-th edge. */
  predicate AlongEdge(e: Execution, k: nat, first: Id)
    requires k < EDGES
  {
    && e.transition == SeedTransition(k, first).id
    && e.fromId == first + IndexOf(EdgeAt(k).0) && e.toId == first + IndexOf(EdgeAt(k).1)
  }

  /** These executions follow these edges, one by one. */
  ghost predicate Followed(rows: seq<Execution>, edges: seq<nat>, first: Id) {
    |rows| == |edges| && forall k :: 0 <= k < |rows| ==> edges[k] < EDGES && AlongEdge(rows[k], edges[k], first)
  }

  /** New executions, if any, are of instance `i`. */
  ghost predicate OnlyExecutions(rows: seq<Execution>, more: seq<Execution>, i: nat) {
    rows <= more && forall k :: |rows| <= k < |more| ==> more[k].inst == i
  }

  /** The three views agree: request, instance, and the changes in the history; and the
      executions of the instance are those changes that the table knows. */
  ghost predicate Agrees(p: Platform, v: nat, first: Id, r: Request) {
    && Row(p, v, r.id).Some? && Row(p, v, r.id).value < |p.instances| && Marked(p.instances[Row(p, v, r.id).value], r.status)
    && Stands(p, Row(p, v, r.id).value, first, r.status, 1 + ChangeCount(r.history))
    && Followed(ExecutionsOf(p.executions, Row(p, v, r.id).value), EdgesIn(StatusChanges(r.history)), first)
  }

  /** Only row `i` of the instances may differ. */
  ghost predicate OnlyRow(p: Platform, p2: Platform, i: nat) {
    && |p2.instances| == |p.instances| && p2.catalog == p.catalog && OnlyExecutions(p.executions, p2.executions, i)
    && i < |p.instances| && SameRowKey(p.instances[i], p2.instances[i])
    && forall j :: 0 <= j < |p.instances| && j != i ==> p2.instances[j] == p.instances[j]
  }

  /** The rows of an instance stay when only other rows are added. */
  lemma {:induction false} ExecutionsStay(rows: seq<Execution>, more: seq<Execution>, i: nat)
    requires rows <= more && forall k :: |rows| <= k < |more| ==> more[k].inst != i
    ensures ExecutionsOf(more, i) == ExecutionsOf(rows, i)
  {
    if |more| > |rows| {
      ExecutionsStay(rows, more[..|more| - 1], i);
    } else {
      assert more == rows;
    }
  }

  /** One more change, and its execution if the table has it, keep the two in line. */
  lemma FollowedOn(p: Platform, p2: Platform, i: nat, first: Id, was: RequestStatus, target: RequestStatus, lock: int,
                   changes: seq<(RequestStatus, RequestStatus)>)
    requires Bridged(p, p2, i, first, was, target, lock) && Followed(ExecutionsOf(p.executions, i), EdgesIn(changes), first)
    ensures Followed(ExecutionsOf(p2.executions, i), EdgesIn(if was == target then changes else changes + [(was, target)]), first)
  {
    hide PlatformOk, OnlyRow, Stands, Marked, AlongEdge, EdgeOf;
    NoSelfEdge(was);
    var edge := EdgeOf(was, target);
    assert (changes + [(was, target)])[..|changes|] == changes;
    if edge.Some? {
      var e := p2.executions[|p.executions|];
      assert p2.executions[..|p2.executions| - 1] == p.executions;
      assert ExecutionsOf(p2.executions, i) == ExecutionsOf(p.executions, i) + [e];
    }
  }

  lemma OnlyRowTransitive(p: Platform, q: Platform, r: Platform, i: nat)
    requires OnlyRow(p, q, i) && OnlyRow(q, r, i)
    ensures OnlyRow(p, r, i)
  {
  }

  lemma OnlyRowHosts(p: Platform, p2: Platform, i: nat, v: nat, first: Id)
    requires Hosts(p, v, first) && OnlyRow(p, p2, i)
    ensures Hosts(p2, v, first)
  {
  }

  /** Every row is found where it was. */
  lemma OnlyRowFinds(p: Platform, p2: Platform, i: nat, v: nat, id: Id)
    requires OnlyRow(p, p2, i)
    ensures Row(p2, v, id) == Row(p, v, id)
  {
  }

  /** The engine's lookup and the bridge's lookup resolve to the same row. */
  lemma LookupIsRow(p: Platform, v: nat, first: Id, id: Id)
    requires InstancesOk(p) && Hosts(p, v, first) && Row(p, v, id).Some?
    ensures LookupInstance(p, ENTITY_TYPE, id, Some(WORKFLOW_CODE), INSTANCE_KEY) == Row(p, v, id)
  {
    var i := Row(p, v, id).value;
    assert Joined(p.instances[i], p.catalog.defs, ENTITY_TYPE, id, Some(WORKFLOW_CODE), INSTANCE_KEY);
    var j := LookupInstance(p, ENTITY_TYPE, id, Some(WORKFLOW_CODE), INSTANCE_KEY).value;
    assert p.instances[j].definition == v;
    assert i < j ==> !SameRowKey(p.instances[i], p.instances[j]);
  }

  lemma EnsureFinds(p: Platform, v: nat, first: Id, r: Request)
    requires Hosts(p, v, first) && Row(p, v, r.id).Some?
    ensures Ensure(p, r) == Ok((p, Row(p, v, r.id).value))
  {
  }

  lemma HostedRow(p: Platform, v: nat, first: Id, id: Id)
    requires PlatformOk(p) && Hosts(p, v, first) && Row(p, v, id).Some?
    ensures var i := Row(p, v, id).value;
            && i < |p.instances| && p.instances[i].definition == v && InstanceOk(p.instances[i], p.catalog.defs)
            && DefinitionOk(p.catalog.defs[v], p.catalog.nextId)
  {
    hide Hosts;
    assert InstanceOk(p.instances[Row(p, v, id).value], p.catalog.defs);
  }

  /** What forcing does to the row it finds. */
  lemma SyncRow(p: Platform, v: nat, first: Id, r: Request, touchedAt: Time, i: nat)
    requires Hosts(p, v, first) && Row(p, v, r.id) == Some(i)
    ensures i < |p.instances| && Sync(p, r, touchedAt).Ok?
    ensures var p2 := Sync(p, r, touchedAt).value; var to := first + IndexOf(r.status);
            && |p2.instances| == |p.instances| && p2 == p.(instances := p.instances[i := p2.instances[i]])
            && SameRowKey(p.instances[i], p2.instances[i]) && p2.instances[i].current == to
            && p2.instances[i].workflowVersion == p.instances[i].workflowVersion
            && p2.instances[i].lockVersion == p.instances[i].lockVersion + (if p.instances[i].current == to then 0 else 1)
            && (Dated(r) ==> Marked(p2.instances[i], r.status))
  {
    EnsureFinds(p, v, first, r);
    SeedStateFound(p.catalog.defs[v], first, r.status);
    hide Ensure, StateForStatus, StatusCode, StatusAt, IndexOf;
  }

  /** Forcing: the instance enters the state of the request's status, and its lock
      version grows exactly when that is another state. */
  lemma SyncForces(p: Platform, v: nat, first: Id, r: Request, touchedAt: Time, i: nat, was: RequestStatus, lock: int)
    requires PlatformOk(p) && Hosts(p, v, first) && Row(p, v, r.id) == Some(i) && Stands(p, i, first, was, lock)
    ensures Sync(p, r, touchedAt).Ok?
    ensures var p2 := Sync(p, r, touchedAt).value;
            && PlatformOk(p2) && OnlyRow(p, p2, i) && p2 == p.(instances := p2.instances)
            && Stands(p2, i, first, r.status, if was == r.status then lock else lock + 1)
            && (Dated(r) ==> Marked(p2.instances[i], r.status))
  {
    hide Dated, Marked, PlatformOk, Row, Sync, InstanceOk, DefinitionOk, Reached, IndexOf, IsSeeded, StateIds;
    SyncRow(p, v, first, r, touchedAt, i);
    HostedRow(p, v, first, r.id);
    SeedLocated(p, v, first, r.status);
    SeedPosition(was, r.status);
    RowMoved(p, Sync(p, r, touchedAt).value, i, first + IndexOf(r.status));
  }

  lemma SeedPosition(a: RequestStatus, b: RequestStatus)
    ensures IndexOf(a) == IndexOf(b) <==> a == b
  {
  }

  /** The state of every status is one an instance may be in. */
  lemma SeedLocated(p: Platform, v: nat, first: Id, s: RequestStatus)
    requires v < |p.catalog.defs| && IsSeeded(p.catalog.defs[v], first)
    ensures Reached(p.catalog.defs[v], first + IndexOf(s)) && first + IndexOf(s) in StateIds(p.catalog.defs[v].states)
  {
    var d := p.catalog.defs[v];
    SeedInitial(first);
    SeedConnected(first, IndexOf(s));
    SeedRows(first);
    assert d.states == Seeded(first).states && d.transitions == Seeded(first).transitions;
    hide Seeded, SoleInitial, Connected, IndexOf, StatusCode, StateTypeOf, StatusAt, IsSeeded;
    assert d.states[IndexOf(s)] in d.states;
    assert SeedState(0, first).id == first;
  }

  /** An instance row set to a located state, its lock version not going back. */
  lemma RowMoved(p: Platform, p2: Platform, i: nat, to: Id)
    requires PlatformOk(p) && i < |p.instances| && |p2.instances| == |p.instances|
    requires p2 == p.(instances := p.instances[i := p2.instances[i]])
    requires SameRowKey(p.instances[i], p2.instances[i])
    requires p2.instances[i].current == to && p2.instances[i].workflowVersion == p.instances[i].workflowVersion
    requires p2.instances[i].lockVersion >= p.instances[i].lockVersion
    requires p.instances[i].definition < |p.catalog.defs|
    requires Reached(p.catalog.defs[p.instances[i].definition], to) && to in StateIds(p.catalog.defs[p.instances[i].definition].states)
    ensures PlatformOk(p2)
  {
    assert InstanceOk(p.instances[i], p.catalog.defs);
    assert InstanceOk(p2.instances[i], p2.catalog.defs);
    UpdateInstance(p, p2, i, p2.instances[i]);
    TimersUntouched(p, p2);
  }

  // -- Through the engine ---------------------------------------------------

  lemma NoVeto(d: Definition, first: Id, k: nat)
    requires IsSeeded(d, first) && k < EDGES
    ensures VetoByCode(d, EdgeCode(k), EdgeAt(k).0).None?
  {
    hide StatusCode, ParseStatus, EdgeCode, FindState, IsSeeded, FindTransition, EdgeAt, NextStatuses, StatusAt, StateTypeOf,
      EdgePermission, EdgeAllowed, IndexOf;
    SeedTransitionFound(d, first, k);
    var to := EdgeAt(k).1;
    SeedStateById(d, first, IndexOf(to));
    ParseInverts(to);
    EdgeInTable(k);
  }

  lemma EdgeInTable(k: nat)
    requires k < EDGES
    ensures EdgeAt(k).1 in NextStatuses(EdgeAt(k).0) && EdgeAt(k).0 != EdgeAt(k).1
    ensures EdgeOf(EdgeAt(k).0, EdgeAt(k).1) == Some(k)
  {
  }

  lemma EdgeMovable(p: Platform, v: nat, first: Id, i: nat, k: nat, e: Execution)
    requires PlatformOk(p) && Hosts(p, v, first) && i < |p.instances| && p.instances[i].definition == v && k < EDGES
    requires p.instances[i].current == first + IndexOf(EdgeAt(k).0)
    requires e.inst == i && e.transition == SeedTransition(k, first).id && e.fromId == p.instances[i].current
    requires e.toId == SeedTransition(k, first).toId
    ensures Movable(p, i, SeedTransition(k, first), e)
  {
    var t := SeedTransition(k, first);
    var d := p.catalog.defs[v];
    SeedRows(first);
    assert d.transitions[k] == t;
    assert t in d.transitions && t.isActive && t.fromId == p.instances[i].current;
    assert InstanceOk(p.instances[i], p.catalog.defs) && DefinitionOk(d, p.catalog.nextId);
    hide PlatformOk, Hosts, IsSeeded, InstanceOk, DefinitionOk, SeedTransition, IndexOf, EdgeAt, Seeded;
  }

  /** The instance row after the k-th edge. */
  lemma EdgeRow(p: Platform, first: Id, i: nat, k: nat, e: Execution, lock: int, now: Time)
    requires k < EDGES && Stands(p, i, first, EdgeAt(k).0, lock) && p.instances[i].definition < |p.catalog.defs| && e.inst == i
    ensures var p2 := Advance(p, i, SeedTransition(k, first), e, now);
            && OnlyRow(p, p2, i) && Stands(p2, i, first, EdgeAt(k).1, lock + 1) && p2.executions == p.executions + [e]
  {
  }

  predicate Reopens(from': RequestStatus, to: RequestStatus) {
    from' == Completed && to == InProgress
  }

  lemma EdgeMarks(p: Platform, v: nat, first: Id, i: nat, k: nat, e: Execution, now: Time)
    requires v < |p.catalog.defs| && IsSeeded(p.catalog.defs[v], first) && k < EDGES
    requires i < |p.instances| && p.instances[i].definition == v
    requires Marked(p.instances[i], EdgeAt(k).0) && !Reopens(EdgeAt(k).0, EdgeAt(k).1)
    ensures Marked(Advance(p, i, SeedTransition(k, first), e, now).instances[i], EdgeAt(k).1)
  {
    hide IsSeeded, FindState, EdgeAt, EdgeCode, EdgePermission, EdgeAllowed, IndexOf, StatusCode, StatusAt, NewTimers, CompleteTimers,
      ExecutedPayload, ScrubObject, BreachIds;
    SeedStateById(p.catalog.defs[v], first, IndexOf(EdgeAt(k).1));
    EdgeEnds(k);
  }

  lemma EdgeEnds(k: nat)
    requires k < EDGES
    ensures StatusAt(IndexOf(EdgeAt(k).1)) == EdgeAt(k).1 && EdgeAt(k).0 !in {Cancelled, Closed}
    ensures EdgeAt(k).0 == Completed ==> EdgeAt(k).1 in {Closed, InProgress}
  {
  }

  /** The move of instance `i` along the k-th edge keeps the invariant. */
  lemma EdgeMoves(p: Platform, v: nat, first: Id, i: nat, k: nat, e: Execution, lock: int, now: Time)
    requires PlatformOk(p) && Hosts(p, v, first) && i < |p.instances| && p.instances[i].definition == v && k < EDGES
    requires Stands(p, i, first, EdgeAt(k).0, lock)
    requires e.inst == i && e.transition == SeedTransition(k, first).id && e.fromId == p.instances[i].current
    requires e.toId == SeedTransition(k, first).toId
    ensures var p2 := Advance(p, i, SeedTransition(k, first), e, now);
            && PlatformOk(p2) && OnlyRow(p, p2, i) && Stands(p2, i, first, EdgeAt(k).1, lock + 1)
            && p2.executions == p.executions + [e] && AlongEdge(e, k, first)
            && (Marked(p.instances[i], EdgeAt(k).0) && !Reopens(EdgeAt(k).0, EdgeAt(k).1) ==> Marked(p2.instances[i], EdgeAt(k).1))
  {
    hide PlatformOk, Movable, OnlyRow, Advance, IndexOf, EdgeAt, EdgeCode, EdgePermission, EdgeAllowed, IsSeeded, DefinitionV1, Marked;
    EdgeMovable(p, v, first, i, k, e);
    EdgeRow(p, first, i, k, e, lock, now);
    if Marked(p.instances[i], EdgeAt(k).0) && !Reopens(EdgeAt(k).0, EdgeAt(k).1) {
      EdgeMarks(p, v, first, i, k, e, now);
    }
    AdvanceKeeps(p, i, SeedTransition(k, first), e, now);
  }

  /** The gate, the adapter and the tables leave one question: may the actor follow the edge? */
  lemma EdgeRefusal(p: Platform, v: nat, first: Id, i: nat, k: nat, q: TransitionRequest, a: Adapter)
    requires Hosts(p, v, first) && i < |p.instances| && k < EDGES
    requires p.instances[i].current == first + IndexOf(EdgeAt(k).0)
    requires q.key.None? && a.transitionError.None? && a.applied.Ok?
    ensures Refusal(p, q, a, i, SeedTransition(k, first)) == if MayFollow(k, q.actor) then None else Some(Forbidden)
  {
    SeedGate(p.instances[i], k, first, q.actor);
    hide Gate, MayFollow, EdgeAt, EdgeCode, IndexOf, Hosts;
  }

  lemma ExecuteEdge(p: Platform, v: nat, first: Id, i: nat, k: nat, q: TransitionRequest, a: Adapter, lock: int, now: Time)
    requires PlatformOk(p) && Hosts(p, v, first) && k < EDGES && Row(p, v, q.entityId) == Some(i)
    requires Stands(p, i, first, EdgeAt(k).0, lock)
    requires q.entityType == ENTITY_TYPE && q.workflowCode == Some(WORKFLOW_CODE) && q.instanceKey == INSTANCE_KEY
    requires q.code == EdgeCode(k) && q.key.None? && q.lockVersion.None?
    requires a.registered && a.transitionError.None? && a.applied.Ok?
    ensures Execute(p, q, a, now) ==
              if a.entityError.Some? then Err(a.entityError.value)
              else if !MayFollow(k, q.actor) then Err(Forbidden)
              else Ok(Done(Advance(p, i, SeedTransition(k, first),
                                   ExecutionOf(i, p.instances[i], SeedTransition(k, first), q, Some(a.applied.value)), now),
                           |p.executions|, false))
  {
    hide IsSeeded, InstancesOk, CatalogOk, ExecutionsOk, RecordsOk, TimersOk, BreachesOk, InstanceOk, DefinitionOk,
      LookupInstance, FindTransition, Refusal, MayFollow, EdgeAt, EdgeCode, IndexOf, Row, SeedTransition, Advance;
    LookupIsRow(p, v, first, q.entityId);
    HostedRow(p, v, first, q.entityId);
    SeedTransitionFound(p.catalog.defs[v], first, k);
    EdgeRefusal(p, v, first, i, k, q, a);
  }

  lemma RecordEdge(p: Platform, v: nat, first: Id, i: nat, k: nat, q: TransitionRequest, result: Option<Object>, a: Adapter,
                   lock: int, now: Time)
    requires PlatformOk(p) && Hosts(p, v, first) && k < EDGES && Row(p, v, q.entityId) == Some(i)
    requires Stands(p, i, first, EdgeAt(k).0, lock)
    requires q.entityType == ENTITY_TYPE && q.workflowCode == Some(WORKFLOW_CODE) && q.instanceKey == INSTANCE_KEY
    requires q.code == EdgeCode(k) && a.registered
    ensures RecordExternal(p, q, result, a, now) ==
              if a.entityError.Some? then Err(a.entityError.value)
              else if !MayFollow(k, q.actor) then Err(Forbidden)
              else Ok(Done(Advance(p, i, SeedTransition(k, first),
                                   ExecutionOf(i, p.instances[i], SeedTransition(k, first), q, result), now),
                           |p.executions|, false))
  {
    hide IsSeeded, InstancesOk, CatalogOk, ExecutionsOk, RecordsOk, TimersOk, BreachesOk, InstanceOk, DefinitionOk,
      LookupInstance, FindTransition, Gate, MayFollow, EdgeAt, EdgeCode, IndexOf, Row, SeedTransition, Advance;
    LookupIsRow(p, v, first, q.entityId);
    HostedRow(p, v, first, q.entityId);
    SeedTransitionFound(p.catalog.defs[v], first, k);
    SeedGate(p.instances[i], k, first, q.actor);
  }

  // -- The two bridge operations --------------------------------------------

  /** Why a change of status of `entity` is refused by the workflow, if it is. */
  function BridgeError(entity: Request, was: RequestStatus, target: RequestStatus, actor: Actor): Option<Error> {
    var edge := EdgeOf(was, target);
    if was == target || edge.None? then None
    else if EntityError(entity, actor).Some? then EntityError(entity, actor)
    else if !MayFollow(edge.value, actor) then Some(Forbidden)
    else None
  }

  /** What either bridge operation leaves behind: the instance stands in the target
      state, one version further exactly when the status changed, and one execution further
      exactly when the table has the change; it is marked as the status demands, unless
      it was reopened, which leaves a completion time behind. */
  ghost predicate Bridged(p: Platform, p2: Platform, i: nat, first: Id, was: RequestStatus, target: RequestStatus, lock: int) {
    && PlatformOk(p2) && OnlyRow(p, p2, i)
    && Stands(p2, i, first, target, if was == target then lock else lock + 1)
    && (Marked(p.instances[i], was) && !Reopens(was, target) ==> Marked(p2.instances[i], target))
    && var edge := EdgeOf(was, target);
       if edge.None? then p2.executions == p.executions
       else
         && |p2.executions| == |p.executions| + 1 && p2.executions[..|p.executions|] == p.executions
         && p2.executions[|p.executions|].inst == i && AlongEdge(p2.executions[|p.executions|], edge.value, first)
  }

  lemma NoSelfEdge(s: RequestStatus)
    ensures EdgeOf(s, s).None?
  {
  }

  lemma SyncBranch(p: Platform, v: nat, first: Id, i: nat, lock: int, was: RequestStatus, changed: Request, touchedAt: Time)
    requires PlatformOk(p) && Hosts(p, v, first) && Row(p, v, changed.id) == Some(i)
    requires Stands(p, i, first, was, lock) && Dated(changed) && EdgeOf(was, changed.status).None?
    ensures Sync(p, changed, touchedAt).Ok?
    ensures Bridged(p, Sync(p, changed, touchedAt).value, i, first, was, changed.status, lock)
  {
    hide PlatformOk, Hosts, Row, Sync, Stands, Marked, Dated, EdgeOf;
    SyncForces(p, v, first, changed, touchedAt, i, was, lock);
  }

  lemma ExecuteBranch(p: Platform, v: nat, first: Id, i: nat, k: nat, lock: int, entity: Request, changed: Request,
                      actor: Actor, comment: Option<string>, action: string, now: Time, touchedAt: Time)
    requires PlatformOk(p) && Hosts(p, v, first) && Row(p, v, entity.id) == Some(i) && changed.id == entity.id
    requires Stands(p, i, first, entity.status, lock) && Dated(changed)
    requires k < EDGES && EdgeOf(entity.status, changed.status) == Some(k) && entity.status != changed.status
    ensures var done := ExecuteStatus(p, entity, changed, changed.status, actor, comment, action, now, touchedAt);
            && done.Ok? == (EntityError(entity, actor).None? && MayFollow(k, actor))
            && (done.Err? ==> done.error == if EntityError(entity, actor).Some? then EntityError(entity, actor).value else Forbidden)
            && (done.Ok? ==> Bridged(p, done.value, i, first, entity.status, changed.status, lock))
  {
    hide PlatformOk, Execute, Ensure, EdgeCode, EdgeAt, IndexOf, MayFollow, EntityError, SeedTransition, Advance, VetoByCode,
      InstanceOk, DefinitionOk, OnlyRow, Stands, Row, EdgeOf, StatusInput, StatusResult, IsSeeded, Sync, Marked, Reopens;
    EnsureFinds(p, v, first, entity);
    var d := p.catalog.defs[v];
    var q := BridgeRequest(entity.id, EdgeCode(k), actor, comment, StatusInput(action, entity.status, changed.status));
    var a := BridgeAdapter(d, entity, changed, EdgeCode(k), changed.status, actor);
    NoVeto(d, first, k);
    HostedRow(p, v, first, entity.id);
    ExecuteEdge(p, v, first, i, k, q, a, lock, now);
    EdgeMoves(p, v, first, i, k, ExecutionOf(i, p.instances[i], SeedTransition(k, first), q, Some(a.applied.value)), lock, now);
  }

  /** A change of status through the engine: when it is refused, and what it leaves. */
  lemma ExecuteStatusBridges(p: Platform, v: nat, first: Id, i: nat, lock: int, entity: Request, changed: Request,
                             actor: Actor, comment: Option<string>, action: string, now: Time, touchedAt: Time)
    requires PlatformOk(p) && Hosts(p, v, first) && Row(p, v, entity.id) == Some(i) && changed.id == entity.id
    requires Stands(p, i, first, entity.status, lock) && Dated(changed)
    ensures var done := ExecuteStatus(p, entity, changed, changed.status, actor, comment, action, now, touchedAt);
            var error := BridgeError(entity, entity.status, changed.status, actor);
            && (done.Ok? <==> error.None?) && (error.Some? ==> done == Err(error.value))
            && (done.Ok? ==> Bridged(p, done.value, i, first, entity.status, changed.status, lock))
  {
    hide PlatformOk, Hosts, Row, Execute, Sync, Stands, Bridged, Dated, EntityError, MayFollow, Ensure;
    var edge := EdgeOf(entity.status, changed.status);
    EnsureFinds(p, v, first, entity);
    if edge.None? {
      SyncBranch(p, v, first, i, lock, entity.status, changed, touchedAt);
    } else {
      hide ExecuteStatus;
      NoSelfEdge(entity.status);
      ExecuteBranch(p, v, first, i, edge.value, lock, entity, changed, actor, comment, action, now, touchedAt);
    }
  }

  lemma RecordBranch(p: Platform, v: nat, first: Id, i: nat, k: nat, lock: int, changed: Request, was: RequestStatus,
                     actor: Actor, comment: Option<string>, input: Object, now: Time, touchedAt: Time)
    requires PlatformOk(p) && Hosts(p, v, first) && Row(p, v, changed.id) == Some(i)
    requires Stands(p, i, first, was, lock) && Dated(changed)
    requires k < EDGES && EdgeOf(was, changed.status) == Some(k) && was != changed.status
    ensures var done := RecordStatus(p, changed, was, actor, comment, input, now, touchedAt);
            && done.Ok? == (EntityError(changed, actor).None? && MayFollow(k, actor))
            && (done.Err? ==> done.error == if EntityError(changed, actor).Some? then EntityError(changed, actor).value else Forbidden)
            && (done.Ok? ==> Bridged(p, done.value, i, first, was, changed.status, lock))
  {
    hide PlatformOk, RecordExternal, Ensure, EdgeCode, EdgeAt, IndexOf, MayFollow, EntityError, SeedTransition, Advance,
      InstanceOk, DefinitionOk, OnlyRow, Stands, Row, EdgeOf, RecordedResult, IsSeeded, Sync, Marked, Reopens;
    EnsureFinds(p, v, first, changed);
    var q := BridgeRequest(changed.id, EdgeCode(k), actor, comment, input);
    var a := Adapter(true, EntityError(changed, actor), None, None, Ok(map[]), map[]);
    var result := Some(RecordedResult(changed.id, changed.status));
    HostedRow(p, v, first, changed.id);
    RecordEdge(p, v, first, i, k, q, result, a, lock, now);
    EdgeMoves(p, v, first, i, k, ExecutionOf(i, p.instances[i], SeedTransition(k, first), q, result), lock, now);
  }

  /** A change of status recorded after the fact: when it is refused, and what it leaves. */
  lemma RecordStatusBridges(p: Platform, v: nat, first: Id, i: nat, lock: int, changed: Request, was: RequestStatus,
                            actor: Actor, comment: Option<string>, input: Object, now: Time, touchedAt: Time)
    requires PlatformOk(p) && Hosts(p, v, first) && Row(p, v, changed.id) == Some(i)
    requires Stands(p, i, first, was, lock) && Dated(changed)
    ensures var done := RecordStatus(p, changed, was, actor, comment, input, now, touchedAt);
            var error := BridgeError(changed, was, changed.status, actor);
            && (done.Ok? <==> error.None?) && (error.Some? ==> done == Err(error.value))
            && (done.Ok? ==> Bridged(p, done.value, i, first, was, changed.status, lock))
  {
    hide PlatformOk, Hosts, Row, RecordExternal, Sync, Stands, Bridged, Dated, EntityError, MayFollow, Ensure;
    var edge := EdgeOf(was, changed.status);
    if edge.None? {
      SyncBranch(p, v, first, i, lock, was, changed, touchedAt);
    } else {
      hide RecordStatus;
      NoSelfEdge(was);
      RecordBranch(p, v, first, i, edge.value, lock, changed, was, actor, comment, input, now, touchedAt);
    }
  }

  /** Agreement is what the consistency check of the repository asks for. */
  lemma AgreesIsConsistent(p: Platform, v: nat, first: Id, r: Request)
    requires PlatformOk(p) && Hosts(p, v, first) && Agrees(p, v, first, r)
    ensures Consistent(p, r)
  {
    var i := Row(p, v, r.id).value;
    SeedStateFound(p.catalog.defs[v], first, r.status);
    HostedRow(p, v, first, r.id);
    hide CatalogOk, ExecutionsOk, RecordsOk, TimersOk, BreachesOk, IsSeeded, StateForStatus, IndexOf, StatusCode, StatusAt;
    forall j | 0 <= j < |p.instances| && SameKey(p.instances[j], v, ENTITY_TYPE, r.id, INSTANCE_KEY) ensures j == i {
      assert i < j ==> !SameRowKey(p.instances[i], p.instances[j]);
    }
  }
}
