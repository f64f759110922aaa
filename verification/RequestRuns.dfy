/** Laws of whole runs: calls on any number of requests, interleaved with generic
    engine calls, definition edits and SLA sweeps, refused or not. */
module RequestRuns {
  import opened Wrappers
  import opened JsonScrubber
  import opened WorkflowModel
  import opened DefinitionService
  import opened DefinitionLaws
  import opened WorkflowEngine
  import opened EngineLaws
  import opened EngineRuns
  import opened EngineJournals
  import opened ContractorRequests
  import opened RequestRules
  import opened RequestBridge
  import opened BridgeLaws
  import opened RequestService
  import opened RequestLaws
  import opened RequestCalls

  /** Every request is in step, and every instance of a contractor request has one. */
  ghost predicate WorldOk(w: World, v: nat, first: Id, clock: Time) {
    && PlatformOk(w.platform) && Hosts(w.platform, v, first)
    && (forall id :: id in w.requests ==>
          w.requests[id].id == id && SelfOk(w.requests[id], clock) && Agrees(w.platform, v, first, w.requests[id]))
    && (forall i :: 0 <= i < |w.platform.instances| && w.platform.instances[i].entityType == ENTITY_TYPE ==>
          w.platform.instances[i].entityId in w.requests)
  }

  // -- What a call leaves alone ---------------------------------------------

  /** Of the contractor requests, only the instances of `except` may have changed. */
  ghost predicate Aside(p: Platform, p2: Platform, except: set<Id>) {
    && |p.instances| <= |p2.instances|
    && (forall i :: 0 <= i < |p.instances| ==> SameRowKey(p.instances[i], p2.instances[i]))
    && (forall i :: 0 <= i < |p.instances| && p.instances[i].entityType == ENTITY_TYPE && p.instances[i].entityId !in except ==>
          p2.instances[i] == p.instances[i])
    && (forall i :: |p.instances| <= i < |p2.instances| && p2.instances[i].entityType == ENTITY_TYPE ==>
          p2.instances[i].entityId in except)
    && p.executions <= p2.executions
    && (forall k :: |p.executions| <= k < |p2.executions| ==> ExecutedAside(p2, p2.executions[k].inst, except))
  }

  predicate ExecutedAside(p: Platform, i: nat, except: set<Id>) {
    i < |p.instances| && (p.instances[i].entityType == ENTITY_TYPE ==> p.instances[i].entityId in except)
  }

  lemma AsideAgrees(p: Platform, p2: Platform, except: set<Id>, v: nat, first: Id, r: Request)
    requires Aside(p, p2, except) && r.id !in except && Agrees(p, v, first, r)
    ensures Agrees(p2, v, first, r)
  {
    hide Followed, EdgesIn, StatusChanges, Marked, ExecutionsOf;
    var i := Row(p, v, r.id).value;
    assert SameRowKey(p.instances[i], p2.instances[i]);
    forall k | |p.executions| <= k < |p2.executions| ensures p2.executions[k].inst != i {
      assert ExecutedAside(p2, p2.executions[k].inst, except);
    }
    ExecutionsStay(p.executions, p2.executions, i);
  }

  lemma OnlyRowAside(p: Platform, p2: Platform, v: nat, id: Id)
    requires Row(p, v, id).Some? && OnlyRow(p, p2, Row(p, v, id).value)
    ensures Aside(p, p2, {id})
  {
  }

  lemma GrownAside(p: Platform, p2: Platform, id: Id)
    requires Grown(p, p2, id)
    ensures Aside(p, p2, {id})
  {
  }

  /** One request changed or appeared; the rest of the world is as it was. */
  lemma OneChanged(w: World, w2: World, v: nat, first: Id, id: Id, clock: Time, now: Time)
    requires WorldOk(w, v, first, clock) && clock <= now && Aside(w.platform, w2.platform, {id})
    requires id in w2.requests && w2.requests == w.requests[id := w2.requests[id]] && w2.requests[id].id == id
    requires InStep(w2.platform, v, first, w2.requests[id], now)
    ensures WorldOk(w2, v, first, now)
  {
    hide PlatformOk, Hosts, Agrees, SelfOk;
    forall x | x in w2.requests
      ensures w2.requests[x].id == x && SelfOk(w2.requests[x], now) && Agrees(w2.platform, v, first, w2.requests[x])
    {
      if x != id {
        AsideAgrees(w.platform, w2.platform, {id}, v, first, w.requests[x]);
        Later(w.requests[x], clock, now);
      }
    }
    forall i | 0 <= i < |w2.platform.instances| && w2.platform.instances[i].entityType == ENTITY_TYPE
      ensures w2.platform.instances[i].entityId in w2.requests
    {
      if i < |w.platform.instances| {
        assert SameRowKey(w.platform.instances[i], w2.platform.instances[i]);
      }
    }
  }

  lemma Later(r: Request, clock: Time, now: Time)
    requires SelfOk(r, clock) && clock <= now
    ensures SelfOk(r, now)
  {
  }

  // -- Calls on requests ----------------------------------------------------

  lemma KeptChanges(w: World, v: nat, first: Id, id: Id, done: Outcome, clock: Time, now: Time)
    requires WorldOk(w, v, first, clock) && clock <= now && id in w.requests
    requires Kept(w.platform, v, first, w.requests[id], done, now)
    ensures WorldOk(World(done.platform, w.requests[id := done.request]), v, first, now)
  {
    hide PlatformOk, Hosts, Agrees, SelfOk, OnlyRow, Row;
    OnlyRowAside(w.platform, done.platform, v, id);
    OneChanged(w, World(done.platform, w.requests[id := done.request]), v, first, id, clock, now);
  }

  /** A successful call on a request keeps it, by the law of that call. */
  lemma CallKept(w: World, v: nat, first: Id, call: RequestStep, clock: Time, now: Time, touchedAt: Time)
    requires WorldOk(w, v, first, clock) && clock <= now && !call.Elsewhere? && !call.CreateCall? && call.id in w.requests
    requires Called(w, call, now, touchedAt).Ok?
    ensures Kept(w.platform, v, first, w.requests[call.id], Called(w, call, now, touchedAt).value, now)
  {
    hide PlatformOk, Hosts, Agrees, SelfOk, Kept, RequestService.Publish, ChangeStatus, ChangeAssignment, Accept, Update;
    var p := w.platform;
    var r := w.requests[call.id];
    match call
    case PublishCall(_, ref, actor) => PublishLaw(p, v, first, r, ref, actor, clock, now, touchedAt);
    case UpdateCall(_, patch) => UpdateKept(p, v, first, r, patch, clock, now);
    case StatusCall(_, target, actor, comment) => StatusLaw(p, v, first, r, target, actor, comment, clock, now, touchedAt);
    case TaskCall(_, k, target, owners, actorId, comment, missing) =>
      TaskLaw(p, v, first, r, k, target, actorId, comment, missing, clock, now, touchedAt);
    case AcceptCall(_, owners, actorId) => AcceptLaw(p, v, first, r, owners, actorId, clock, now, touchedAt);
  }

  lemma UpdateKept(p: Platform, v: nat, first: Id, r: Request, patch: RequestPatch, clock: Time, now: Time)
    requires InStep(p, v, first, r, clock) && clock <= now && Update(r, patch).Ok?
    ensures Kept(p, v, first, r, Outcome(p, Update(r, patch).value, Unassigned(Update(r, patch).value)), now)
  {
    hide PlatformOk, Hosts, SelfOk, Update, StatusChanges, IndexOf, Row;
    UpdateOk(r, patch, clock, now);
  }

  lemma NoRowYet(w: World, v: nat, first: Id, clock: Time, id: Id)
    requires WorldOk(w, v, first, clock) && id !in w.requests
    ensures Row(w.platform, v, id).None?
  {
  }

  lemma CallKeeps(w: World, v: nat, first: Id, call: RequestStep, clock: Time, now: Time, touchedAt: Time)
    requires WorldOk(w, v, first, clock) && clock <= now && !call.Elsewhere? && Called(w, call, now, touchedAt).Ok?
    ensures WorldOk(WorldAfter(w, call, now, touchedAt), v, first, now)
  {
    hide WorldOk, InStep, Kept, Create, CreateRefusal;
    var done := Called(w, call, now, touchedAt).value;
    if call.CreateCall? {
      NoRowYet(w, v, first, clock, call.id);
      WorldParts(w, v, first, clock);
      CreateLaw(w.platform, v, first, call.id, call.draft, call.ref, call.actor, now, touchedAt);
      GrownAside(w.platform, done.platform, call.id);
      OneChanged(w, World(done.platform, w.requests[call.id := done.request]), v, first, call.id, clock, now);
    } else {
      CallKept(w, v, first, call, clock, now, touchedAt);
      KeptChanges(w, v, first, call.id, done, clock, now);
    }
  }

  lemma WorldParts(w: World, v: nat, first: Id, clock: Time)
    requires WorldOk(w, v, first, clock)
    ensures PlatformOk(w.platform) && Hosts(w.platform, v, first)
  {
  }

  // -- Generic calls --------------------------------------------------------

  lemma {:induction false} VersionListed(defs: seq<Definition>, i: nat)
    requires i < |defs|
    ensures defs[i].version in VersionsOf(defs, defs[i].code)
  {
    if i < |defs| - 1 {
      VersionListed(defs[..|defs| - 1], i);
    }
  }

  /** No two definitions share code and version. */
  lemma {:induction false} VersionsApart(defs: seq<Definition>, i: nat, j: nat)
    requires Numbered(defs) && i < j < |defs| && defs[i].code == defs[j].code
    ensures defs[i].version != defs[j].version
  {
    var init := defs[..|defs| - 1];
    forall c ensures VersionsOf(init, c) == OneTo(|VersionsOf(init, c)|) {
      var v := VersionsOf(defs, c);
      assert VersionsOf(init, c) == v[..|VersionsOf(init, c)|];
    }
    if j < |defs| - 1 {
      VersionsApart(init, i, j);
    } else {
      VersionListed(init, i);
      var v := VersionsOf(defs, defs[j].code);
      assert v[|v| - 1] == |v|;
    }
  }

  lemma FirstOfVersion(defs: seq<Definition>, v: nat)
    requires Numbered(defs) && v < |defs| && defs[v].code == WORKFLOW_CODE && defs[v].version == 1
    ensures DefinitionV1(defs) == Some(v)
  {
    var i := DefinitionV1(defs).value;
    if i != v {
      VersionsApart(defs, if i < v then i else v, if i < v then v else i);
    }
  }

  /** Editing definitions leaves the seeded one in place, since it is published. */
  lemma EditHosts(p: Platform, edit: CatalogStep, v: nat, first: Id)
    requires PlatformOk(p) && Hosts(p, v, first) && ApplyCatalog(p.catalog, edit).Ok?
    ensures Hosts(p.(catalog := ApplyCatalog(p.catalog, edit).value), v, first)
  {
    var after := ApplyCatalog(p.catalog, edit).value;
    SeedVersion(p.catalog.defs[v], first);
    PublishedImmutable(p.catalog, edit, v);
    CatalogStepKeeps(p.catalog, edit);
    hide ApplyCatalog, InstancesOk, ExecutionsOk, RecordsOk, TimersOk, BreachesOk, Seeded, Numbered, DefinitionV1;
    FirstOfVersion(after.defs, v);
  }

  lemma AsideHosts(p: Platform, p2: Platform, v: nat, first: Id)
    requires Hosts(p, v, first) && Aside(p, p2, {}) && p2.catalog == p.catalog
    ensures Hosts(p2, v, first)
  {
  }

  lemma MovedAside(p: Platform, p2: Platform, i: nat)
    requires i < |p.instances| && p.instances[i].entityType != ENTITY_TYPE
    requires |p2.instances| == |p.instances| && SameRowKey(p.instances[i], p2.instances[i])
    requires p2.instances == p.instances[i := p2.instances[i]] && OnlyExecutions(p.executions, p2.executions, i)
    ensures Aside(p, p2, {})
  {
  }

  lemma PerformAside(p: Platform, q: TransitionRequest, a: Adapter, now: Time)
    requires Execute(p, q, a, now).Ok? && q.entityType != ENTITY_TYPE
    ensures var p2 := Execute(p, q, a, now).value.platform; p2.catalog == p.catalog && Aside(p, p2, {})
  {
    var i, t := ExecuteCase(p, q, a, now);
    var p2 := Execute(p, q, a, now).value.platform;
    assert Joined(p.instances[i], p.catalog.defs, q.entityType, q.entityId, q.workflowCode, q.instanceKey);
    hide Execute, FindTransition, LookupInstance, Refusal, NewTimers, CompleteTimers;
    if !Execute(p, q, a, now).value.replayed {
      MovedAside(p, p2, i);
    }
  }

  lemma RecordAside(p: Platform, q: TransitionRequest, result: Option<Object>, a: Adapter, now: Time)
    requires RecordExternal(p, q, result, a, now).Ok? && q.entityType != ENTITY_TYPE
    ensures var p2 := RecordExternal(p, q, result, a, now).value.platform; p2.catalog == p.catalog && Aside(p, p2, {})
  {
    var i := LookupInstance(p, q.entityType, q.entityId, q.workflowCode, q.instanceKey).value;
    assert Joined(p.instances[i], p.catalog.defs, q.entityType, q.entityId, q.workflowCode, q.instanceKey);
    MovedAside(p, RecordExternal(p, q, result, a, now).value.platform, i);
  }

  lemma ElsewhereAside(p: Platform, step: PlatformStep, now: Time)
    requires Generic(p, step)
    ensures Aside(p, After(p, step, now), {}) && (!step.EditCatalog? ==> After(p, step, now).catalog == p.catalog)
  {
    match step
    case EditCatalog(edit) =>
    case StartStep(q, a) =>
    case ExecuteStep(q, a) => if Execute(p, q, a, now).Ok? { PerformAside(p, q, a, now); hide Execute; }
    case RecordStep(q, result, a) => if RecordExternal(p, q, result, a, now).Ok? { RecordAside(p, q, result, a, now); hide RecordExternal; }
    case CancelStep(i, reason) => if Cancel(p, i, reason, now).Ok? { MovedAside(p, Cancel(p, i, reason, now).value, i); }
    case SweepStep =>
  }

  lemma ElsewhereKeeps(w: World, v: nat, first: Id, step: PlatformStep, clock: Time, now: Time)
    requires WorldOk(w, v, first, clock) && clock <= now && Generic(w.platform, step)
    ensures WorldOk(w.(platform := After(w.platform, step, now)), v, first, now)
  {
    hide PlatformOk, Hosts, SelfOk, Agrees, After, ApplyCatalog;
    var p, p2 := w.platform, After(w.platform, step, now);
    ElsewhereAside(p, step, now);
    AfterKeeps(p, step, now);
    ElsewhereHosts(p, v, first, step, now);
    forall x | x in w.requests ensures SelfOk(w.requests[x], now) && Agrees(p2, v, first, w.requests[x]) {
      AsideAgrees(p, p2, {}, v, first, w.requests[x]);
      Later(w.requests[x], clock, now);
    }
    forall i | 0 <= i < |p2.instances| && p2.instances[i].entityType == ENTITY_TYPE ensures p2.instances[i].entityId in w.requests {
      assert i < |p.instances|;
      assert SameRowKey(p.instances[i], p2.instances[i]);
    }
  }

  lemma ElsewhereHosts(p: Platform, v: nat, first: Id, step: PlatformStep, now: Time)
    requires PlatformOk(p) && Hosts(p, v, first) && Generic(p, step)
    ensures Hosts(After(p, step, now), v, first)
  {
    hide PlatformOk, Hosts, ApplyCatalog, Aside, Start, Execute, RecordExternal, Cancel, Sweep;
    ElsewhereAside(p, step, now);
    if step.EditCatalog? {
      if ApplyCatalog(p.catalog, step.edit).Ok? { EditHosts(p, step.edit, v, first); }
    } else {
      hide After;
      AsideHosts(p, After(p, step, now), v, first);
    }
  }

  // -- Runs -----------------------------------------------------------------

  lemma StaysOk(w: World, v: nat, first: Id, clock: Time, now: Time)
    requires WorldOk(w, v, first, clock) && clock <= now
    ensures WorldOk(w, v, first, now)
  {
    hide PlatformOk, Hosts, SelfOk, Agrees;
    forall x | x in w.requests ensures SelfOk(w.requests[x], now) {
      Later(w.requests[x], clock, now);
    }
  }

  lemma {:induction false} WorldRunKeeps(w: World, v: nat, first: Id, t: Time, calls: seq<TimedCall>)
    requires WorldOk(w, v, first, t)
    ensures WorldOk(WorldRun(w, t, calls), v, first, CallClock(t, calls))
  {
    hide WorldOk, After, Called, Generic;
    if calls != [] {
      var c := calls[|calls| - 1];
      var before := WorldRun(w, t, calls[..|calls| - 1]);
      var clock, now := CallClock(t, calls[..|calls| - 1]), CallClock(t, calls);
      WorldRunKeeps(w, v, first, t, calls[..|calls| - 1]);
      StaysOk(before, v, first, clock, now);
      if c.call.Elsewhere? {
        if Generic(before.platform, c.call.step) { ElsewhereKeeps(before, v, first, c.call.step, clock, now); }
      } else if Called(before, c.call, now, c.touchedAt).Ok? {
        CallKeeps(before, v, first, c.call, clock, now, c.touchedAt);
      }
    }
  }

  /** No request yet, and a catalogue that holds the seeded workflow. */
  function NoRequests(c: Catalog): World {
    World(Genesis(c), map[])
  }

  /** There is such a catalogue: the one the seeding leaves. */
  lemma SeedingHosts(first: Id)
    ensures var c := Catalog([Seeded(first)], first + 8 + EDGES); CatalogOk(c) && Hosts(Genesis(c), 0, first)
  {
    var d := Seeded(first);
    var c := Catalog([d], first + 8 + EDGES);
    SeededOk(first);
    assert d.version == 1 && d.code == WORKFLOW_CODE;
    hide Seeded, DefinitionOk, DefinitionV1;
    assert [d][..0] == [];
    forall code ensures VersionsOf(c.defs, code) == OneTo(|VersionsOf(c.defs, code)|) {
      assert VersionsOf([], code) == [];
    }
    FirstOfVersion(c.defs, 0);
  }

  /** In every state any run of calls reaches: the status of a request, the code of
      the current state of its instance and the fold of its history agree; the lock
      version is one more than the number of status changes in the history; the instance
      carries a completion or cancellation time exactly when the status says so; and the
      repository's own consistency check finds no issue. */
  lemma ThreeViewsAgree(c: Catalog, v: nat, first: Id, t: Time, calls: seq<TimedCall>, id: Id)
    requires CatalogOk(c) && Hosts(Genesis(c), v, first)
    requires id in WorldRun(NoRequests(c), t, calls).requests
    ensures var w := WorldRun(NoRequests(c), t, calls); var r := w.requests[id];
            && Row(w.platform, v, id).Some? && r.id == id
            && var inst := w.platform.instances[Row(w.platform, v, id).value];
               && inst.definition < |w.platform.catalog.defs|
               && var state := FindState(w.platform.catalog.defs[inst.definition].states, inst.current);
                  && state.Some? && state.value.code == StatusCode(r.status)
                  && Fold(r.history) == Some(Some(r.status))
                  && inst.lockVersion == 1 + ChangeCount(r.history) && Marked(inst, r.status)
                  && Consistent(w.platform, r)
  {
    GenesisWorld(c, v, first, t);
    WorldRunKeeps(NoRequests(c), v, first, t, calls);
    var w := WorldRun(NoRequests(c), t, calls);
    InStepViews(w.platform, v, first, w.requests[id], CallClock(t, calls));
  }

  /** In every state any run reaches: the executions of a request's instance are, one by
      one and in order, the status changes of its history that are edges of the table;
      and the lock version counts besides them the changes that were forced. */
  lemma HistoryExecuted(c: Catalog, v: nat, first: Id, t: Time, calls: seq<TimedCall>, id: Id)
    requires CatalogOk(c) && Hosts(Genesis(c), v, first)
    requires id in WorldRun(NoRequests(c), t, calls).requests
    ensures var w := WorldRun(NoRequests(c), t, calls); var changes := StatusChanges(w.requests[id].history);
            && Row(w.platform, v, id).Some? && Row(w.platform, v, id).value < |w.platform.instances|
            && var i := Row(w.platform, v, id).value;
               && Followed(ExecutionsOf(w.platform.executions, i), EdgesIn(changes), first)
               && w.platform.instances[i].lockVersion == 1 + |ExecutionsOf(w.platform.executions, i)| + Forced(changes)
  {
    GenesisWorld(c, v, first, t);
    WorldRunKeeps(NoRequests(c), v, first, t, calls);
    var w := WorldRun(NoRequests(c), t, calls);
    hide WorldRun, PlatformOk, Hosts, SelfOk, Row, Marked, ExecutionsOf;
    EdgeOrForced(StatusChanges(w.requests[id].history));
  }

  lemma InStepViews(p: Platform, v: nat, first: Id, r: Request, clock: Time)
    requires InStep(p, v, first, r, clock)
    ensures Row(p, v, r.id).Some? && Consistent(p, r)
    ensures var inst := p.instances[Row(p, v, r.id).value];
            && inst.definition < |p.catalog.defs| && inst.lockVersion == 1 + ChangeCount(r.history) && Marked(inst, r.status)
            && var state := FindState(p.catalog.defs[inst.definition].states, inst.current);
               state.Some? && state.value.code == StatusCode(r.status)
  {
    hide PlatformOk, SelfOk, IsSeeded, Consistent, StatusCode, StatusChanges, FindState, InstanceOk, DefinitionOk, Row, Marked, IndexOf, StatusAt,
      StateTypeOf;
    AgreesIsConsistent(p, v, first, r);
    HostedRow(p, v, first, r.id);
    SeedStateById(p.catalog.defs[v], first, IndexOf(r.status));
    assert StatusAt(IndexOf(r.status)) == r.status;
  }

  lemma GenesisWorld(c: Catalog, v: nat, first: Id, t: Time)
    requires CatalogOk(c) && Hosts(Genesis(c), v, first)
    ensures WorldOk(NoRequests(c), v, first, t)
  {
    GenesisOk(c);
    hide PlatformOk, Hosts;
  }

  /** In every state any run reaches: the assignments of a request have distinct work
      types out of its own, a draft or new request has none, a completed or closed one is
      dated; completion times are set exactly on completed assignments and not before
      acceptance; and however many
      calls there were, n assignments have been moved at most 3n times. */
  lemma AssignmentsOverRuns(c: Catalog, v: nat, first: Id, t: Time, calls: seq<TimedCall>, id: Id)
    requires CatalogOk(c) && Hosts(Genesis(c), v, first)
    requires id in WorldRun(NoRequests(c), t, calls).requests
    ensures var r := WorldRun(NoRequests(c), t, calls).requests[id];
            && WellAssigned(r) && Dated(r) && (r.status in {Draft, New} ==> r.assignments == [])
            && (forall a :: a in r.assignments ==> Stamped(a, CallClock(t, calls)))
            && TaskMoves(r.history) <= 3 * |r.assignments|
            && |r.assignments| <= |r.workTypes|
  {
    GenesisWorld(c, v, first, t);
    WorldRunKeeps(NoRequests(c), v, first, t, calls);
    var r := WorldRun(NoRequests(c), t, calls).requests[id];
    hide WorldRun, PlatformOk, Hosts, Agrees, Fold, TaskMoves;
    TypesFit(r.assignments, r.workTypes);
  }

  /** Distinct types out of a list are no more than the list. */
  lemma {:induction false} TypesFit(assignments: seq<Assignment>, workTypes: seq<Id>)
    requires TypesApart(assignments) && forall a :: a in assignments ==> a.workType in workTypes
    ensures |assignments| <= |workTypes|
  {
    if assignments != [] {
      var n := |assignments| - 1;
      var w := assignments[n].workType;
      assert assignments[n] in assignments;
      var k :| 0 <= k < |workTypes| && workTypes[k] == w;
      forall a | a in assignments[..n] ensures a.workType in workTypes[..k] + workTypes[k + 1..] {
        var j :| 0 <= j < n && assignments[j] == a;
        assert assignments[j] in assignments;
        var m :| 0 <= m < |workTypes| && workTypes[m] == a.workType;
        assert m < k ==> workTypes[..k][m] == a.workType;
        assert m > k ==> workTypes[k + 1..][m - k - 1] == a.workType;
      }
      TypesFit(assignments[..n], workTypes[..k] + workTypes[k + 1..]);
    }
  }
}
