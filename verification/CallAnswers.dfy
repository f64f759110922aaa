/** What publications, creations, edits, status changes and acceptances answer, said on the
    columns of the request, of its instance, and of the execution logged. */
module CallAnswers {
  import opened Wrappers
  import opened JsonScrubber
  import opened WorkflowModel
  import opened DefinitionLaws
  import opened WorkflowEngine
  import opened EngineLaws
  import opened EngineAnswers
  import opened ContractorRequests
  import opened RequestRules
  import opened RequestBridge
  import opened BridgeLaws
  import opened RequestService
  import opened RequestLaws
  import opened RequestCalls
  import opened RequestAnswers

  // -- Who may do what ------------------------------------------------------

  /** A contractor sees requests with an assignment of its own; a user needs a permission. */
  predicate MaySee(r: Request, actor: Actor) {
    if actor.actorType.ContractorUser? then HasOwn(r, actor) && "contractor.requests.view" in actor.permissions
    else "requests.view" in actor.permissions || "workflows.instances.view" in actor.permissions
  }

  predicate HasOwn(r: Request, actor: Actor) {
    exists a :: a in r.assignments && a.contractor in actor.contractorIds
  }

  /** What each change of status asks of the actor. */
  predicate MayTake(from': RequestStatus, to: RequestStatus, actor: Actor) {
    && actor.actorType in {InternalUser, ContractorUser}
    && (from' == Draft ==> "requests.publish" in actor.permissions)
    && (from' != Draft && to in {PartiallyAssigned, Assigned} ==> "requests.update" in actor.permissions)
    && (to == Closed ==> "requests.close" in actor.permissions)
    && (from' == Completed && to == InProgress ==> "requests.change_status" in actor.permissions)
    && (from' != Completed && to == InProgress ==>
          || "requests.change_status" in actor.permissions || "contractor.requests.update_status" in actor.permissions
          || "contractor.requests.accept" in actor.permissions)
    && (to in {Completed, Cancelled} ==>
          "requests.change_status" in actor.permissions || "contractor.requests.update_status" in actor.permissions)
  }

  lemma SeeAnswer(r: Request, actor: Actor)
    ensures EntityError(r, actor)
         == if MaySee(r, actor) then None
            else if actor.actorType.ContractorUser? && !HasOwn(r, actor) then Some(NotFound) else Some(Forbidden)
  {
  }

  lemma AllowedAnswer(k: nat, permissions: set<string>)
    ensures k !in {5, 7, 8, 9, 10, 11, 12} ==> EdgeAllowed(k) == {}
    ensures k in {5, 7, 8, 9, 10, 11, 12} ==> EdgeAllowed(k) != {}
    ensures var change := "requests.change_status" in permissions || "contractor.requests.update_status" in permissions;
            && (k in {7, 9} ==> (!(permissions !! EdgeAllowed(k)) <==> change || "contractor.requests.accept" in permissions))
            && (k in {5, 8, 10, 11, 12} ==> (!(permissions !! EdgeAllowed(k)) <==> change))
  {
    MeetsAny(permissions, EdgeAllowed(k));
    if k in {5, 7, 8, 9, 10, 11, 12} {
      assert "requests.change_status" in EdgeAllowed(k);
    }
  }

  lemma MeetsAny(permissions: set<string>, allowed: set<string>)
    ensures !(permissions !! allowed) <==> exists x :: x in allowed && x in permissions
  {
  }

  lemma TakeAnswer(from': RequestStatus, to: RequestStatus, actor: Actor)
    requires StatusStep(from', to)
    ensures EdgeOf(from', to).Some? && (MayFollow(EdgeOf(from', to).value, actor) <==> MayTake(from', to, actor))
  {
    hide EdgeAllowed;
    TablesAre(from', to, Offered, Offered);
    AllowedAnswer(EdgeOf(from', to).value, actor.permissions);
  }

  // -- The contractor search ------------------------------------------------

  /** An active responsibility for the work type, at its most for the facility, else for
      the city, else for everywhere. */
  predicate Candidate(x: Responsibility, tier: nat, city: Id, facility: Id, workType: Id) {
    && x.isActive && x.workType == workType
    && match tier
       case 0 => x.facility == Some(facility)
       case 1 => x.facility.None? && x.city == Some(city)
       case 2 => x.facility.None? && x.city.None?
       case _ => false
  }

  predicate Suits(x: Responsibility, city: Id, facility: Id, workType: Id) {
    exists tier: nat :: tier < 3 && Candidate(x, tier, city, facility, workType)
  }

  lemma SuitsIsEligible(x: Responsibility, city: Id, facility: Id, workType: Id)
    ensures Suits(x, city, facility, workType) <==> Eligible(x, city, facility, workType)
    ensures forall tier: nat :: tier < 3 && Candidate(x, tier, city, facility, workType) <==>
              Serves(x, workType) && TierOf(x, city, facility) == Some(tier)
  {
    assert forall tier: nat :: tier < 3 && Candidate(x, tier, city, facility, workType) <==>
              Serves(x, workType) && TierOf(x, city, facility) == Some(tier);
  }

  /** A candidate of a tier, none of an earlier one, and none of less priority in the same. */
  ghost predicate BestIn(rs: seq<Responsibility>, best: Responsibility, tier: nat, city: Id, facility: Id, workType: Id) {
    && Candidate(best, tier, city, facility, workType)
    && forall x, other: nat :: x in rs && Candidate(x, other, city, facility, workType) ==>
         tier < other || (tier == other && best.priority <= x.priority)
  }

  /** The search finds a suitable contractor whenever there is one, of the first tier that
      has any, and of least priority in it. */
  lemma SearchAnswer(rs: seq<Responsibility>, city: Id, facility: Id, workType: Id)
    ensures var found := FindContractor(rs, city, facility, workType);
            && (found.None? <==> forall x :: x in rs ==> !Suits(x, city, facility, workType))
            && (found.Some? ==>
                  found.value in rs && exists tier: nat :: tier < 3 && BestIn(rs, found.value, tier, city, facility, workType))
  {
    SearchIsMinimum(rs, city, facility, workType);
    var found := FindContractor(rs, city, facility, workType);
    hide FindContractor, Suits, Eligible;
    forall x ensures Suits(x, city, facility, workType) <==> Eligible(x, city, facility, workType) {
      SuitsIsEligible(x, city, facility, workType);
    }
    if found.Some? {
      BestTier(rs, city, facility, workType, found.value);
    }
  }

  lemma BestTier(rs: seq<Responsibility>, city: Id, facility: Id, workType: Id, best: Responsibility)
    requires best in rs && Eligible(best, city, facility, workType)
    requires forall x :: x in rs && Eligible(x, city, facility, workType) ==> Before(best, x, city, facility)
    ensures exists tier: nat :: tier < 3 && BestIn(rs, best, tier, city, facility, workType)
  {
    var tier := TierOf(best, city, facility).value;
    SuitsIsEligible(best, city, facility, workType);
    forall x, other: nat | x in rs && Candidate(x, other, city, facility, workType)
      ensures tier < other || (tier == other && best.priority <= x.priority)
    {
      SuitsIsEligible(x, city, facility, workType);
    }
    assert BestIn(rs, best, tier, city, facility, workType);
  }

  // -- Publication ----------------------------------------------------------

  predicate Complete(r: Request) {
    r.title != "" && Filled(r.description) && r.city.Some? && r.facility.Some? && r.workTypes != []
  }

  /** The site exists, the facility in the city, the premise in the facility; the work
      types are active, and a premise is given if one of them demands it. */
  predicate InScope(r: Request, ref: Reference)
    requires r.city.Some? && r.facility.Some?
  {
    && r.city.value in ref.cities
    && r.facility.value in ref.facilities && ref.facilities[r.facility.value] == r.city.value
    && (forall w :: w in r.workTypes ==> w in ref.workTypes && (ref.workTypes[w] ==> r.premise.Some?))
    && (r.premise.Some? ==> r.premise.value in ref.premises && ref.premises[r.premise.value] == r.facility.value)
  }

  predicate ReadyToPublish(r: Request, ref: Reference) {
    Complete(r) && InScope(r, ref)
  }

  /** The first fault found: 404 for what does not exist, 422 for what does not fit. */
  ghost predicate Faulty(r: Request, ref: Reference, fault: Error) {
    if !Complete(r) then fault == Unprocessable
    else if r.city.value !in ref.cities || r.facility.value !in ref.facilities then fault == NotFound
    else if ref.facilities[r.facility.value] != r.city.value then fault == Unprocessable
    else if exists w :: w in r.workTypes && w !in ref.workTypes then fault == NotFound
    else if r.premise.None? then (exists w :: w in r.workTypes && ref.workTypes[w]) && fault == Unprocessable
    else if r.premise.value !in ref.premises then fault == NotFound
    else ref.premises[r.premise.value] != r.facility.value && fault == Unprocessable
  }

  lemma PublishErrorAnswer(r: Request, ref: Reference)
    ensures PublishError(r, ref).None? <==> ReadyToPublish(r, ref)
    ensures PublishError(r, ref).Some? ==> Faulty(r, ref, PublishError(r, ref).value)
  {
  }

  const LIVE := {Offered, Accepted, Working, Finished}

  /** The type has live work, or never had any and suits a contractor. */
  predicate WillCover(r: Request, ref: Reference, w: Id)
    requires r.city.Some? && r.facility.Some?
  {
    || Has(r.assignments, w, LIVE)
    || ((forall a :: a in r.assignments ==> a.workType != w)
        && exists x :: x in ref.responsibilities && Suits(x, r.city.value, r.facility.value, w))
  }

  function CoverageStatus(r: Request, ref: Reference): RequestStatus
    requires r.city.Some? && r.facility.Some?
  {
    if forall w :: w in r.workTypes ==> !WillCover(r, ref, w) then New
    else if forall w :: w in r.workTypes ==> WillCover(r, ref, w) then Assigned
    else PartiallyAssigned
  }

  lemma CoveredIsLive(tasks: seq<Assignment>, w: Id)
    ensures Covered(tasks, w) <==> Has(tasks, w, LIVE)
  {
    if Covered(tasks, w) {
      var a :| a in tasks && Covers(a, w);
      assert a.status in LIVE;
    }
    if Has(tasks, w, LIVE) {
      var a :| a in tasks && a.workType == w && a.status in LIVE;
      assert Covers(a, w);
    }
  }

  /** A type is covered after the offers exactly when it had live work or now found some. */
  lemma OffersCover(r: Request, x: Request, ref: Reference, w: Id)
    requires r.city.Some? && r.facility.Some? && w in r.workTypes && r.assignments <= x.assignments
    requires TypeSet(x.assignments) == TypeSet(r.assignments) + Served(r.workTypes, ref.responsibilities, r.city.value, r.facility.value)
    requires forall k :: |r.assignments| <= k < |x.assignments| ==>
               x.assignments[k].status == Offered && x.assignments[k].workType !in TypeSet(r.assignments)
    ensures Covered(x.assignments, w) <==> WillCover(r, ref, w)
  {
    hide FindContractor, Suits, Has, Covered;
    SearchAnswer(ref.responsibilities, r.city.value, r.facility.value, w);
    CoveredIsLive(r.assignments, w);
    assert (forall a :: a in r.assignments ==> a.workType != w) <==> w !in TypeSet(r.assignments);
    assert w in Served(r.workTypes, ref.responsibilities, r.city.value, r.facility.value)
      <==> FindContractor(ref.responsibilities, r.city.value, r.facility.value, w).Some?;
    hide TypeSet, Served;
    CoveredBefore(r, x, w);
    CoveredAfter(r, x, w);
  }

  lemma CoveredBefore(r: Request, x: Request, w: Id)
    requires r.assignments <= x.assignments
    ensures Covered(r.assignments, w) ==> Covered(x.assignments, w)
    ensures w !in TypeSet(r.assignments) ==> !Covered(r.assignments, w)
  {
    if Covered(r.assignments, w) {
      var a :| a in r.assignments && Covers(a, w);
      assert a in x.assignments;
      assert a.workType in TypeSet(r.assignments);
    }
  }

  lemma CoveredAfter(r: Request, x: Request, w: Id)
    requires r.assignments <= x.assignments
    requires forall k :: |r.assignments| <= k < |x.assignments| ==>
               x.assignments[k].status == Offered && x.assignments[k].workType !in TypeSet(r.assignments)
    ensures Covered(x.assignments, w) && !Covered(r.assignments, w) ==> w in TypeSet(x.assignments) && w !in TypeSet(r.assignments)
    ensures w in TypeSet(x.assignments) && w !in TypeSet(r.assignments) ==> Covered(x.assignments, w)
  {
    assert forall k :: 0 <= k < |r.assignments| ==> x.assignments[k] in r.assignments;
    if Covered(x.assignments, w) && !Covered(r.assignments, w) {
      var k :| 0 <= k < |x.assignments| && Covers(x.assignments[k], w);
      assert x.assignments[k].workType in TypeSet(x.assignments);
    }
    if w in TypeSet(x.assignments) && w !in TypeSet(r.assignments) {
      var k :| 0 <= k < |x.assignments| && x.assignments[k].workType == w;
      assert Covers(x.assignments[k], w);
    }
  }

  lemma PublishStatusAnswer(r: Request, ref: Reference)
    requires WellAssigned(r) && r.workTypes != [] && r.city.Some? && r.facility.Some?
    ensures StatusAfterPublish(Offer(r, ref)) == CoverageStatus(r, ref)
  {
    hide WellAssigned, AssignTypes, FindContractor, WillCover, Covered, TypeSet, Served;
    var x := Offer(r, ref);
    OfferAdds(r, ref);
    forall w | w in r.workTypes ensures Covered(x.assignments, w) <==> WillCover(r, ref, w) {
      OffersCover(r, x, ref, w);
    }
    var missing := Unassigned(x);
    assert r.workTypes[0] in r.workTypes;
    if missing != [] { assert missing[0] in missing; }
  }

  lemma OfferAdds(r: Request, ref: Reference)
    requires WellAssigned(r) && r.city.Some? && r.facility.Some?
    ensures var x := Offer(r, ref);
            && x == r.(assignments := x.assignments, history := x.history) && r.assignments <= x.assignments
            && TypeSet(x.assignments) == TypeSet(r.assignments) + Served(r.workTypes, ref.responsibilities, r.city.value, r.facility.value)
            && (forall k :: |r.assignments| <= k < |x.assignments| ==>
                  x.assignments[k].status == Offered && x.assignments[k].workType !in TypeSet(r.assignments))
  {
    hide AssignTypes, FindContractor, TypeSet, Served;
    assert r.workTypes[..|r.workTypes|] == r.workTypes;
    AssignTypesAdds(r, ref.responsibilities, r.city.value, r.facility.value, |r.workTypes|);
  }

  const OFFER_LOGGED := HistoryEntry(AssignmentCreatedEvent, None, None, None)

  /** One entry for each offer, and nothing else. */
  lemma {:induction false} OffersLogged(r: Request, rs: seq<Responsibility>, city: Id, facility: Id, n: nat)
    requires n <= |r.workTypes|
    ensures var done := AssignTypes(r, rs, city, facility, n);
            |done.assignments| >= |r.assignments|
            && done.history == r.history + seq(|done.assignments| - |r.assignments|, _ => OFFER_LOGGED)
  {
    if n > 0 {
      OffersLogged(r, rs, city, facility, n - 1);
    }
  }

  /** The columns of a published request: the offers are those of PublishAssigns. */
  predicate PublishedAs(r: Request, x: Request, status: RequestStatus) {
    && x == r.(assignments := x.assignments, status := status, history := x.history) && r.assignments <= x.assignments
    && x.history == r.history + seq(|x.assignments| - |r.assignments|, _ => OFFER_LOGGED)
         + (if r.status == status then [] else [HistoryEntry(PublishedEvent, Some(r.status), Some(status), None)])
         + [HistoryEntry(PublishedEvent, None, Some(status), None)]
  }

  lemma PublishedColumns(r: Request, ref: Reference, now: Time)
    requires WellAssigned(r) && r.city.Some? && r.facility.Some? && StatusAfterPublish(Offer(r, ref)) == CoverageStatus(r, ref)
    ensures PublishedAs(r, PublishedRequest(r, ref, now), CoverageStatus(r, ref))
  {
    hide WellAssigned, AssignTypes, WillCover, StatusAfterPublish, Served, TypeSet;
    OfferAdds(r, ref);
    OffersLogged(r, ref.responsibilities, r.city.value, r.facility.value, |r.workTypes|);
  }

  /** The workflow lets the actor take the request there, or is not asked. */
  predicate Lets(x: Request, from': RequestStatus, to: RequestStatus, actor: Actor) {
    StatusStep(from', to) ==> MaySee(x, actor) && MayTake(from', to, actor)
  }

  lemma LetsAnswer(x: Request, from': RequestStatus, to: RequestStatus, actor: Actor)
    ensures BridgeError(x, from', to, actor)
         == if Lets(x, from', to, actor) then None
            else if actor.actorType.ContractorUser? && !HasOwn(x, actor) then Some(NotFound) else Some(Forbidden)
  {
    hide EntityError, MayFollow, MayTake, HasOwn;
    TablesAre(from', to, Offered, Offered);
    SeeAnswer(x, actor);
    NoSelfEdge(from');
    if StatusStep(from', to) { TakeAnswer(from', to, actor); }
  }

  /** A publication succeeds exactly when the request is open, complete and in scope and
      the actor may take it to the status its coverage gives; the errors otherwise. */
  lemma PublishAnswer(p: Platform, v: nat, first: Id, r: Request, ref: Reference, actor: Actor, clock: Time, now: Time, touchedAt: Time)
    requires InStep(p, v, first, r, clock) && clock <= now
    ensures var done := Publish(p, r, ref, actor, now, touchedAt); var open := r.status !in {Closed, Cancelled};
            && (!open ==> done == Err(Conflict))
            && (open && !ReadyToPublish(r, ref) ==> done.Err? && Faulty(r, ref, done.error))
            && (open && ReadyToPublish(r, ref) ==>
                  var status := CoverageStatus(r, ref); var x := Offer(r, ref);
                  && (done.Ok? <==> Lets(x, r.status, status, actor))
                  && (done.Err? ==> done.error == if actor.actorType.ContractorUser? && !HasOwn(x, actor) then NotFound else Forbidden)
                  && (done.Ok? ==> PublishedAs(r, done.value.request, status)))
  {
    hide InStep, Publish, PublishError, Kept, Offer, BridgeError, StatusAfterPublish, ReadyToPublish, Faulty, CoverageStatus, Lets, HasOwn,
      PublishedRequest, Unassigned, PublishedAs;
    PublishLaw(p, v, first, r, ref, actor, clock, now, touchedAt);
    PublishErrorAnswer(r, ref);
    StepSelf(p, v, first, r, clock);
    if r.status !in {Closed, Cancelled} && ReadyToPublish(r, ref) {
      ReadyParts(r, ref);
      SelfParts(r, clock);
      PublishStatusAnswer(r, ref);
      PublishedColumns(r, ref, now);
      LetsAnswer(Offer(r, ref), r.status, CoverageStatus(r, ref), actor);
    }
  }

  lemma ReadyParts(r: Request, ref: Reference)
    requires ReadyToPublish(r, ref)
    ensures r.workTypes != [] && r.city.Some? && r.facility.Some?
  {
  }

  lemma SelfParts(r: Request, clock: Time)
    requires SelfOk(r, clock)
    ensures WellAssigned(r)
  {
  }

  // -- Creation -------------------------------------------------------------

  /** The columns of a new request. */
  predicate CreatedAs(x: Request, id: Id, n: NewRequest, now: Time) {
    && x.id == id && x.city == n.city && x.facility == n.facility && x.premise == n.premise && x.title == n.title
    && x.description == n.description && x.priority == n.priority && x.workTypes == n.workTypes && x.assignments == []
    && x.status == Draft && x.createdAt == now && x.completedAt.None? && x.closedAt.None?
    && x.history == [HistoryEntry(CreatedEvent, None, Some(Draft), None)]
  }

  /** A creation: the payload is checked first; a draft needs a description and is left as
      it was sent; anything else is published from that draft. */
  lemma CreateAnswer(p: Platform, v: nat, first: Id, id: Id, n: NewRequest, ref: Reference, actor: Actor, now: Time, touchedAt: Time)
    returns (draft: Request)
    requires PlatformOk(p) && Hosts(p, v, first) && Row(p, v, id).None?
    ensures CreatedAs(draft, id, n, now)
    ensures var done := Create(p, id, n, ref, actor, now, touchedAt);
            var valid := n.title != "" && forall i, j :: 0 <= i < j < |n.workTypes| ==> n.workTypes[i] != n.workTypes[j];
            var status := if Complete(draft) then CoverageStatus(draft, ref) else Draft;
            && (!valid || (n.saveAsDraft && !Filled(n.description)) ==> done == Err(Unprocessable))
            && (valid && n.saveAsDraft && Filled(n.description) ==> done.Ok? && done.value.request == draft && done.value.unassigned == [])
            && (valid && !n.saveAsDraft ==>
                  && (done.Ok? <==> ReadyToPublish(draft, ref) && Lets(Offer(draft, ref), Draft, status, actor))
                  && (!ReadyToPublish(draft, ref) ==> done.Err? && Faulty(draft, ref, done.error))
                  && (ReadyToPublish(draft, ref) && done.Err? ==>
                        done.error == if actor.actorType.ContractorUser? && !HasOwn(Offer(draft, ref), actor) then NotFound else Forbidden)
                  && (done.Ok? ==> PublishedAs(draft, done.value.request, status)))
  {
    hide PlatformOk, Hosts, Row, InStep, Ensure, Publish, ReadyToPublish, Faulty, CoverageStatus, Lets, PublishedAs, Offer, Complete, HasOwn;
    draft := Blank(id, n, now);
    if n.title != "" && Distinct(n.workTypes) {
      BlankInStep(p, v, first, id, n, now);
      if !n.saveAsDraft {
        PublishAnswer(Ensure(p, draft).value.0, v, first, draft, ref, actor, now, now, touchedAt);
        ReadyComplete(draft, ref);
      }
    }
  }

  lemma ReadyComplete(r: Request, ref: Reference)
    ensures ReadyToPublish(r, ref) ==> Complete(r)
  {
  }

  // -- Editing --------------------------------------------------------------

  predicate EditedAs(r: Request, x: Request, p: RequestPatch) {
    && Patched(r.title, p.title, x.title) && Patched(r.description, p.description, x.description)
    && Patched(r.priority, p.priority, x.priority) && Patched(r.city, p.city, x.city) && Patched(r.facility, p.facility, x.facility)
    && Patched(r.premise, p.premise, x.premise) && Patched(r.workTypes, p.workTypes, x.workTypes)
    && x == r.(title := x.title, description := x.description, priority := x.priority, city := x.city, facility := x.facility,
               premise := x.premise, workTypes := x.workTypes, history := x.history)
    && x.history == (if x.(history := r.history) == r then r.history
                     else r.history + [HistoryEntry(UpdatedEvent, Some(r.status), Some(r.status), None)])
  }

  /** An edit: 422 for a malformed payload, 409 for a final request or for the scope of a
      published one; else the given columns, no other, and one entry if any changed. */
  lemma EditAnswer(r: Request, p: RequestPatch)
    requires WellAssigned(r)
    ensures var done := Update(r, p);
            var wellFormed := p.title != Set("") && (p.workTypes.Set? ==> p.workTypes.value != [] && Distinct(p.workTypes.value));
            var open := r.status !in {Closed, Cancelled}
                        && (r.status != Draft ==> p.city == Keep && p.facility == Keep && p.premise == Keep && p.workTypes == Keep);
            && (done.Ok? <==> wellFormed && open)
            && (!wellFormed ==> done == Err(Unprocessable)) && (wellFormed && !open ==> done == Err(Conflict))
            && (done.Ok? ==> EditedAs(r, done.value, p))
  {
    hide Distinct, TypesApart;
  }

  // -- Status changes -------------------------------------------------------

  /** The columns of a request that came to another status by a call of a user. */
  predicate ChangedTo(r: Request, x: Request, target: RequestStatus, comment: Option<string>, now: Time) {
    var reopened := r.status == Completed && target == InProgress;
    && x == r.(status := target, completedAt := x.completedAt, closedAt := x.closedAt, history := x.history)
    && x.completedAt == (if reopened then None else if target == Completed then Some(now) else r.completedAt)
    && x.closedAt == (if reopened then None else if target == Closed then Some(now) else r.closedAt)
    && x.history == r.history + [HistoryEntry(
         match target
         case Closed => ClosedEvent
         case Cancelled => CancelledEvent
         case _ => if reopened then ReopenedEvent else StatusChangedEvent, Some(r.status), Some(target), comment)]
  }

  /** The times of the instance are those of the request. */
  predicate InstanceTimes(inst: Instance, x: Request, touchedAt: Time) {
    && inst.completedAt == (if x.status in {Completed, Closed} then x.completedAt else None)
    && inst.cancelledAt == (if x.status == Cancelled then Some(touchedAt) else None)
  }

  lemma SyncTimes(p: Platform, v: nat, first: Id, x: Request, touchedAt: Time)
    requires Hosts(p, v, first) && Row(p, v, x.id).Some?
    ensures Sync(p, x, touchedAt).Ok? && Row(p, v, x.id).value < |Sync(p, x, touchedAt).value.instances|
    ensures InstanceTimes(Sync(p, x, touchedAt).value.instances[Row(p, v, x.id).value], x, touchedAt)
    ensures Sync(p, x, touchedAt).value.executions == p.executions
  {
    EnsureFinds(p, v, first, x);
    SeedStateFound(p.catalog.defs[v], first, x.status);
    hide Ensure, StateForStatus, StatusCode, StatusAt, IndexOf;
  }

  /** Who followed an edge and why, as the execution says. */
  predicate LoggedBy(e: Execution, actor: Actor, comment: Option<string>, input: Object, result: Object) {
    && e.actorType == actor.actorType && e.actorId == actor.actorId && e.comment == comment && e.reason.None?
    && e.input == Some(ScrubObject(input)) && e.result == Some(ScrubObject(result)) && e.correlation.None?
  }

  function StatusLog(action: string, from': RequestStatus, to: RequestStatus): Object {
    map["action" := Str(action), "old_status" := Str(StatusCode(from')), "new_status" := Str(StatusCode(to))]
  }

  function StatusOutcome(id: Id, from': RequestStatus, to: RequestStatus): Object {
    map["request_id" := Str(IdText(id)), "old_status" := Str(StatusCode(from')), "new_status" := Str(StatusCode(to)),
        "compatibility_mode" := Bool(true)]
  }

  /** A change of status through the engine logs the actor, the comment, both statuses. */
  lemma StatusLogged(p: Platform, v: nat, first: Id, i: nat, lock: int, entity: Request, changed: Request,
                     actor: Actor, comment: Option<string>, action: string, now: Time, touchedAt: Time)
    requires PlatformOk(p) && Hosts(p, v, first) && Row(p, v, entity.id) == Some(i) && changed.id == entity.id
    requires Stands(p, i, first, entity.status, lock) && StatusStep(entity.status, changed.status)
    requires ExecuteStatus(p, entity, changed, changed.status, actor, comment, action, now, touchedAt).Ok?
    ensures var p2 := ExecuteStatus(p, entity, changed, changed.status, actor, comment, action, now, touchedAt).value;
            && |p2.executions| == |p.executions| + 1
            && LoggedBy(p2.executions[|p.executions|], actor, comment, StatusLog(action, entity.status, changed.status),
                        StatusOutcome(entity.id, entity.status, changed.status))
  {
    hide PlatformOk, Execute, Ensure, EdgeCode, EdgeAt, IndexOf, MayFollow, EntityError, SeedTransition, VetoByCode, ScrubObject,
      Stands, Row, EdgeOf, IsSeeded, Sync, IdText, StatusCode, Entered, NewTimers, CompleteTimers, ExecutedPayload;
    TablesAre(entity.status, changed.status, Offered, Offered);
    NoSelfEdge(entity.status);
    var k := EdgeOf(entity.status, changed.status).value;
    EnsureFinds(p, v, first, entity);
    var q := BridgeRequest(entity.id, EdgeCode(k), actor, comment, StatusInput(action, entity.status, changed.status));
    var a := BridgeAdapter(p.catalog.defs[v], entity, changed, EdgeCode(k), changed.status, actor);
    NoVeto(p.catalog.defs[v], first, k);
    HostedRow(p, v, first, entity.id);
    ExecuteEdge(p, v, first, i, k, q, a, lock, now);
  }

  /** A status change: when it succeeds, with which error it fails, the columns of the
      request, the times of its instance and the execution logged. */
  lemma StatusAnswer(p: Platform, v: nat, first: Id, r: Request, target: RequestStatus, actor: Actor, comment: Option<string>,
                     clock: Time, now: Time, touchedAt: Time)
    requires InStep(p, v, first, r, clock) && clock <= now
    ensures var done := ChangeStatus(p, r, target, actor, comment, now, touchedAt);
            && (done.Ok? <==> StatusStep(r.status, target) && MaySee(r, actor) && MayTake(r.status, target, actor))
            && (done.Err? ==> done.error == if !StatusStep(r.status, target) then Conflict
                                            else if actor.actorType.ContractorUser? && !HasOwn(r, actor) then NotFound else Forbidden)
            && (done.Ok? ==> && ChangedTo(r, done.value.request, target, comment, now) && done.value.unassigned == []
                             && ChangeLogged(p, v, done.value, "change_status", r.status, actor, comment, touchedAt))
  {
    hide InStep, Kept, ChangeStatus, EntityError, MayFollow, NextStatuses, StatusStep, MayTake, HasOwn, ChangedTo, ChangeLogged;
    StatusLaw(p, v, first, r, target, actor, comment, clock, now, touchedAt);
    TablesAre(r.status, target, Offered, Offered);
    SeeAnswer(r, actor);
    if StatusStep(r.status, target) { TakeAnswer(r.status, target, actor); }
    if ChangeStatus(p, r, target, actor, comment, now, touchedAt).Ok? {
      StatusColumns(p, r, target, actor, comment, now, touchedAt);
      StatusTimes(p, v, first, r, target, actor, comment, clock, now, touchedAt);
    }
  }

  /** One execution more, of this actor and comment; and the instance has the times of the request. */
  predicate ChangeLogged(p: Platform, v: nat, done: Outcome, action: string, was: RequestStatus, actor: Actor, comment: Option<string>,
                         touchedAt: Time)
  {
    var p2, x := done.platform, done.request;
    && |p2.executions| == |p.executions| + 1 && p.executions <= p2.executions
    && LoggedBy(p2.executions[|p.executions|], actor, comment, StatusLog(action, was, x.status), StatusOutcome(x.id, was, x.status))
    && Row(p2, v, x.id).Some? && Row(p2, v, x.id).value < |p2.instances|
    && InstanceTimes(p2.instances[Row(p2, v, x.id).value], x, touchedAt)
  }

  lemma StatusColumns(p: Platform, r: Request, target: RequestStatus, actor: Actor, comment: Option<string>, now: Time, touchedAt: Time)
    requires ChangeStatus(p, r, target, actor, comment, now, touchedAt).Ok? && r.status != target
    ensures var done := ChangeStatus(p, r, target, actor, comment, now, touchedAt).value;
            ChangedTo(r, done.request, target, comment, now) && done.unassigned == []
  {
    hide ExecuteStatus, Sync;
  }

  lemma StatusTimes(p: Platform, v: nat, first: Id, r: Request, target: RequestStatus, actor: Actor, comment: Option<string>,
                    clock: Time, now: Time, touchedAt: Time)
    requires InStep(p, v, first, r, clock) && clock <= now
    requires StatusStep(r.status, target) && ChangeStatus(p, r, target, actor, comment, now, touchedAt).Ok?
    ensures ChangeLogged(p, v, ChangeStatus(p, r, target, actor, comment, now, touchedAt).value, "change_status", r.status, actor, comment,
                         touchedAt)
  {
    hide PlatformOk, Hosts, SelfOk, Row, StatusChanges, Stands, OnlyRow, Sync, Bridged, ExecuteStatus, EventFor, ApplyStatus,
      NextStatuses, StatusStep, LoggedBy, InstanceTimes, StatusLog, StatusOutcome, Marked, Followed, EdgesIn, BridgeError, Dated;
    var i := Row(p, v, r.id).value;
    var changed := ApplyStatus(r, target, EventFor(r.status, target), comment, now);
    TablesAre(r.status, target, Offered, Offered);
    SelfDated(r, clock);
    AppliedStatus(r, target, EventFor(r.status, target), comment, now);
    var moved := ExecuteStatus(p, r, changed, target, actor, comment, "change_status", now, touchedAt);
    ExecuteStatusBridges(p, v, first, i, 1 + ChangeCount(r.history), r, changed, actor, comment, "change_status", now, touchedAt);
    StatusLogged(p, v, first, i, 1 + ChangeCount(r.history), r, changed, actor, comment, "change_status", now, touchedAt);
    BridgedParts(p, moved.value, v, i, first, r.status, target, 1 + ChangeCount(r.history), r.id);
    SyncTimes(moved.value, v, first, changed, touchedAt);
    SyncFinds(moved.value, v, first, changed, touchedAt);
  }

  lemma AppliedStatus(r: Request, target: RequestStatus, event: HistoryEvent, comment: Option<string>, now: Time)
    ensures var x := ApplyStatus(r, target, event, comment, now);
            x.id == r.id && x.status == target && (Dated(r) && target in NextStatuses(r.status) ==> Dated(x))
  {
  }

  lemma BridgedParts(p: Platform, p2: Platform, v: nat, i: nat, first: Id, was: RequestStatus, target: RequestStatus, lock: int, id: Id)
    requires Bridged(p, p2, i, first, was, target, lock) && Hosts(p, v, first) && Row(p, v, id) == Some(i)
    ensures Hosts(p2, v, first) && Row(p2, v, id) == Some(i) && p.executions <= p2.executions
  {
    hide Hosts, Row, PlatformOk, Stands, Marked;
    OnlyRowHosts(p, p2, i, v, first);
    OnlyRowFinds(p, p2, i, v, id);
  }

  lemma SyncFinds(p: Platform, v: nat, first: Id, x: Request, touchedAt: Time)
    requires Hosts(p, v, first) && Row(p, v, x.id).Some?
    ensures Sync(p, x, touchedAt).Ok? && Row(Sync(p, x, touchedAt).value, v, x.id) == Row(p, v, x.id)
  {
    hide Hosts, Sync, Marked, Dated, IndexOf;
    SyncRow(p, v, first, x, touchedAt, Row(p, v, x.id).value);
  }

  /** The execution and the times a publication leaves. */
  lemma PublishLeaves(p: Platform, v: nat, first: Id, r: Request, ref: Reference, actor: Actor, clock: Time, now: Time, touchedAt: Time)
    requires InStep(p, v, first, r, clock) && clock <= now
    requires Publish(p, r, ref, actor, now, touchedAt).Ok? && StatusStep(r.status, Publish(p, r, ref, actor, now, touchedAt).value.request.status)
    ensures ChangeLogged(p, v, Publish(p, r, ref, actor, now, touchedAt).value, "publish", r.status, actor, None, touchedAt)
  {
    hide PlatformOk, Hosts, SelfOk, Row, StatusChanges, Stands, OnlyRow, Sync, Bridged, ExecuteStatus, ApplyStatus, AssignTypes, ScopeError,
      NextStatuses, StatusStep, LoggedBy, InstanceTimes, StatusLog, StatusOutcome, Marked, Followed, EdgesIn, BridgeError, Dated,
      StatusAfterPublish, Ensure, Unassigned;
    var i := Row(p, v, r.id).value;
    EnsureFinds(p, v, first, r);
    var offered := Offer(r, ref);
    var status := StatusAfterPublish(offered);
    var changed := ApplyStatus(offered, status, PublishedEvent, None, now);
    OfferKept(r, ref, clock, now);
    var logged := AddHistory(changed, PublishedEvent, None, Some(status), None);
    TablesAre(r.status, status, Offered, Offered);
    AppliedStatus(offered, status, PublishedEvent, None, now);
    var moved := ExecuteStatus(p, offered, changed, status, actor, None, "publish", now, touchedAt);
    ExecuteStatusBridges(p, v, first, i, 1 + ChangeCount(r.history), offered, changed, actor, None, "publish", now, touchedAt);
    StatusLogged(p, v, first, i, 1 + ChangeCount(r.history), offered, changed, actor, None, "publish", now, touchedAt);
    BridgedParts(p, moved.value, v, i, first, r.status, status, 1 + ChangeCount(r.history), r.id);
    SyncTimes(moved.value, v, first, logged, touchedAt);
    SyncFinds(moved.value, v, first, logged, touchedAt);
  }

  lemma OfferKept(r: Request, ref: Reference, clock: Time, now: Time)
    requires SelfOk(r, clock) && clock <= now && r.city.Some? && r.facility.Some?
    ensures var x := Offer(r, ref); x.id == r.id && x.status == r.status && Dated(x) && Dated(r)
  {
    OfferKeeps(r, ref, clock, now);
  }

  // -- Moving an assignment -------------------------------------------------

  function TaskLog(k: nat, target: TaskStatus, from': RequestStatus, to: RequestStatus): Object {
    map["action" := Str("assignment_status"), "assignment_id" := Str(IdText(k)), "assignment_status" := Str(TaskCode(target)),
        "old_request_status" := Str(StatusCode(from')), "new_request_status" := Str(StatusCode(to))]
  }

  function TaskOutcome(id: Id, to: RequestStatus): Object {
    map["request_id" := Str(IdText(id)), "new_status" := Str(StatusCode(to)), "compatibility_mode" := Bool(true)]
  }

  /** A change recorded after the fact logs the contractor, the comment, the assignment and
      both statuses, and stamps the instance if it is over. */
  lemma TaskLeaves(p: Platform, v: nat, first: Id, r: Request, k: nat, target: TaskStatus, actorId: Option<Id>, comment: Option<string>,
                   resultMissing: bool, clock: Time, now: Time, touchedAt: Time)
    requires InStep(p, v, first, r, clock) && clock <= now && k < |r.assignments|
    requires ChangeAssignment(p, r, k, target, actorId, comment, resultMissing, now, touchedAt).Ok?
    requires StatusStep(r.status, ChangeAssignment(p, r, k, target, actorId, comment, resultMissing, now, touchedAt).value.request.status)
    ensures var done := ChangeAssignment(p, r, k, target, actorId, comment, resultMissing, now, touchedAt).value;
            var p2, x, i := done.platform, done.request, Row(p, v, r.id).value;
            && |p2.executions| == |p.executions| + 1
            && LoggedBy(p2.executions[|p.executions|],
                        Actor(ContractorUser, actorId, {}, {r.assignments[k].contractor}), comment,
                        TaskLog(k, target, r.status, x.status), TaskOutcome(r.id, x.status))
            && i < |p2.instances| && i < |p.instances|
            && p2.instances[i].completedAt == (if x.status in {Completed, Closed} then Some(now) else p.instances[i].completedAt)
            && p2.instances[i].cancelledAt == (if x.status == Cancelled then Some(now) else p.instances[i].cancelledAt)
  {
    hide PlatformOk, Hosts, SelfOk, Row, StatusChanges, RecordStatus, WithTask, NextTaskStatuses, TaskInput, ContractorActor, StatusStep,
      LoggedBy, Marked, Followed, EdgesIn, Ensure, TaskLog, TaskOutcome;
    EnsureFinds(p, v, first, r);
    var x := WithTask(r, k, target, comment, now);
    assert x.id == r.id by { TaskId(r, k, target, comment, now); }
    var actor := ContractorActor(actorId, r.assignments[k].contractor);
    var input := TaskInput(k, target, r.status, x.status);
    assert input == TaskLog(k, target, r.status, x.status) by { TaskLogIs(k, target, r.status, x.status); }
    RecordLogged(p, v, first, Row(p, v, r.id).value, 1 + ChangeCount(r.history), x, r.status, actor, comment, input, now, touchedAt);
    ActorLogs(p, actorId, r.assignments[k].contractor, comment, input, TaskOutcome(r.id, x.status));
  }

  lemma TaskId(r: Request, k: nat, target: TaskStatus, comment: Option<string>, now: Time)
    requires k < |r.assignments|
    ensures WithTask(r, k, target, comment, now).id == r.id
  {
  }

  lemma TaskLogIs(k: nat, target: TaskStatus, from': RequestStatus, to: RequestStatus)
    ensures TaskInput(k, target, from', to) == TaskLog(k, target, from', to)
  {
  }

  lemma ActorLogs(p: Platform, actorId: Option<Id>, contractor: Id, comment: Option<string>, input: Object, result: Object)
    ensures forall e :: LoggedBy(e, ContractorActor(actorId, contractor), comment, input, result)
                   <==> LoggedBy(e, Actor(ContractorUser, actorId, {}, {contractor}), comment, input, result)
  {
  }

  lemma RecordLogged(p: Platform, v: nat, first: Id, i: nat, lock: int, changed: Request, was: RequestStatus,
                     actor: Actor, comment: Option<string>, input: Object, now: Time, touchedAt: Time)
    requires PlatformOk(p) && Hosts(p, v, first) && Row(p, v, changed.id) == Some(i)
    requires Stands(p, i, first, was, lock) && StatusStep(was, changed.status)
    requires RecordStatus(p, changed, was, actor, comment, input, now, touchedAt).Ok?
    ensures var p2 := RecordStatus(p, changed, was, actor, comment, input, now, touchedAt).value;
            && |p2.executions| == |p.executions| + 1
            && LoggedBy(p2.executions[|p.executions|], actor, comment, input, TaskOutcome(changed.id, changed.status))
            && i < |p2.instances|
            && p2.instances[i].completedAt == (if changed.status in {Completed, Closed} then Some(now) else p.instances[i].completedAt)
            && p2.instances[i].cancelledAt == (if changed.status == Cancelled then Some(now) else p.instances[i].cancelledAt)
  {
    hide PlatformOk, RecordExternal, Ensure, EdgeCode, EdgeAt, IndexOf, MayFollow, EntityError, SeedTransition, ScrubObject,
      Stands, Row, EdgeOf, IsSeeded, Sync, IdText, StatusCode, NewTimers, CompleteTimers, ExecutedPayload, FindState;
    TablesAre(was, changed.status, Offered, Offered);
    NoSelfEdge(was);
    var k := EdgeOf(was, changed.status).value;
    EnsureFinds(p, v, first, changed);
    var q := BridgeRequest(changed.id, EdgeCode(k), actor, comment, input);
    var a := Adapter(true, EntityError(changed, actor), None, None, Ok(map[]), map[]);
    HostedRow(p, v, first, changed.id);
    RecordEdge(p, v, first, i, k, q, Some(RecordedResult(changed.id, changed.status)), a, lock, now);
    SeedTarget(p.catalog.defs[v], first, k);
  }

  lemma SeedTarget(d: Definition, first: Id, k: nat)
    requires IsSeeded(d, first) && k < EDGES
    ensures FindState(d.states, SeedTransition(k, first).toId).Some?
    ensures FindState(d.states, SeedTransition(k, first).toId).value.stateType == StateTypeOf(EdgeAt(k).1)
  {
    hide IsSeeded, EdgeCode, EdgePermission, EdgeAllowed, StatusCode, FindState, StateTypeOf, EdgeAt;
    SeedStateById(d, first, IndexOf(EdgeAt(k).1));
  }

  // -- Accepting a request --------------------------------------------------

  /** The own offers among the first `n` assignments. */
  function OwnOffers(r: Request, owners: set<Id>, n: nat): set<nat>
    requires n <= |r.assignments|
  {
    set j: nat | j < n && r.assignments[j].contractor in owners && r.assignments[j].status == Offered
  }

  /** One entry for each acceptance: the first from the status there was, the others
      from IN_PROGRESS, all to IN_PROGRESS. */
  predicate AcceptEntries(r: Request, x: Request, count: nat) {
    && |x.history| == |r.history| + count && r.history <= x.history
    && forall k :: |r.history| <= k < |x.history| ==>
         x.history[k] == HistoryEntry(AssignmentAcceptedEvent, Some(if k == |r.history| then r.status else InProgress), Some(InProgress), None)
  }

  lemma OneOfferMore(r: Request, owners: set<Id>, n: nat)
    requires n < |r.assignments|
    ensures OwnOffers(r, owners, n + 1)
         == OwnOffers(r, owners, n) + (if OwnOffer(r.assignments[n], owners) then {n} else {})
    ensures |OwnOffers(r, owners, n + 1)| == |OwnOffers(r, owners, n)| + (if OwnOffer(r.assignments[n], owners) then 1 else 0)
  {
    assert OwnOffers(r, owners, n + 1) == OwnOffers(r, owners, n) + (if OwnOffer(r.assignments[n], owners) then {n} else {});
  }

  lemma SomeOffers(r: Request, owners: set<Id>, n: nat)
    requires n <= |r.assignments|
    ensures SomeOwnOffer(r.assignments, owners, n) <==> OwnOffers(r, owners, n) != {}
  {
    if SomeOwnOffer(r.assignments, owners, n) {
      var j :| 0 <= j < n && OwnOffer(r.assignments[j], owners);
      assert j in OwnOffers(r, owners, n);
    }
    if OwnOffers(r, owners, n) != {} {
      var j :| j in OwnOffers(r, owners, n);
      assert OwnOffer(r.assignments[j], owners);
    }
  }

  lemma {:induction false} AcceptFirstEntries(p: Platform, v: nat, first: Id, r: Request, owners: set<Id>, actorId: Option<Id>, n: nat,
                                              clock: Time, now: Time, touchedAt: Time)
    requires InStep(p, v, first, r, clock) && clock <= now && n <= |r.assignments|
    requires AcceptFirst(p, r, owners, actorId, n, now, touchedAt).Ok?
    ensures AcceptEntries(r, AcceptFirst(p, r, owners, actorId, n, now, touchedAt).value.request, |OwnOffers(r, owners, n)|)
  {
    hide InStep, Kept, ChangeAssignment, AcceptedAs, OwnOffers, OwnOffer;
    if n == 0 {
      assert OwnOffers(r, owners, 0) == {} by { SomeOffers(r, owners, 0); }
    } else {
      AcceptFirstEntries(p, v, first, r, owners, actorId, n - 1, clock, now, touchedAt);
      AcceptFirstLaw(p, v, first, r, owners, actorId, n - 1, clock, now, touchedAt);
      var before := AcceptFirst(p, r, owners, actorId, n - 1, now, touchedAt).value;
      AcceptEntry(p, v, first, r, before, owners, actorId, n - 1, clock, now, touchedAt);
    }
  }

  lemma KeptStep(p: Platform, v: nat, first: Id, r: Request, b: Outcome, now: Time)
    requires Kept(p, v, first, r, b, now)
    ensures InStep(b.platform, v, first, b.request, now)
  {
  }

  lemma TakenSoFar(r: Request, y: Request, owners: set<Id>, n: nat, now: Time)
    requires n < |r.assignments| && |y.assignments| == |r.assignments| && AcceptedAs(r, y, owners, n, now)
    ensures OwnOffer(y.assignments[n], owners) <==> OwnOffer(r.assignments[n], owners)
    ensures y.status == if OwnOffers(r, owners, n) == {} then r.status else InProgress
  {
    SomeOffers(r, owners, n);
  }

  lemma AcceptEntry(p: Platform, v: nat, first: Id, r: Request, b: Outcome, owners: set<Id>, actorId: Option<Id>, n: nat,
                    clock: Time, now: Time, touchedAt: Time)
    requires n < |r.assignments| && |b.request.assignments| == |r.assignments|
    requires AcceptedAs(r, b.request, owners, n, now) && Kept(p, v, first, r, b, now)
    requires AcceptEntries(r, b.request, |OwnOffers(r, owners, n)|)
    ensures OwnOffer(b.request.assignments[n], owners) ==>
              var done := ChangeAssignment(b.platform, b.request, n, Accepted, actorId, None, false, now, touchedAt);
              done.Ok? ==> AcceptEntries(r, done.value.request, |OwnOffers(r, owners, n + 1)|)
    ensures !OwnOffer(b.request.assignments[n], owners) ==> AcceptEntries(r, b.request, |OwnOffers(r, owners, n + 1)|)
  {
    hide InStep, Kept, ChangeAssignment, AcceptedAs, OwnOffers, OwnOffer, WithTask, TaskRefusal;
    var y := b.request;
    KeptStep(p, v, first, r, b, now);
    TakenSoFar(r, y, owners, n, now);
    OneOfferMore(r, owners, n);
    if OwnOffer(y.assignments[n], owners) {
      TaskLaw(b.platform, v, first, y, n, Accepted, actorId, None, false, now, now, touchedAt);
      OfferEntry(y, n, owners, now);
      assert OwnOffers(r, owners, n) == {} <==> |OwnOffers(r, owners, n)| == 0;
    }
  }

  lemma OfferEntry(y: Request, n: nat, owners: set<Id>, now: Time)
    requires n < |y.assignments| && OwnOffer(y.assignments[n], owners)
    ensures WithTask(y, n, Accepted, None, now).history
         == y.history + [HistoryEntry(AssignmentAcceptedEvent, Some(y.status), Some(InProgress), None)]
  {
    AcceptedTask(y, n, now);
    hide Recalculated;
  }

  /** Accepting a request: not found without an assignment of one's own; forbidden when it
      would reopen a completed request; else exactly the own offers become accepted now,
      the request is in progress if there were any, and each is logged. */
  lemma AcceptAnswer(p: Platform, v: nat, first: Id, r: Request, owners: set<Id>, actorId: Option<Id>, clock: Time, now: Time, touchedAt: Time)
    requires InStep(p, v, first, r, clock) && clock <= now
    ensures var done := Accept(p, r, owners, actorId, now, touchedAt); var offers := OwnOffers(r, owners, |r.assignments|);
            var owned := exists a :: a in r.assignments && a.contractor in owners;
            && (done.Ok? <==> owned && (r.status == Completed ==> offers == {}))
            && (done.Err? ==> done.error == if owned then Forbidden else NotFound)
            && (done.Ok? ==>
                  var x := done.value.request;
                  && x == r.(assignments := x.assignments, history := x.history, status := if offers == {} then r.status else InProgress)
                  && |x.assignments| == |r.assignments| && AcceptEntries(r, x, |offers|)
                  && forall j: nat :: j < |r.assignments| ==>
                       x.assignments[j] == if j in offers then r.assignments[j].(status := Accepted, acceptedAt := Some(now)) else r.assignments[j])
  {
    hide InStep, Kept, AcceptFirst, SomeOwnOffer, AcceptEntries;
    AcceptLaw(p, v, first, r, owners, actorId, clock, now, touchedAt);
    SomeOffers(r, owners, |r.assignments|);
    StepSelf(p, v, first, r, clock);
    if Accept(p, r, owners, actorId, now, touchedAt).Ok? {
      AcceptFirstEntries(p, v, first, r, owners, actorId, |r.assignments|, clock, now, touchedAt);
      OfferedUnstamped(r, clock);
    }
  }

  lemma OfferedUnstamped(r: Request, clock: Time)
    requires SelfOk(r, clock)
    ensures forall j: nat :: j < |r.assignments| && r.assignments[j].status == Offered ==> r.assignments[j].acceptedAt.None?
  {
    forall j: nat | j < |r.assignments| && r.assignments[j].status == Offered ensures r.assignments[j].acceptedAt.None? {
      assert Stamped(r.assignments[j], clock);
    }
  }

  // -- The seeded workflow --------------------------------------------------

  /** Every status has an active state of its code: initial for DRAFT, terminal exactly
      when the table has no way on. */
  lemma SeedStateAnswer(d: Definition, first: Id, s: RequestStatus)
    requires IsSeeded(d, first)
    ensures exists x :: x in d.states && x.code == StatusCode(s) && x.id == first + IndexOf(s) && x.isActive
              && (x.isInitial <==> s == Draft) && (x.isTerminal <==> forall t :: !StatusStep(s, t))
              && (x.stateType == CancelledState <==> s == Cancelled) && (x.stateType == ClosedState <==> s == Closed)
              && (x.stateType == CompletedState <==> s == Completed)
  {
    var k := IndexOf(s);
    assert d.states[k] == SeedState(k, first);
    assert d.states[k] in d.states;
    assert StatusStep(Draft, New) && StatusStep(New, Cancelled) && StatusStep(PartiallyAssigned, Cancelled) && StatusStep(Assigned, Cancelled)
        && StatusStep(InProgress, Cancelled) && StatusStep(RequestStatus.Completed, Closed);
  }

  predicate Joins(t: Transition, first: Id, from': RequestStatus, to: RequestStatus) {
    t.fromId == first + IndexOf(from') && t.toId == first + IndexOf(to)
  }

  /** A transition leads from one state to another exactly when the table has the step. */
  lemma SeedTransitionAnswer(d: Definition, first: Id, s: RequestStatus, t: RequestStatus)
    requires IsSeeded(d, first)
    ensures StatusStep(s, t) <==> exists x :: x in d.transitions && Joins(x, first, s, t)
  {
    hide IsSeeded, Joins, NextStatuses, EdgeOf, StatusStep, SeedTransition;
    TablesAre(s, t, Offered, Offered);
    SeedRowsOf(d, first);
    if StatusStep(s, t) {
      var k := EdgeOf(s, t).value;
      SeedJoins(k, first, s, t);
      assert d.transitions[k] in d.transitions;
    }
    if exists x :: x in d.transitions && Joins(x, first, s, t) {
      var k :| 0 <= k < |d.transitions| && Joins(d.transitions[k], first, s, t);
      SeedJoins(k, first, s, t);
      EdgeInTable(k);
    }
  }

  lemma SeedJoins(k: nat, first: Id, s: RequestStatus, t: RequestStatus)
    requires k < EDGES
    ensures Joins(SeedTransition(k, first), first, s, t) <==> EdgeAt(k) == (s, t)
  {
    hide EdgeAt, IndexOf, EdgeCode, EdgePermission, EdgeAllowed;
    SeedPosition(s, EdgeAt(k).0);
    SeedPosition(t, EdgeAt(k).1);
  }

  lemma SeedRowsOf(d: Definition, first: Id)
    requires IsSeeded(d, first)
    ensures |d.transitions| == EDGES && forall k :: 0 <= k < EDGES ==> d.transitions[k] == SeedTransition(k, first)
  {
    SeedRows(first);
  }

  /** The adapter vetoes exactly the transitions that are no step of the table from the
      status the request has. */
  lemma VetoAnswer(d: Definition, first: Id, t: Transition, status: RequestStatus, to: RequestStatus)
    requires IsSeeded(d, first) && t.toId == first + IndexOf(to)
    ensures TransitionError(d, t, status) == if StatusStep(status, to) then None else Some(Conflict)
  {
    hide StatusCode, ParseStatus, FindState, IsSeeded, NextStatuses, StateTypeOf, StatusStep;
    TablesAre(status, to, Offered, Offered);
    SeedStateById(d, first, IndexOf(to));
    ParseInverts(to);
  }

  /** The consistency check finds no issue exactly when the request has an instance, in
      the state of its status. */
  lemma ConsistentIff(p: Platform, v: nat, first: Id, r: Request)
    requires PlatformOk(p) && Hosts(p, v, first)
    ensures Consistent(p, r) <==> Row(p, v, r.id).Some? && p.instances[Row(p, v, r.id).value].current == first + IndexOf(r.status)
  {
    hide CatalogOk, ExecutionsOk, RecordsOk, TimersOk, BreachesOk, IsSeeded, StateForStatus, IndexOf, StatusCode, StatusAt;
    SeedStateFound(p.catalog.defs[v], first, r.status);
    if Row(p, v, r.id).Some? {
      var i := Row(p, v, r.id).value;
      HostedRow(p, v, first, r.id);
      forall j | 0 <= j < |p.instances| && SameKey(p.instances[j], v, ENTITY_TYPE, r.id, INSTANCE_KEY) ensures j == i {
        assert i < j ==> !SameRowKey(p.instances[i], p.instances[j]);
      }
    }
  }
}
