/** Nothing sensitive is ever stored: every payload the engine writes is scrubbed. */
module EngineScrubbing {
  import opened Wrappers
  import opened JsonScrubber
  import opened WorkflowModel
  import opened DefinitionService
  import opened WorkflowEngine
  import opened EngineLaws
  import opened EngineRuns

  /** A scrub would change nothing: under every sensitive key there is the mask. */
  predicate Scrubbed(value: Option<Object>) {
    SafeJson(value) == value
  }

  ghost predicate AllScrubbed(p: Platform) {
    && (forall k :: 0 <= k < |p.outbox| ==> Scrubbed(Some(p.outbox[k].payload)))
    && (forall k :: 0 <= k < |p.executions| ==> Scrubbed(p.executions[k].input) && Scrubbed(p.executions[k].result))
    && (forall k :: 0 <= k < |p.records| ==> Scrubbed(p.records[k].fingerprint.input))
  }

  lemma SafeIsScrubbed(value: Option<Object>)
    ensures Scrubbed(SafeJson(value))
  {
    if value.Some? {
      ScrubIdempotentObject(value.value);
    }
  }

  lemma ScrubIdempotentObject(value: Object)
    ensures ScrubObject(ScrubObject(value)) == ScrubObject(value)
  {
    TransitionKeyPlain();
    ScrubIdempotent("transition", Obj(value));
    assert Scrub("transition", Obj(value)) == Obj(ScrubObject(value));
  }

  const INSTANCE_KEY_NAME := "workflow_instance_id"

  /** Its letters, and what follows an `s` or a `t`. */
  lemma InstanceKeyLetters()
    ensures var key := INSTANCE_KEY_NAME;
            && |key| == 20
            && (forall i :: 0 <= i < 20 ==> ('a' <= key[i] <= 'z' || key[i] == '_') && key[i] != 'p')
            && (forall i :: 0 <= i < 19 ==> (key[i] == 's' ==> key[i + 1] == 't') && (key[i] == 't' ==> key[i + 1] == 'a'))
  {
    var key := INSTANCE_KEY_NAME;
    assert key[0] == 'w' && key[1] == 'o' && key[2] == 'r' && key[3] == 'k' && key[4] == 'f' && key[5] == 'l' && key[6] == 'o';
    assert key[7] == 'w' && key[8] == '_' && key[9] == 'i' && key[10] == 'n' && key[11] == 's' && key[12] == 't' && key[13] == 'a';
    assert key[14] == 'n' && key[15] == 'c' && key[16] == 'e' && key[17] == '_' && key[18] == 'i' && key[19] == 'd';
  }

  lemma InstanceKeyPlain()
    ensures !Sensitive(INSTANCE_KEY_NAME)
  {
    InstanceKeyLetters();
    hide INSTANCE_KEY_NAME;
    PlainByPairs(INSTANCE_KEY_NAME);
  }

  lemma PlainByPairs(key: string)
    requires |key| == 20
    requires forall i :: 0 <= i < 20 ==> ('a' <= key[i] <= 'z' || key[i] == '_') && key[i] != 'p'
    requires forall i :: 0 <= i < 19 ==> (key[i] == 's' ==> key[i + 1] == 't') && (key[i] == 't' ==> key[i + 1] == 'a')
    ensures !Sensitive(key)
  {
    assert Lower(key) == key;
    hide Lower, Contains;
    if Contains(key, "password") { ContainsPair(key, "password"); }
    if Contains(key, "secret") { ContainsPair(key, "secret"); }
    if Contains(key, "token") { ContainsPair(key, "token"); }
  }

  /** Where a part occurs, its first two characters follow each other. */
  lemma ContainsPair(s: string, part: string)
    requires Contains(s, part) && |part| >= 2
    ensures exists at :: 0 <= at < |s| - 1 && s[at] == part[0] && s[at + 1] == part[1]
  {
    var at :| 0 <= at <= |s| && PartAt(s, part, at);
    assert s[at..at + |part|][0] == s[at] && s[at..at + |part|][1] == s[at + 1];
  }

  lemma BreachScrubbed(timers: seq<Timer>, k: nat)
    requires k < |timers|
    ensures Scrubbed(Some(BreachEvent(timers, k).payload))
  {
    InstanceKeyPlain();
    hide Sensitive, IdText;
    ScrubFixesPayload(BreachEvent(timers, k).payload);
  }

  lemma {:induction false} BreachesScrubbed(timers: seq<Timer>, now: Time)
    ensures forall k :: 0 <= k < |BreachEvents(timers, now)| ==> Scrubbed(Some(BreachEvents(timers, now)[k].payload))
  {
    hide Scrubbed, BreachEvent;
    if timers != [] {
      BreachesScrubbed(timers[..|timers| - 1], now);
      BreachScrubbed(timers, |timers| - 1);
    }
  }

  lemma EventScrubbed(p: Platform, kind: EventKind, inst: Instance, payload: Object)
    requires AllScrubbed(p)
    ensures AllScrubbed(WithEvent(p, kind, inst, payload))
  {
    SafeIsScrubbed(Some(payload));
    hide Scrubbed;
  }

  lemma AdvanceScrubbed(p: Platform, i: nat, t: Transition, q: TransitionRequest, result: Option<Object>, now: Time)
    requires AllScrubbed(p) && i < |p.instances| && p.instances[i].definition < |p.catalog.defs|
    ensures AllScrubbed(Advance(p, i, t, ExecutionOf(i, p.instances[i], t, q, result), now))
  {
    var inst := p.instances[i];
    var d := p.catalog.defs[inst.definition];
    var e := ExecutionOf(i, inst, t, q, result);
    SafeIsScrubbed(q.input);
    SafeIsScrubbed(result);
    var moved := p.(instances := p.instances[i := Entered(inst, t.toId, FindState(d.states, t.toId), now)],
                    timers := CompleteTimers(p.timers, i, now) + NewTimers(d.policies, i, t.toId, Some(t.id), now),
                    executions := p.executions + [e]);
    hide Scrubbed, SafeJson, WithEvent, ExecutedPayload, IdText, FindState, NewTimers, CompleteTimers, Entered;
    assert AllScrubbed(moved);
    EventScrubbed(moved, TransitionExecuted, inst, ExecutedPayload(t.code, IdText(e.fromId), IdText(e.toId), e.result));
    EventScrubbed(WithEvent(moved, TransitionExecuted, inst, ExecutedPayload(t.code, IdText(e.fromId), IdText(e.toId), e.result)),
                  StateChanged, inst, map["transition" := Str(t.code), "state_id" := Str(IdText(t.toId))]);
  }

  lemma ExecuteScrubbed(p: Platform, q: TransitionRequest, a: Adapter, now: Time)
    requires AllScrubbed(p) && Execute(p, q, a, now).Ok?
    ensures AllScrubbed(Execute(p, q, a, now).value.platform)
  {
    hide AllScrubbed, Execute, Advance;
    var i, t := ExecuteCase(p, q, a, now);
    if !Execute(p, q, a, now).value.replayed {
      AdvanceScrubbed(p, i, t, q, Some(a.applied.value), now);
      RecordScrubbed(p, q, a.applied.value, now, i, t);
    }
  }

  lemma RecordScrubbed(p: Platform, q: TransitionRequest, result: Object, now: Time, i: nat, t: Transition)
    requires i < |p.instances| && p.instances[i].definition < |p.catalog.defs|
    requires AllScrubbed(Advance(p, i, t, ExecutionOf(i, p.instances[i], t, q, Some(result)), now))
    requires AllScrubbed(p)
    ensures AllScrubbed(Performed(p, q, result, now, i, t))
  {
    SafeIsScrubbed(q.input);
    hide Scrubbed, SafeJson;
  }

  lemma AfterScrubbed(p: Platform, step: PlatformStep, now: Time)
    requires AllScrubbed(p)
    ensures AllScrubbed(After(p, step, now))
  {
    hide Scrubbed, SafeJson, Execute, Advance, ApplyCatalog, BreachEvents, ScrubObject;
    match step
    case EditCatalog(edit) =>
    case StartStep(q, a) => StartScrubbed(p, q, a, now);
    case ExecuteStep(q, a) => if Execute(p, q, a, now).Ok? { ExecuteScrubbed(p, q, a, now); }
    case RecordStep(q, result, a) => RecordStepScrubbed(p, q, result, a, now);
    case CancelStep(i, reason) => CancelScrubbed(p, i, reason, now);
    case SweepStep => BreachesScrubbed(p.timers, now);
  }

  lemma StartScrubbed(p: Platform, q: StartRequest, a: Adapter, now: Time)
    requires AllScrubbed(p)
    ensures Start(p, q, a, now).Ok? ==> AllScrubbed(Start(p, q, a, now).value.platform)
  {
    if Start(p, q, a, now).Ok? && Start(p, q, a, now).value.platform != p {
      var def := LatestDefinition(p.catalog.defs, q.entityType, q.workflowCode).value;
      SafeIsScrubbed(Some(map["state" := Str(InitialOf(p.catalog.defs[def]).value.code), "context" := Obj(a.context)]));
    }
    hide Scrubbed, InitialOf, LatestDefinition;
  }

  lemma RecordStepScrubbed(p: Platform, q: TransitionRequest, result: Option<Object>, a: Adapter, now: Time)
    requires AllScrubbed(p)
    ensures RecordExternal(p, q, result, a, now).Ok? ==> AllScrubbed(RecordExternal(p, q, result, a, now).value.platform)
  {
    hide AllScrubbed, Advance, Gate;
    if RecordExternal(p, q, result, a, now).Ok? {
      var i := LookupInstance(p, q.entityType, q.entityId, q.workflowCode, q.instanceKey).value;
      var t := FindTransition(p.catalog.defs[p.instances[i].definition].transitions, q.code).value;
      AdvanceScrubbed(p, i, t, q, result, now);
    }
  }

  lemma CancelScrubbed(p: Platform, i: nat, reason: Option<string>, now: Time)
    requires AllScrubbed(p)
    ensures Cancel(p, i, reason, now).Ok? ==> AllScrubbed(Cancel(p, i, reason, now).value)
  {
    SafeIsScrubbed(Some(map["reason_code" := if reason.None? then Null else Str(reason.value)]));
    hide Scrubbed, FindState, CancelledStateOf;
  }

  /** Over every run from an empty engine: in every event, in the input and result of
      every execution, and in the payload of every record, there is nothing under a
      sensitive key but the mask, at any depth. */
  lemma {:induction false} RunScrubbed(c: Catalog, t: Time, steps: seq<Timed>)
    ensures AllScrubbed(Run(Genesis(c), t, steps))
  {
    hide After, AllScrubbed;
    if steps != [] {
      RunScrubbed(c, t, steps[..|steps| - 1]);
      AfterScrubbed(Run(Genesis(c), t, steps[..|steps| - 1]), steps[|steps| - 1].step, ClockAt(t, steps));
    } else {
      NothingStored(c);
    }
  }

  lemma NothingStored(c: Catalog)
    ensures AllScrubbed(Genesis(c))
  {
  }

  /** What being scrubbed means: a sensitive key anywhere holds the mask. */
  lemma ScrubbedShowsNothing(value: Object, path: seq<Step>, k: string)
    requires Scrubbed(Some(value)) && Clean(path) && Sensitive(k)
    requires At(Obj(value), path).Some? && At(Obj(value), path).value.Obj? && k in At(Obj(value), path).value.fields
    ensures At(Obj(value), path + [Key(k)]) == Some(MASK)
  {
    SafeJsonLaw(value, path, k);
  }
}
