/** `reachable_state_ids` of workflow_definition_service.py. */
module Reachability {
  import opened Wrappers
  import opened WorkflowModel

  /** `path` is a walk along active members of `ts` leading from `a` to `b`. */
  ghost predicate Walk(path: seq<Transition>, a: Id, b: Id, ts: seq<Transition>) {
    if path == [] then a == b
    else
      var last := path[|path| - 1];
      last in ts && last.isActive && last.toId == b && Walk(path[..|path| - 1], a, last.fromId, ts)
  }

  ghost predicate Connected(a: Id, b: Id, ts: seq<Transition>) {
    exists path :: Walk(path, a, b, ts)
  }

  lemma ConnectedSelf(a: Id, ts: seq<Transition>)
    ensures Connected(a, a, ts)
  {
    assert Walk([], a, a, ts);
  }

  lemma ConnectedStep(a: Id, t: Transition, ts: seq<Transition>)
    requires Connected(a, t.fromId, ts) && t in ts && t.isActive
    ensures Connected(a, t.toId, ts)
  {
    var path :| Walk(path, a, t.fromId, ts);
    assert (path + [t])[..|path|] == path;
    assert Walk(path + [t], a, t.toId, ts);
  }

  ghost predicate Closed(ids: set<Id>, ts: seq<Transition>) {
    forall t :: t in ts && t.isActive && t.fromId in ids ==> t.toId in ids
  }

  /** A closed set that holds the start of a walk holds its end. */
  lemma {:induction false} ClosedHoldsWalk(ids: set<Id>, path: seq<Transition>, a: Id, b: Id, ts: seq<Transition>)
    requires Closed(ids, ts) && a in ids && Walk(path, a, b, ts)
    ensures b in ids
  {
    if path != [] {
      var last := path[|path| - 1];
      ClosedHoldsWalk(ids, path[..|path| - 1], a, last.fromId, ts);
    }
  }

  /** The fixpoint loop returns exactly the states that a finite path of active
      transitions joins to the initial one, and it terminates. */
  method ReachableStateIds(initial: Id, transitions: seq<Transition>) returns (reachable: set<Id>)
    ensures forall x :: x in reachable <==> Connected(initial, x, transitions)
  {
    ghost var universe := {initial} + set t | t in transitions :: t.toId;
    reachable := {initial};
    ConnectedSelf(initial, transitions);
    var changed := true;
    while changed
      invariant initial in reachable && reachable <= universe
      invariant forall x :: x in reachable ==> Connected(initial, x, transitions)
      invariant !changed ==> Closed(reachable, transitions)
      decreases |universe - reachable|, changed
    {
      changed := false;
      ghost var before := reachable;
      for k := 0 to |transitions|
        invariant initial in reachable && before <= reachable <= universe
        invariant forall x :: x in reachable ==> Connected(initial, x, transitions)
        invariant changed <==> reachable != before
        invariant !changed ==> forall j :: 0 <= j < k && transitions[j].isActive && transitions[j].fromId in reachable
                                 ==> transitions[j].toId in reachable
      {
        var t := transitions[k];
        if t.isActive && t.fromId in reachable && t.toId !in reachable {
          ConnectedStep(initial, t, transitions);
          reachable := reachable + {t.toId};
          changed := true;
        }
      }
      if changed {
        Shrinks(universe, before, reachable);
      }
    }
    forall x | Connected(initial, x, transitions) ensures x in reachable {
      var path :| Walk(path, initial, x, transitions);
      ClosedHoldsWalk(reachable, path, initial, x, transitions);
    }
  }

  lemma Shrinks(universe: set<Id>, small: set<Id>, large: set<Id>)
    requires small < large <= universe
    ensures |universe - large| < |universe - small|
  {
    var x :| x in large && x !in small;
    var rest := universe - small - {x};
    assert universe - small == rest + {x};
    SubsetSize(universe - large, rest);
  }

  lemma {:induction false} SubsetSize(a: set<Id>, b: set<Id>)
    requires a <= b
    ensures |a| <= |b|
  {
    assert b == a + (b - a);
    assert |b| == |a| + |b - a|;
  }

  lemma {:induction false} WalkElsewhere(path: seq<Transition>, a: Id, b: Id, ts: seq<Transition>, us: seq<Transition>)
    requires Walk(path, a, b, ts)
    requires forall t :: t in ts && t.isActive ==> t in us
    ensures Walk(path, a, b, us)
  {
    if path != [] {
      WalkElsewhere(path[..|path| - 1], a, path[|path| - 1].fromId, ts, us);
    }
  }

  /** Reachability does not depend on the order, or the repetition, of the list. */
  lemma ConnectedByMembership(a: Id, b: Id, ts: seq<Transition>, us: seq<Transition>)
    requires forall t: Transition :: t.isActive ==> (t in ts <==> t in us)
    ensures Connected(a, b, ts) <==> Connected(a, b, us)
  {
    if Connected(a, b, ts) {
      var path :| Walk(path, a, b, ts);
      WalkElsewhere(path, a, b, ts, us);
    }
    if Connected(a, b, us) {
      var path :| Walk(path, a, b, us);
      WalkElsewhere(path, a, b, us, ts);
    }
  }
}
