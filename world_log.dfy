/**
 The observable side of the underlying dynamics world.

 The dynamics world that LinkedDynamicsWorld extends is not part of this model. What the
 linked world does to it is a sequence of calls: addRigidBody, destroyRigidBody and one of
 the three step entry points. This module records those calls as an event log and defines
 the functions and lemmas in which the linked world's contracts are stated.
 */
module WorldLog {

  /** An ImmobileRigidBody, as a HashSet tells bodies apart: by ImmobileRigidBody's equals,
      whose code is not part of this model. The model assumes that this is an identity
      (or id) comparison, so a body is an opaque handle and two bodies are the same exactly
      when their handles are equal. */
  datatype BodyId = BodyId(handle: nat)

  /** Which step entry point of the dynamics world was delegated to: update(),
      forceUpdate(dt) with its time step passed straight through, or forceUpdate(). */
  datatype StepKind = Auto | Forced(dt: real) | ForcedDefault

  /** One call into the dynamics world. */
  datatype Event = Add(body: BodyId) | Destroy(body: BodyId) | Step(kind: StepKind)

  /** The distinct bodies of a collection. */
  function Elements(bodies: seq<BodyId>): (r: set<BodyId>)
  {
    set b | b in bodies
  }

  /** One addRigidBody call per element of the collection, in iteration order. */
  function AddEvents(bodies: seq<BodyId>): (r: seq<Event>)
  {
    seq(|bodies|, i requires 0 <= i < |bodies| => Add(bodies[i]))
  }

  /** The bodies handed to addRigidBody in a log, counted with multiplicity. */
  function AddedIds(events: seq<Event>): (r: multiset<BodyId>)
  {
    if events == [] then multiset{}
    else
      var last := events[|events| - 1];
      AddedIds(events[..|events| - 1]) + (if last.Add? then multiset{last.body} else multiset{})
  }

  /** The bodies handed to destroyRigidBody in a log, counted with multiplicity. */
  function DestroyedIds(events: seq<Event>): (r: multiset<BodyId>)
  {
    if events == [] then multiset{}
    else
      var last := events[|events| - 1];
      DestroyedIds(events[..|events| - 1]) + (if last.Destroy? then multiset{last.body} else multiset{})
  }

  /** The bodies added since the dynamics world last stepped: what the linked world is
      meant to be tracking. */
  function PendingOf(log: seq<Event>): (r: set<BodyId>)
  {
    if log == [] then {}
    else
      var last := log[|log| - 1];
      match last
      case Step(_) => {}
      case Add(b) => PendingOf(log[..|log| - 1]) + {b}
      case Destroy(_) => PendingOf(log[..|log| - 1])
  }

  /** At every point of the log, no body had been destroyed more often than it had been
      added. */
  ghost predicate DestroysCovered(log: seq<Event>)
  {
    DestroyedIds(log) <= AddedIds(log) &&
    (log == [] || DestroysCovered(log[..|log| - 1]))
  }

  predicate AllDestroys(events: seq<Event>)
  {
    forall k :: 0 <= k < |events| ==> events[k].Destroy?
  }

  /** A cleanup pass over the tracking set `s`: destroyRigidBody calls only, one for each
      distinct body of `s` and none for any other body, in some order. */
  predicate IsDestroyPass(events: seq<Event>, s: set<BodyId>)
  {
    AllDestroys(events) && DestroyedIds(events) == multiset(s)
  }

  /** What one step variant of the linked world appends to the log `before` when `pending`
      is tracked: first the delegated step, then a cleanup pass over `pending`. */
  predicate IsStepOutcome(before: seq<Event>, pending: set<BodyId>, kind: StepKind, after: seq<Event>)
  {
    |before| < |after| &&
    after[..|before| + 1] == before + [Step(kind)] &&
    IsDestroyPass(after[|before| + 1..], pending)
  }

  predicate NoDuplicates(bodies: seq<BodyId>)
  {
    forall i, j :: 0 <= i < j < |bodies| ==> bodies[i] != bodies[j]
  }

  /** Counting over a concatenated log is the sum of the counts. */
  lemma {:induction false} IdsAppend(a: seq<Event>, b: seq<Event>)
    ensures AddedIds(a + b) == AddedIds(a) + AddedIds(b)
    ensures DestroyedIds(a + b) == DestroyedIds(a) + DestroyedIds(b)
  {
    if b != [] {
      var init := b[..|b| - 1];
      assert (a + b)[..|a + b| - 1] == a + init;
      assert (a + b)[|a + b| - 1] == b[|b| - 1];
      IdsAppend(a, init);
    } else {
      assert a + b == a;
    }
  }

  /** Appending one call changes the counts by that call alone. */
  lemma AppendOne(log: seq<Event>, e: Event)
    ensures AddedIds(log + [e]) == AddedIds(log) + (if e.Add? then multiset{e.body} else multiset{})
    ensures DestroyedIds(log + [e]) == DestroyedIds(log) + (if e.Destroy? then multiset{e.body} else multiset{})
  {
    assert (log + [e])[..|log|] == log;
  }

  /** DestroysCovered speaks of every prefix of the log, not only of the whole. */
  lemma {:induction false} CoveredPrefix(log: seq<Event>, k: nat)
    requires DestroysCovered(log)
    requires k <= |log|
    ensures DestroyedIds(log[..k]) <= AddedIds(log[..k])
  {
    if k < |log| {
      assert log[..|log| - 1][..k] == log[..k];
      CoveredPrefix(log[..|log| - 1], k);
    } else {
      assert log[..k] == log;
    }
  }

  /** A log that destroys a body before adding it is not covered, although its totals are. */
  lemma DestroyBeforeAddNotCovered(b: BodyId)
    ensures DestroyedIds([Destroy(b), Add(b)]) <= AddedIds([Destroy(b), Add(b)])
    ensures !DestroysCovered([Destroy(b), Add(b)])
  {
    AppendOne([], Destroy(b));
    AppendOne([Destroy(b)], Add(b));
    assert [Destroy(b), Add(b)][..1] == [Destroy(b)];
  }

  /** An append that keeps the totals covered keeps the whole log covered. */
  lemma CoveredAfterOne(log: seq<Event>, e: Event)
    requires DestroysCovered(log)
    requires DestroyedIds(log + [e]) <= AddedIds(log + [e])
    ensures DestroysCovered(log + [e])
  {
    assert (log + [e])[..|log|] == log;
  }

  /** An add call keeps the log covered. */
  lemma CoveredAfterAdd(log: seq<Event>, b: BodyId)
    requires DestroysCovered(log)
    ensures DestroysCovered(log + [Add(b)])
  {
    AppendOne(log, Add(b));
    CoveredAfterOne(log, Add(b));
  }

  /** Destroying one of the bodies still owed a destroy keeps the log covered, and the
      remaining ones are still owed theirs. */
  lemma CoveredAfterDestroy(log: seq<Event>, owed: set<BodyId>, b: BodyId)
    requires DestroysCovered(log)
    requires DestroyedIds(log) + multiset(owed) <= AddedIds(log)
    requires b in owed
    ensures DestroysCovered(log + [Destroy(b)])
    ensures DestroyedIds(log + [Destroy(b)]) + multiset(owed - {b}) <= AddedIds(log + [Destroy(b)])
  {
    AppendOne(log, Destroy(b));
    assert multiset(owed) == multiset(owed - {b}) + multiset{b};
    CoveredAfterOne(log, Destroy(b));
  }

  /** addLinkedBodies hands each element of its argument to addRigidBody, duplicates
      included, and destroys nothing. */
  lemma {:induction false} AddEventsIds(bodies: seq<BodyId>)
    ensures AddedIds(AddEvents(bodies)) == multiset(bodies)
    ensures DestroyedIds(AddEvents(bodies)) == multiset{}
  {
    if bodies != [] {
      var init := bodies[..|bodies| - 1];
      assert AddEvents(bodies)[..|bodies| - 1] == AddEvents(init);
      assert bodies == init + [bodies[|bodies| - 1]];
      AddEventsIds(init);
    }
  }

  /** Two addLinkedBodies calls in a row hand over both collections in full: a body in
      both is added twice. */
  lemma BatchesIds(first: seq<BodyId>, second: seq<BodyId>)
    ensures AddedIds(AddEvents(first) + AddEvents(second)) == multiset(first) + multiset(second)
    ensures DestroyedIds(AddEvents(first) + AddEvents(second)) == multiset{}
  {
    IdsAppend(AddEvents(first), AddEvents(second));
    AddEventsIds(first);
    AddEventsIds(second);
  }

  /** A log of destroy calls adds nothing. */
  lemma {:induction false} DestroysAddNothing(events: seq<Event>)
    requires AllDestroys(events)
    ensures AddedIds(events) == multiset{}
    ensures |DestroyedIds(events)| == |events|
  {
    if events != [] {
      DestroysAddNothing(events[..|events| - 1]);
    }
  }

  /** A cleanup pass makes one call per distinct tracked body. */
  lemma DestroyPassSize(events: seq<Event>, s: set<BodyId>)
    requires IsDestroyPass(events, s)
    ensures |events| == |s|
  {
    DestroysAddNothing(events);
  }

  /** A cleanup pass over an empty tracking set makes no call at all. */
  lemma EmptyDestroyPass(events: seq<Event>)
    requires IsDestroyPass(events, {})
    ensures events == []
  {
    DestroyPassSize(events, {});
  }

  /** Adding bodies extends the pending set by exactly the distinct bodies added. */
  lemma {:induction false} PendingAfterAdds(log: seq<Event>, bodies: seq<BodyId>)
    ensures PendingOf(log + AddEvents(bodies)) == PendingOf(log) + Elements(bodies)
  {
    if bodies != [] {
      var init := bodies[..|bodies| - 1];
      var x := bodies[|bodies| - 1];
      assert (log + AddEvents(bodies))[..|log| + |bodies| - 1] == log + AddEvents(init);
      assert (log + AddEvents(bodies))[|log| + |bodies| - 1] == Add(x);
      assert bodies == init + [x];
      assert Elements(bodies) == Elements(init) + {x};
      PendingAfterAdds(log, init);
    } else {
      assert log + AddEvents(bodies) == log;
    }
  }

  /** Destroy calls do not change what was added since the last step. */
  lemma {:induction false} PendingAfterDestroys(log: seq<Event>, events: seq<Event>)
    requires AllDestroys(events)
    ensures PendingOf(log + events) == PendingOf(log)
  {
    if events != [] {
      var init := events[..|events| - 1];
      assert (log + events)[..|log| + |events| - 1] == log + init;
      assert (log + events)[|log| + |events| - 1].Destroy?;
      PendingAfterDestroys(log, init);
    } else {
      assert log + events == log;
    }
  }

  /** After any step variant nothing is pending: the next tick starts from an empty set. */
  lemma StepOutcomeEmptiesPending(before: seq<Event>, pending: set<BodyId>, kind: StepKind, after: seq<Event>)
    requires IsStepOutcome(before, pending, kind, after)
    ensures PendingOf(after) == {}
  {
    var stepped := before + [Step(kind)];
    var tail := after[|before| + 1..];
    assert after == stepped + tail;
    assert PendingOf(stepped) == {};
    PendingAfterDestroys(stepped, tail);
  }

  /** A step destroys each tracked body once and adds nothing, so the bodies destroyed so
      far, together with those still tracked, stay covered by the bodies added. */
  lemma StepOutcomeBalance(before: seq<Event>, pending: set<BodyId>, kind: StepKind, after: seq<Event>)
    requires IsStepOutcome(before, pending, kind, after)
    ensures AddedIds(after) == AddedIds(before)
    ensures DestroyedIds(after) == DestroyedIds(before) + multiset(pending)
  {
    var tail := after[|before| + 1..];
    assert after == before + [Step(kind)] + tail;
    IdsAppend(before, [Step(kind)]);
    IdsAppend(before + [Step(kind)], tail);
    DestroysAddNothing(tail);
    assert AddedIds([Step(kind)]) == multiset{} by {
      assert [Step(kind)][..0] == [];
    }
    assert DestroyedIds([Step(kind)]) == multiset{} by {
      assert [Step(kind)][..0] == [];
    }
  }

  /** All three step variants, from the same log and the same tracking set, destroy the
      same bodies and leave nothing pending. */
  lemma StepVariantsAgree(before: seq<Event>, pending: set<BodyId>,
                          k1: StepKind, after1: seq<Event>, k2: StepKind, after2: seq<Event>)
    requires IsStepOutcome(before, pending, k1, after1)
    requires IsStepOutcome(before, pending, k2, after2)
    ensures DestroyedIds(after1) == DestroyedIds(after2)
    ensures AddedIds(after1) == AddedIds(after2)
    ensures PendingOf(after1) == PendingOf(after2) == {}
    ensures |after1| == |after2|
  {
    StepOutcomeBalance(before, pending, k1, after1);
    StepOutcomeBalance(before, pending, k2, after2);
    StepOutcomeEmptiesPending(before, pending, k1, after1);
    StepOutcomeEmptiesPending(before, pending, k2, after2);
    DestroyPassSize(after1[|before| + 1..], pending);
    DestroyPassSize(after2[|before| + 1..], pending);
  }

  /** A tracking set counts each body once; it covers a collection whose elements it holds. */
  lemma UnionBound(tracked: set<BodyId>, bodies: seq<BodyId>)
    ensures multiset(tracked + Elements(bodies)) <= multiset(tracked) + multiset(bodies)
  {
    forall b | b in tracked + Elements(bodies)
      ensures multiset(tracked + Elements(bodies))[b] <= (multiset(tracked) + multiset(bodies))[b]
    {
      if b !in tracked {
        assert b in bodies;
      }
    }
  }

  /** A collection without duplicates counts each of its bodies once. */
  lemma {:induction false} DistinctIsSetLike(bodies: seq<BodyId>)
    requires NoDuplicates(bodies)
    ensures multiset(bodies) == multiset(Elements(bodies))
  {
    if bodies != [] {
      var init := bodies[..|bodies| - 1];
      var x := bodies[|bodies| - 1];
      assert bodies == init + [x];
      assert NoDuplicates(init);
      assert x !in init;
      assert Elements(bodies) == Elements(init) + {x};
      assert x !in Elements(init);
      DistinctIsSetLike(init);
      assert multiset(Elements(bodies)) == multiset(Elements(init)) + multiset{x};
    } else {
      assert Elements(bodies) == {};
    }
  }

  /** A body that occurs at two positions is counted at least twice. */
  lemma DuplicateCountsTwice(bodies: seq<BodyId>, i: nat, j: nat)
    requires i < j < |bodies| && bodies[i] == bodies[j]
    ensures multiset(bodies)[bodies[i]] >= 2
  {
    var x := bodies[i];
    assert bodies == bodies[..j] + bodies[j..];
    assert bodies[..j][i] == x;
    assert bodies[j..][0] == x;
    assert multiset(bodies) == multiset(bodies[..j]) + multiset(bodies[j..]);
  }

  /** A collection counts each of its bodies once exactly when it has no duplicates. */
  lemma DistinctIffSetLike(bodies: seq<BodyId>)
    ensures multiset(bodies) == multiset(Elements(bodies)) <==> NoDuplicates(bodies)
  {
    if NoDuplicates(bodies) {
      DistinctIsSetLike(bodies);
    } else {
      var i, j :| 0 <= i < j < |bodies| && bodies[i] == bodies[j];
      DuplicateCountsTwice(bodies, i, j);
      assert multiset(Elements(bodies))[bodies[i]] == 1;
    }
  }

  /** One tick: from a log with nothing pending, the given bodies are added, and then one
      step variant runs over the tracking set they form. The tick adds every element of
      the collection, destroys every distinct body once, and leaves nothing pending. */
  lemma TickCycle(before: seq<Event>, bodies: seq<BodyId>, kind: StepKind, after: seq<Event>)
    requires PendingOf(before) == {}
    requires IsStepOutcome(before + AddEvents(bodies), Elements(bodies), kind, after)
    ensures PendingOf(before + AddEvents(bodies)) == Elements(bodies)
    ensures AddedIds(after) == AddedIds(before) + multiset(bodies)
    ensures DestroyedIds(after) == DestroyedIds(before) + multiset(Elements(bodies))
    ensures PendingOf(after) == {}
  {
    var added := before + AddEvents(bodies);
    PendingAfterAdds(before, bodies);
    IdsAppend(before, AddEvents(bodies));
    AddEventsIds(bodies);
    StepOutcomeBalance(added, Elements(bodies), kind, after);
    StepOutcomeEmptiesPending(added, Elements(bodies), kind, after);
  }

  /** A tick leaves the world with as many destroys as adds exactly when the collection had
      no duplicates: a body handed over twice is added twice and destroyed once. */
  lemma TickBalancedIffDistinct(before: seq<Event>, bodies: seq<BodyId>, kind: StepKind, after: seq<Event>)
    requires PendingOf(before) == {}
    requires IsStepOutcome(before + AddEvents(bodies), Elements(bodies), kind, after)
    ensures (AddedIds(after) - AddedIds(before) == DestroyedIds(after) - DestroyedIds(before))
            <==> NoDuplicates(bodies)
  {
    TickCycle(before, bodies, kind, after);
    DistinctIffSetLike(bodies);
    assert AddedIds(after) - AddedIds(before) == multiset(bodies);
    assert DestroyedIds(after) - DestroyedIds(before) == multiset(Elements(bodies));
  }
}
