/**
 The linked dynamics world: a dynamics world that takes in static bodies for one physics
 tick and destroys them again right after the tick's step.

 The superclass DynamicsWorld is flattened into the class below: its state is the event log
 of WorldLog, and addRigidBody, destroyRigidBody and its step entry points each append the
 event for their call and touch nothing else of this model.
 */
module Engine {
  import opened WorldLog

  /** The LinkedWorldInfo handed to the constructor, held by reference: an opaque identity. */
  datatype LinkedWorldInfo = LinkedWorldInfo(handle: nat)

  class LinkedDynamicsWorld {
    /** The info for this world; `const`, so no method can reassign it. */
    const info: LinkedWorldInfo
    /** The bodies added in the current tick, destroyed after the next step. */
    var linked: set<BodyId>
    /** The calls made so far into the underlying dynamics world. */
    var log: seq<Event>

    /** The class invariant: every tracked body has been handed to addRigidBody since the
        world last stepped. Other code may add or destroy bodies directly through the
        inherited methods; that does not break it. */
    ghost predicate Valid()
      reads this
    {
      linked <= PendingOf(log)
    }

    /** The accounting the linked world keeps as long as bodies are destroyed only by its
        own cleanup: at every point of the log no body had been destroyed more often than
        it had been added, and each tracked body is still owed one destroy beyond those. */
    ghost predicate Balanced()
      reads this
    {
      DestroysCovered(log) &&
      DestroyedIds(log) + multiset(linked) <= AddedIds(log)
    }

    /** A new world over an empty dynamics world, tracking nothing. The gravity vector is
        passed straight to the superclass and is not modelled. */
    constructor (info: LinkedWorldInfo)
      ensures Valid() && Balanced()
      ensures this.info == info
      ensures linked == {} && log == []
    {
      this.info := info;
      linked := {};
      log := [];
    }

    /** The info given to the constructor. */
    function GetLinkedInfo(): (r: LinkedWorldInfo)
      ensures r == info
    {
      info
    }

    /** DynamicsWorld.addRigidBody, not part of this model: records the call. It may also
        be called directly, for a body the linked world does not track. */
    method AddRigidBody(body: BodyId)
      modifies this`log
      ensures log == old(log) + [Add(body)]
      ensures old(Valid()) ==> Valid()
      ensures old(Balanced()) ==> Balanced()
    {
      log := log + [Add(body)];
      PendingAfterAdds(old(log), [body]);
      assert AddEvents([body]) == [Add(body)];
      if old(Balanced()) {
        CoveredAfterAdd(old(log), body);
        AppendOne(old(log), Add(body));
      }
    }

    /** DynamicsWorld.destroyRigidBody, not part of this model: records the call. */
    method DestroyRigidBody(body: BodyId)
      modifies this`log
      ensures log == old(log) + [Destroy(body)]
      ensures old(Valid()) ==> Valid()
    {
      log := log + [Destroy(body)];
      PendingAfterDestroys(old(log), [Destroy(body)]);
    }

    /** One of DynamicsWorld's step entry points, not part of this model: records the call.
        It is reached only from the overriding step methods below. */
    method BaseStep(kind: StepKind)
      modifies this`log
      ensures log == old(log) + [Step(kind)]
      ensures old(Balanced()) ==> Balanced()
    {
      log := log + [Step(kind)];
      AppendOne(old(log), Step(kind));
      if old(Balanced()) {
        CoveredAfterOne(old(log), Step(kind));
      }
    }

    /** Tracks the given bodies and hands each element of the collection, in iteration order
        and duplicates included, to addRigidBody. */
    method AddLinkedBodies(bodies: seq<BodyId>)
      requires Valid()
      modifies this
      ensures Valid()
      ensures old(Balanced()) ==> Balanced()
      ensures linked == old(linked) + Elements(bodies)
      ensures log == old(log) + AddEvents(bodies)
      ensures bodies == [] ==> linked == old(linked) && log == old(log)
    {
      linked := linked + Elements(bodies);
      for i := 0 to |bodies|
        invariant linked == old(linked) + Elements(bodies)
        invariant log == old(log) + AddEvents(bodies[..i])
        invariant old(Balanced()) ==> DestroysCovered(log)
      {
        assert AddEvents(bodies[..i + 1]) == AddEvents(bodies[..i]) + [Add(bodies[i])];
        ghost var before := log;
        AddRigidBody(bodies[i]);
        if old(Balanced()) {
          CoveredAfterAdd(before, bodies[i]);
        }
      }
      assert bodies[..|bodies|] == bodies;
      PendingAfterAdds(old(log), bodies);
      if old(Balanced()) {
        IdsAppend(old(log), AddEvents(bodies));
        AddEventsIds(bodies);
        UnionBound(old(linked), bodies);
      }
      assert bodies == [] ==> AddEvents(bodies) == [];
    }

    /** Destroys every tracked body, once each, then empties the tracking set. */
    method DestroyAndClear()
      modifies this
      ensures linked == {}
      ensures |old(log)| <= |log| && log[..|old(log)|] == old(log)
      ensures IsDestroyPass(log[|old(log)|..], old(linked))
      ensures old(linked) == {} ==> log == old(log)
      ensures old(Balanced()) ==> Balanced()
    {
      var rest := linked;
      ghost var done: seq<Event> := [];
      while rest != {}
        invariant rest <= linked
        invariant log == old(log) + done
        invariant IsDestroyPass(done, linked - rest)
        invariant linked == old(linked)
        invariant old(Balanced()) ==>
          DestroysCovered(log) && DestroyedIds(log) + multiset(rest) <= AddedIds(log)
        decreases rest
      {
        var body :| body in rest;
        ghost var before := log;
        DestroyRigidBody(body);
        if old(Balanced()) {
          CoveredAfterDestroy(before, rest, body);
        }
        assert (done + [Destroy(body)])[..|done|] == done;
        assert linked - (rest - {body}) == (linked - rest) + {body};
        done := done + [Destroy(body)];
        rest := rest - {body};
      }
      assert linked - rest == linked;
      assert log[|old(log)|..] == done;
      linked := {};
      if old(linked) == {} {
        EmptyDestroyPass(done);
      }
    }

    /** update(): the superclass's auto step, then the cleanup pass. */
    method Update()
      requires Valid()
      modifies this
      ensures Valid() && (old(Balanced()) ==> Balanced())
      ensures linked == {}
      ensures IsStepOutcome(old(log), old(linked), Auto, log)
    {
      BaseStep(Auto);
      DestroyAndClear();
    }

    /** forceUpdate(dt): the superclass's forced step by `dt`, then the cleanup pass. */
    method ForceUpdateBy(dt: real)
      requires Valid()
      modifies this
      ensures Valid() && (old(Balanced()) ==> Balanced())
      ensures linked == {}
      ensures IsStepOutcome(old(log), old(linked), Forced(dt), log)
    {
      BaseStep(Forced(dt));
      DestroyAndClear();
    }

    /** forceUpdate(): the superclass's forced step by its default time step, then the
        cleanup pass. */
    method ForceUpdate()
      requires Valid()
      modifies this
      ensures Valid() && (old(Balanced()) ==> Balanced())
      ensures linked == {}
      ensures IsStepOutcome(old(log), old(linked), ForcedDefault, log)
    {
      BaseStep(ForcedDefault);
      DestroyAndClear();
    }
  }

  /** The log of the tick below: after the batches [A, B] and [B, C] of three distinct
      bodies and one step over the tracking set {A, B, C}, B has been added twice and destroyed once. */
  lemma SharedBodyTickCounts(a: BodyId, b: BodyId, c: BodyId, kind: StepKind, log: seq<Event>)
    requires a != b && b != c && a != c
    requires IsStepOutcome(AddEvents([a, b]) + AddEvents([b, c]), {a, b, c}, kind, log)
    ensures AddedIds(log) == multiset{a, b, b, c}
    ensures DestroyedIds(log) == multiset{a, b, c}
  {
    BatchesIds([a, b], [b, c]);
    assert multiset([a, b]) + multiset([b, c]) == multiset{a, b, b, c};
    StepOutcomeBalance(AddEvents([a, b]) + AddEvents([b, c]), {a, b, c}, kind, log);
    assert multiset({a, b, c}) == multiset{a, b, c};
  }

  /** Two batches sharing a body, {A, B} and then {B, C}, followed by update(). The tracking
      set is {A, B, C} during the step and empty after it; B is handed to addRigidBody twice,
      once per batch, since each batch is iterated in full, and is destroyed once. The info
      reference is still the one given to the constructor. */
  method SharedBodyTick() returns (duringStep: set<BodyId>, afterStep: set<BodyId>, log: seq<Event>, info: LinkedWorldInfo)
    ensures duringStep == {BodyId(1), BodyId(2), BodyId(3)}
    ensures afterStep == {}
    ensures AddedIds(log) == multiset{BodyId(1), BodyId(2), BodyId(2), BodyId(3)}
    ensures DestroyedIds(log) == multiset{BodyId(1), BodyId(2), BodyId(3)}
    ensures info == LinkedWorldInfo(7)
  {
    var a, b, c := BodyId(1), BodyId(2), BodyId(3);
    var w := new LinkedDynamicsWorld(LinkedWorldInfo(7));
    w.AddLinkedBodies([a, b]);
    assert Elements([a, b]) == {a, b};
    assert w.log == AddEvents([a, b]);
    w.AddLinkedBodies([b, c]);
    assert Elements([b, c]) == {b, c};
    duringStep := w.linked;
    assert w.log == AddEvents([a, b]) + AddEvents([b, c]);
    w.Update();
    afterStep := w.linked;
    log := w.log;
    info := w.GetLinkedInfo();
    SharedBodyTickCounts(a, b, c, Auto, log);
  }

  /** The log of the tick below: a body `x` added directly and a tracked body `y`, then one
      step over the tracking set {y}. Only `y` is destroyed. */
  lemma DirectBodyTickCounts(x: BodyId, y: BodyId, kind: StepKind, log: seq<Event>)
    requires x != y
    requires IsStepOutcome([Add(x)] + AddEvents([y]), {y}, kind, log)
    ensures AddedIds(log) == multiset{x, y}
    ensures DestroyedIds(log) == multiset{y}
  {
    IdsAppend([Add(x)], AddEvents([y]));
    AddEventsIds([y]);
    AppendOne([], Add(x));
    StepOutcomeBalance([Add(x)] + AddEvents([y]), {y}, kind, log);
  }

  /** A body handed to addRigidBody directly before a tick is not the linked world's to
      destroy: update() destroys only the tracked body and leaves the other in the world. */
  method DirectBodyTick() returns (afterStep: set<BodyId>, log: seq<Event>)
    ensures afterStep == {}
    ensures AddedIds(log) == multiset{BodyId(9), BodyId(1)}
    ensures DestroyedIds(log) == multiset{BodyId(1)}
  {
    var x, y := BodyId(9), BodyId(1);
    var w := new LinkedDynamicsWorld(LinkedWorldInfo(7));
    w.AddRigidBody(x);
    w.AddLinkedBodies([y]);
    assert Elements([y]) == {y};
    assert w.log == [Add(x)] + AddEvents([y]);
    w.Update();
    afterStep := w.linked;
    log := w.log;
    DirectBodyTickCounts(x, y, Auto, log);
  }
}
