# LinkedDynamicsWorld

A Dafny model of `LinkedDynamicsWorld` from the React physics engine. This class is a
`DynamicsWorld` that takes in static bodies (`ImmobileRigidBody`) for one physics tick.
`addLinkedBodies` records the bodies in a tracking set (`linkedBodies`) and registers each
one with the world. Each of the three step entry points (`update()`, `forceUpdate(dt)`,
`forceUpdate()`) runs the superclass step. It then destroys every tracked body and
empties the set.

The model has two modules:

- `WorldLog` (`world_log.dfy`) models what the linked world does to its superclass as a
  log of calls. An `Event` is `Add(body)` for `addRigidBody`, `Destroy(body)` for
  `destroyRigidBody`, or `Step(kind)` for a delegated step. The module defines the
  functions the contracts use: counting adds and destroys (`AddedIds`, `DestroyedIds`),
  the bodies added since the last step (`PendingOf`), a cleanup pass (`IsDestroyPass`)
  and a whole step (`IsStepOutcome`). It also holds the lemmas about them.
- `Engine` (`linked_dynamics_world.dfy`) holds the class `LinkedDynamicsWorld`. Its fields
  are `info` (a `const`), `linked` (the tracking set) and `log` (the superclass's
  observable state). Its invariant `Valid()` says that every tracked body was handed to
  `addRigidBody` after the last step. Every public method keeps it, including the
  inherited `addRigidBody` and `destroyRigidBody` when other code calls them directly.
  A second predicate, `Balanced()`, holds as long as only the linked world's own cleanup
  destroys bodies. It says that at every point of the log, no body had been destroyed
  more often than it had been added. It also says that each tracked body still has one
  add that no destroy has matched yet.

Bodies and the `LinkedWorldInfo` are opaque handles. A `HashSet` tells its members apart
by `equals`/`hashCode`, and `ImmobileRigidBody`'s `equals` is not part of this model.
`BodyId` stands for whatever that `equals` identifies. The model assumes it is identity
(or id) equality, so two bodies are the same exactly when their handles are equal.
`Collection<ImmobileRigidBody>` becomes `seq<BodyId>`: the iteration order is kept, and so
are duplicates.

The tracking set deduplicates (line 82), but lines 83-85 iterate the batch itself. So a
body handed over in `{A, B}` and then `{B, C}` gets two `addRigidBody` calls and one
`destroyRigidBody` call. `SharedBodyTick` and `TickBalancedIffDistinct` state this.

Java overloads `forceUpdate`. In the model, `forceUpdate(float dt)` is `ForceUpdateBy(dt)`
and `forceUpdate()` is `ForceUpdate`.

## Model

| member | source | states |
|---|---|---|
| `Engine.LinkedDynamicsWorld.constructor` | src/main/java/org/spout/physics/engine/LinkedDynamicsWorld.java:41-46 | a new world keeps the given info, tracks no body and has made no call into the dynamics world; `Valid()` and `Balanced()` hold |
| `Engine.LinkedDynamicsWorld.GetLinkedInfo` | src/main/java/org/spout/physics/engine/LinkedDynamicsWorld.java:71-73 | returns the info fixed at construction; the field is `const`, so no method reassigns it |
| `Engine.LinkedDynamicsWorld.AddRigidBody` | src/main/java/org/spout/physics/engine/LinkedDynamicsWorld.java:84 | the inherited add is one `Add` event; it leaves the tracking set alone and keeps `Valid()` and `Balanced()`, even when called directly |
| `Engine.LinkedDynamicsWorld.DestroyRigidBody` | src/main/java/org/spout/physics/engine/LinkedDynamicsWorld.java:93 | the inherited destroy is one `Destroy` event; it leaves the tracking set alone and keeps `Valid()`, even when called directly |
| `Engine.LinkedDynamicsWorld.BaseStep` | src/main/java/org/spout/physics/engine/LinkedDynamicsWorld.java:50 | the superclass step is one `Step` event; it leaves the tracking set alone and keeps `Balanced()` |
| `Engine.LinkedDynamicsWorld.AddLinkedBodies` | src/main/java/org/spout/physics/engine/LinkedDynamicsWorld.java:81-86 | the new tracking set is the old one united with the batch's elements; the log gains one `Add` per element of the batch, in order, duplicates included, and nothing else; an empty batch changes nothing; `Valid()` is kept, and so is `Balanced()` |
| `Engine.LinkedDynamicsWorld.DestroyAndClear` | src/main/java/org/spout/physics/engine/LinkedDynamicsWorld.java:91-96 | the old log is kept as a prefix; what follows is one `Destroy` for each distinct tracked body and none for any other; the set ends empty; over an empty set the log is unchanged, so a second call adds nothing; `Balanced()` is kept |
| `Engine.LinkedDynamicsWorld.Update` | src/main/java/org/spout/physics/engine/LinkedDynamicsWorld.java:48-52 | the log gains the delegated auto step followed by a cleanup pass over the old tracking set; the set ends empty; `Valid()` and `Balanced()` are kept |
| `Engine.LinkedDynamicsWorld.ForceUpdateBy` | src/main/java/org/spout/physics/engine/LinkedDynamicsWorld.java:54-58 | the same, with the forced step by `dt` passed straight through |
| `Engine.LinkedDynamicsWorld.ForceUpdate` | src/main/java/org/spout/physics/engine/LinkedDynamicsWorld.java:60-64 | the same, with the forced step by the default time step |
| `WorldLog.CoveredPrefix` | src/main/java/org/spout/physics/engine/LinkedDynamicsWorld.java:83-94 | in a covered log, every prefix has no body destroyed more often than added, so the accounting respects call order |
| `WorldLog.DestroyBeforeAddNotCovered` | src/main/java/org/spout/physics/engine/LinkedDynamicsWorld.java:92-94 | destroying a body before adding it is not covered, even though the totals would balance |
| `WorldLog.CoveredAfterAdd` | src/main/java/org/spout/physics/engine/LinkedDynamicsWorld.java:84 | an add call keeps the log covered, whatever came before it |
| `WorldLog.CoveredAfterDestroy` | src/main/java/org/spout/physics/engine/LinkedDynamicsWorld.java:92-94 | destroying a body that is still owed a destroy keeps the log covered, and the other owed bodies stay owed |
| `WorldLog.AddEventsIds` | src/main/java/org/spout/physics/engine/LinkedDynamicsWorld.java:83-85 | the add calls of a batch are the batch's elements counted with multiplicity; no destroy call is made |
| `WorldLog.BatchesIds` | src/main/java/org/spout/physics/engine/LinkedDynamicsWorld.java:81-86 | two batches in a row are added in full, so a body in both is added twice |
| `WorldLog.PendingAfterAdds` | src/main/java/org/spout/physics/engine/LinkedDynamicsWorld.java:82 | adding a batch extends the bodies added since the last step by exactly the batch's distinct elements, which is the union at line 82 |
| `WorldLog.UnionBound` | src/main/java/org/spout/physics/engine/LinkedDynamicsWorld.java:82-85 | the united tracking set never holds a body more often than the old set and the batch's add calls together, so `Balanced()` survives an add |
| `WorldLog.PendingAfterDestroys` | src/main/java/org/spout/physics/engine/LinkedDynamicsWorld.java:92-94 | destroy calls do not change the bodies added since the last step |
| `WorldLog.DestroyPassSize` | src/main/java/org/spout/physics/engine/LinkedDynamicsWorld.java:92-94 | a cleanup pass makes exactly as many calls as the tracking set has bodies |
| `WorldLog.EmptyDestroyPass` | src/main/java/org/spout/physics/engine/LinkedDynamicsWorld.java:92-95 | a cleanup pass over an empty tracking set makes no call |
| `WorldLog.StepOutcomeEmptiesPending` | src/main/java/org/spout/physics/engine/LinkedDynamicsWorld.java:48-64 | after any step variant no body is pending, so the next tick starts from nothing (cross-tick isolation) |
| `WorldLog.StepOutcomeBalance` | src/main/java/org/spout/physics/engine/LinkedDynamicsWorld.java:91-96 | a step adds nothing and destroys each tracked body exactly once |
| `WorldLog.StepVariantsAgree` | src/main/java/org/spout/physics/engine/LinkedDynamicsWorld.java:48-64 | from the same log and tracking set, any two step variants destroy the same bodies, add the same, make the same number of calls and leave nothing pending |
| `WorldLog.TickCycle` | src/main/java/org/spout/physics/engine/LinkedDynamicsWorld.java:81-96 | in a tick that starts with nothing pending, the bodies present at the step are exactly the batch's elements; the tick adds every element and destroys every distinct one once; nothing is pending afterwards |
| `WorldLog.TickBalancedIffDistinct` | src/main/java/org/spout/physics/engine/LinkedDynamicsWorld.java:81-96 | a tick makes as many destroy calls as add calls for every body if and only if the batch has no duplicates |
| `Engine.SharedBodyTickCounts` | src/main/java/org/spout/physics/engine/LinkedDynamicsWorld.java:82-94 | for distinct A, B, C, the batches [A, B] and [B, C] and one step add A, B, B, C and destroy A, B, C |
| `Engine.SharedBodyTick` | src/main/java/org/spout/physics/engine/LinkedDynamicsWorld.java:43-96 | driving the class through [A, B], [B, C] and `update()`: the tracking set is {A, B, C} at the step and empty after it; B is added twice and destroyed once; the info is the constructor's |
| `Engine.DirectBodyTickCounts` | src/main/java/org/spout/physics/engine/LinkedDynamicsWorld.java:91-96 | a body added directly and a different tracked body, then one step: the tracked one is destroyed and the other is not |
| `Engine.DirectBodyTick` | src/main/java/org/spout/physics/engine/LinkedDynamicsWorld.java:48-52 | driving the class: a body handed to `addRigidBody` directly, then a tracked body, then `update()`; only the tracked body is destroyed and the set ends empty |

## Left out

- The superclass dynamics step (integration, collision detection, constraint solving) is
  not modelled. `BaseStep` records that the delegate was called and which variant it was.
  It touches nothing else in the model.
- `Vector3 gravity` is passed to the superclass constructor and is not modelled. The
  `float dt` of `forceUpdate(dt)` is carried as a `real` inside the `Step` event, with no
  arithmetic on it.
- `DynamicsWorld.addRigidBody` and `destroyRigidBody` are modelled only as log events.
  Their own checks (a body already present, a body not present) are not modelled: that
  code is not part of this model. So a body added twice is just two `Add` events.
- The order in which a `HashSet` iterates is not modelled. The cleanup pass may destroy
  the tracked bodies in any order, and its contract holds for every order.
- Exceptions from the superclass step are not modelled. The Java code has no try/finally
  around the step, so it does not promise cleanup after a failed step.
- No concurrency: the class has no synchronisation, and the model is sequential.
- Null is not modelled. `addLinkedBodies(null)` throws at line 82 before anything changes.
  A `null` element enters the tracking set at line 82 before `addRigidBody(null)` is
  reached at line 84. A `seq<BodyId>` cannot express either case.
- The model assumes that `super.update()`, `super.forceUpdate(dt)` and
  `super.forceUpdate()` never call back into the overriding step methods. `DynamicsWorld`
  is not part of this model. If its `forceUpdate()` dispatched to `this.forceUpdate(dt)`,
  the cleanup would run twice per call. The second run would be an empty pass, and the
  log would record `Forced(dt)` rather than `ForcedDefault`.
- `Balanced()` is not promised after a direct `destroyRigidBody` call from other code. A
  tracked body destroyed that way would be destroyed again by the cleanup. In the
  dynamics world that is an error, which is not modelled.
