# Entity store of a voxel engine, modelled in Dafny

This project models the entity store of the engine (`Entities`): an id
counter that spawn post-increments and nothing resets, an identity map from
external entity ids to registry handles, and a component registry whose
slots are live or destroyed and carry the `EntityId`, `Transform`,
`Rigidbody` and `Scripting` rows. Over this state it models `spawn`,
`despawn`, `Entity::destroy`, the `clean` sweep, the `updatePhysics` pass,
the `update` tick, `render`, `renderDebug` and `Transform::refresh`.

Layout:

- `components.dfy` (module `Components`): vectors, matrices, the four
  component rows and a registry slot; `Refresh` is `Transform::refresh`.
- `passes.dfy` (module `Passes`): what the passes do, stated on registry
  snapshots: one physics step of a slot (`StepSlot`), the callbacks it fires
  (`EdgeEvents`, `PassEvents`), the slots the render passes visit
  (`LiveHandles`, `VisibleHandles`, `RenderCmds`) and the sweep (`Cleaned`),
  with the lemmas about them.
- `entities.dfy` (module `EntityStore`): class `Entities` with fields
  `nextID`, `entities`, `registry` and `log`, and one method per operation,
  each proved against the functions of `Passes`. `Valid()` is the store's
  invariant: ids grow with handles and stay below `nextID`; every map entry
  points at the slot carrying its id; every live slot is reachable through
  its id.
- `scenarios.dfy` (module `Scenarios`): two client runs on a fresh store.

Collaborators are parameters, not models: the physics solver is a
function `Solver` from the hitbox and the step arguments to the new
position, velocity and grounded flag; `glm::length` is a function `Norm`;
the frustum is a predicate `Frustum`; the spawn hook is a function
`SpawnHook`. Calls into the scripting runtime are appended to the store's
`log` (`Spawned`, `Despawned`, `Grounded`, `Fall`, `Tick`). The calls on
the model batch and the line batch are the sequences that `Render` and
`RenderDebug` return.

Teardown is two-phase, as in the source. `Despawn` marks the slot dead and
leaves its map entry in place. From then on `Get` misses, because it
requires the slot to be live. `Clean` later erases exactly the entries
whose slot is dead. The grounded and fall callbacks fire on edges only. In
`updatePhysics` the source dereferences `get(eid.uid)` without a check.
The invariant proves that this lookup always hits (`StepEntity`).

## Model

| member | source | states |
|---|---|---|
| `Components.Refresh` | src/objects/Entities.cpp:16-21 | refresh keeps pos, size and rot and sets the cached matrix to identity, translated by pos, scaled by size, rotated by rot, in that order |
| `Components.RefreshIdempotent` | src/objects/Entities.cpp:16-21 | refreshing an already refreshed transform changes nothing |
| `Components.RefreshDeterministic` | src/objects/Entities.cpp:16-21 | the refreshed transform depends only on pos, size and rot, never on the stale cached matrix |
| `Components.NewHitbox` | src/objects/Entities.cpp:38 | the spawned hitbox sits at the spawn position with the definition's half-extents, at rest and not grounded |
| `Passes.PhysicsArgs` | src/objects/Entities.cpp:72-80 | the solver is called with the frame delta, 10 sub-steps, not flying, friction scale 1 and step-up allowed |
| `Passes.Simulated` | src/objects/Entities.cpp:63-68 | a slot is stepped iff it is live (in the EntityId, Transform, Rigidbody view) and its rigidbody is enabled |
| `Passes.StepSlot` | src/objects/Entities.cpp:66-83 | a dead or disabled slot is untouched; an enabled one takes the solver's position, velocity and grounded flag, keeps its half-size, has damping 24 when grounded and 0 otherwise, and its transform's position equals the hitbox position with size, rotation and cached matrix unchanged; id, liveness and scripting never change |
| `Passes.EdgeEvents` | src/objects/Entities.cpp:70-89 | at most one callback per slot; a grounded callback with impact speed length(prevVel - newVel) iff the slot was airborne and is now grounded; a fall callback iff the reverse; nothing for a disabled slot or a sustained state |
| `Passes.PassEvents` | src/objects/Entities.cpp:62-91 | the callbacks of a pass are each slot's edge events, concatenated in handle order |
| `Passes.PassEventsLanding` | src/objects/Entities.cpp:84-89 | a pass fires no more callbacks than it has slots, every one a grounded or a fall callback; when ids grow with the handle (`IdsIncreasing`, as in every valid store), at most one callback is about each entity |
| `Passes.PassEventsPerEntity` | src/objects/Entities.cpp:62-91 | the callbacks a whole pass fires about one entity are exactly that entity's edge events, whatever the other slots do, provided no other slot carries its id, as in every valid store (`IdsIncreasing`) |
| `Passes.PassEventsForeign` | src/objects/Entities.cpp:84-89 | an id that no slot carries receives no callback from the pass |
| `Passes.LiveHandles` | src/objects/Entities.cpp:99-100 | the handles a registry view visits are exactly the live slots, each once, in increasing order |
| `Passes.InView` | src/objects/Entities.cpp:107-112 | render draws a slot iff it is live (in the Transform view) and the frustum reports its box pos-size..pos+size visible |
| `Passes.VisibleHandles` | src/objects/Entities.cpp:107-112 | the handles render draws are exactly the live slots whose box pos-size..pos+size the frustum reports visible, each once, in increasing order |
| `Passes.Rendered` | src/objects/Entities.cpp:112-113 | render refreshes the transform of a drawn slot and leaves every other slot as it was |
| `Passes.RenderCmds` | src/objects/Entities.cpp:108-118 | the model-batch calls of render: push of the refreshed matrix, draw of the cube, pop, for each drawn slot in handle order |
| `Passes.DrawnMatrices` | src/objects/Entities.cpp:111-114 | the matrices render pushes are, one for one and in handle order, the refreshed matrices of the visible slots |
| `Passes.RenderCmdsShape` | src/objects/Entities.cpp:109-118 | a render pass emits three calls per visible slot (push of its refreshed matrix, draw of the cube, pop) in handle order, and nothing for an invisible or dead slot |
| `Passes.DebugBox` | src/objects/Entities.cpp:101-102 | renderDebug's box for a slot is centred at the hitbox position, twice the half-size, in opaque white |
| `Passes.Cleaned` | src/objects/Entities.cpp:52-60 | an id stays in the swept map iff its handle is live, with its handle unchanged |
| `Passes.CleanedIdempotent` | src/objects/Entities.cpp:52-60 | a second sweep removes nothing |
| `Passes.CleanedRemoved` | src/objects/Entities.cpp:52-60 | the entries the sweep removes are exactly those whose handle is not live |
| `EntityStore.StoreInvariant` | src/objects/Entities.cpp:32-60 | every slot's id is below nextID and ids grow with the handle; every map entry points at the slot carrying its id; every live slot is mapped from its id |
| `EntityStore.Entities.Valid` | src/objects/Entities.cpp:32-60 | the store invariant over the store's own counter, map and registry |
| `EntityStore.Entities.IsLive` | src/objects/Entities.cpp:54 | registry.valid(h): the handle names a slot that has not been destroyed |
| `EntityStore.Entities.Get` | src/objects/Entities.cpp:46 | get hits iff the map has the id and its slot is live, and then returns that id and handle |
| `EntityStore.Entities.Issued` | src/objects/Entities.cpp:23-27 | a view the store can hand out: its handle names a slot carrying its id |
| `EntityStore.Entities.GetResolves` | src/objects/Entities.cpp:85-88 | in a valid store a hit lands on a live slot carrying the looked-up id, and an id not yet issued always misses |
| `EntityStore.Entities.constructor` | src/objects/Entities.cpp:29-30 | a new store is empty, valid, and hands out its given first id next |
| `EntityStore.Entities.Spawn` | src/objects/Entities.cpp:32-43 | returns the old nextID and increments it by one; appends one live slot with that id, position pos, size 1/4, identity rotation, an enabled rigidbody with hitbox at pos, and the hook's bindings and environment; maps the id, not mapped before, to the new handle, not referenced before; every earlier lookup is unchanged; logs the spawn hook |
| `EntityStore.Entities.Despawn` | src/objects/Entities.cpp:45-50 | if get misses, nothing changes and no hook fires; otherwise it logs the despawn hook with the slot's definition, then marks exactly that slot dead; the map is never touched, and afterwards get misses |
| `EntityStore.Entities.Destroy` | src/objects/Entities.cpp:23-27 | destroying an entity whose handle is not live changes nothing; otherwise it despawns it |
| `EntityStore.Entities.Clean` | src/objects/Entities.cpp:52-60 | the map becomes the sweep of the old map; every retained entry resolves to a live slot; every lookup answers as before; registry, counter and log are unchanged |
| `EntityStore.Entities.StepEntity` | src/objects/Entities.cpp:66-89 | one loop iteration: the slot becomes its stepped form and the log gains exactly its edge events, with the callback's get proved to hit |
| `EntityStore.Entities.UpdatePhysics` | src/objects/Entities.cpp:62-91 | every slot becomes its stepped form, the log gains the pass's callbacks in handle order, and the map and counter are unchanged |
| `EntityStore.Entities.Update` | src/objects/Entities.cpp:93-95 | logs one global tick and changes no entity state |
| `EntityStore.Entities.RenderDebug` | src/objects/Entities.cpp:97-104 | first the line width 1, then exactly one white box per live slot, in handle order, at the hitbox position and of size twice the half-size |
| `EntityStore.Entities.Render` | src/objects/Entities.cpp:106-119 | refreshes exactly the drawn slots and returns the render pass's commands, one push/draw/pop triple per visible slot; map, counter and log unchanged |
| `Scenarios.RespawnCycle` | src/objects/Entities.cpp:32-60 | spawn, despawn, clean, spawn gives consecutive ids; the first id neither resolves nor stays in the map |
| `Scenarios.LandingScenario` | src/objects/Entities.cpp:62-90 | an entity that lands at rest in its first step takes the hitbox position, damping 24, and fires exactly one grounded callback, with the length of its (zero) pre-step velocity |

## Left out

- `src/coders/ogg.cpp` is not part of this model. It is an adapter over the Vorbis codec library: foreign calls, file I/O and logging.
- Float arithmetic: vectors are exact reals, so rounding is not modelled.
- Matrix arithmetic: a 4x4 matrix is kept as the term of glm operations that built it (`Mat4`), so refresh's order of composition is captured but not the numbers.
- `glm::length` is the parameter `Norm`, because the square root has no exact counterpart here.
- The physics solver's internals are the parameter `Solver`. The world's collision data is folded into that function.
- The scripting runtime is represented only by the `log` of calls. A hook that spawns or despawns entities during a pass (re-entrancy) is not modelled.
- The model and line batches are the returned command sequences. The asset lookup of the cube model is not modelled: `DrawModel` carries the asset name `"cube"`.
- EnTT's registry is a sequence of slots with a live flag, and a handle is never reissued. EnTT recycles handles under a new version, which `valid` also rejects, so the effect is the same.
- Views iterate in handle order. EnTT's own iteration order is not modelled.
- Header-only details are taken as assumptions. `nextID` starts at the constructor's argument. `get` is "the map has the id and the slot is live". `Entity::isValid` is "the handle is live".
- The Hitbox constructor's defaults are assumptions: zero velocity, not grounded, damping 0. So is the initial cached matrix, taken to be the identity.
- `entityid_t` is an unbounded `nat`, so counter wrap-around is not modelled.
- Destroy: requires the view to be one the store could have issued (its handle carries its id). Views are only made by `get`, so every real view meets this.
- Despawn: the despawn event records the definition and the id, not the whole entity view. The order "hook, then destroy" appears only as the order of the two effects.
