/**
 Two client runs of the entity store, stated as methods over a fresh store:
 a spawn/despawn/respawn cycle (ids are never reused, a despawned id stops
 resolving and disappears from the map at the next sweep), and an entity
 that lands in its first physics step.
 */
module Scenarios {
  import opened Components
  import opened Passes
  import opened EntityStore

  /** Spawn, despawn, sweep, spawn again. */
  method RespawnCycle(firstID: Id, def: EntityDef, pos: Vec3, onSpawn: SpawnHook)
    returns (first: Id, second: Id, firstResolves: bool, firstMapped: bool)
    ensures first == firstID && second == firstID + 1
    ensures !firstResolves && !firstMapped
  {
    var store := new Entities(firstID);
    first := store.Spawn(def, pos, onSpawn);
    store.Despawn(first);
    store.Clean();
    second := store.Spawn(def, pos, onSpawn);
    firstResolves := store.Get(first).Some?;
    firstMapped := first in store.entities;
  }

  /** An entity spawned at the origin with half-extent 0.5 whose first step lands it at
      (0, -0.05, 0) at rest. */
  method LandingScenario(length: Norm) returns (pos: Vec3, damping: real, events: seq<ScriptEvent>)
    ensures pos == Vec3(0.0, -0.05, 0.0)
    ensures damping == GroundedDamping
    ensures events == [Spawned(EntityDef("box", Vec3(0.5, 0.5, 0.5)), 1), Grounded(1, length(Zero))]
  {
    var def := EntityDef("box", Vec3(0.5, 0.5, 0.5));
    var store := new Entities(1);
    var id := store.Spawn(def, Zero, (d: EntityDef, uid: Id, funcs: set<string>) => (funcs, 0));
    var landed := Vec3(0.0, -0.05, 0.0);
    var physics := (h: Hitbox, a: StepArgs) => Motion(landed, Zero, true);
    ghost var spawned := store.registry;
    store.UpdatePhysics(0.016, physics, length);
    ghost var blocks := EdgeBlocks(spawned, physics, 0.016, length);
    assert |spawned| == 1 && blocks[..0] == [];
    assert Concat(blocks) == blocks[0];
    assert store.log == [Spawned(def, 1)] + blocks[0];
    assert blocks[0] == [Grounded(1, length(Zero))];
    var slot := store.registry[0];
    pos := slot.transform.pos;
    damping := slot.rigidbody.hitbox.linearDamping;
    events := store.log;
  }
}
