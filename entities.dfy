/**
 The entity store (class Entities): an id counter, the identity map from
 external ids to registry handles, the component registry, and the log of
 calls made into the scripting runtime. Destroying an entity marks its slot
 dead at once; the identity-map entry stays until the next clean sweep.
 */
module EntityStore {
  import opened Components
  import opened Passes

  datatype Option<T> = None | Some(value: T)

  /** The Entity view handed out by get: an external id and its registry handle. */
  datatype EntityView = EntityView(id: Id, handle: Handle)

  /** The store's invariant, over its three fields. */
  ghost predicate StoreInvariant(nextID: Id, entities: map<Id, Handle>, registry: seq<Slot>)
  {
    // every id was issued before nextID, and ids grow with handles
    && (forall h :: 0 <= h < |registry| ==> registry[h].eid.uid < nextID)
    && IdsIncreasing(registry)
    // the map points only at the slot carrying that id, live or dead
    && (forall id :: id in entities ==> entities[id] < |registry| && registry[entities[id]].eid.uid == id)
    // every live slot is reachable through its id
    && (forall h :: 0 <= h < |registry| && registry[h].live ==>
          registry[h].eid.uid in entities && entities[registry[h].eid.uid] == h)
  }

  /** Two registry snapshots with the same slots, the same ids and the same liveness. */
  ghost predicate SameIdentities(a: seq<Slot>, b: seq<Slot>)
  {
    |a| == |b| && forall h :: 0 <= h < |a| ==> a[h].live == b[h].live && a[h].eid == b[h].eid
  }

  /** Passes that only change components other than liveness and ids keep the invariant. */
  lemma InvariantKeptByIdentities(nextID: Id, entities: map<Id, Handle>, a: seq<Slot>, b: seq<Slot>)
    requires StoreInvariant(nextID, entities, a) && SameIdentities(a, b)
    ensures StoreInvariant(nextID, entities, b)
  {
  }

  /** Spawning a slot carrying the next id, at the next handle, keeps the invariant. */
  lemma InvariantKeptBySpawn(nextID: Id, entities: map<Id, Handle>, registry: seq<Slot>, slot: Slot)
    requires StoreInvariant(nextID, entities, registry)
    requires slot.eid.uid == nextID
    ensures nextID !in entities && |registry| !in entities.Values
    ensures StoreInvariant(nextID + 1, entities[nextID := |registry|], registry + [slot])
  {
    var r := registry + [slot];
    var m := entities[nextID := |registry|];
    assert forall h :: 0 <= h < |registry| ==> r[h] == registry[h];
    assert IdsIncreasing(r);
  }

  /** The sweep keeps the invariant. */
  lemma InvariantKeptBySweep(nextID: Id, entities: map<Id, Handle>, registry: seq<Slot>)
    requires StoreInvariant(nextID, entities, registry)
    ensures StoreInvariant(nextID, Cleaned(entities, registry), registry)
  {
  }

  class Entities {
    /** The next external id spawn hands out (nextID). */
    var nextID: Id
    /** The identity map (entities): external id to registry handle. */
    var entities: map<Id, Handle>
    /** The component registry: one slot per handle ever created. */
    var registry: seq<Slot>
    /** The calls made into the scripting runtime, oldest first. */
    var log: seq<ScriptEvent>

    /** The store's invariant. */
    ghost predicate Valid()
      reads this
    {
      StoreInvariant(nextID, entities, registry)
    }

    /** registry.valid(h). */
    predicate IsLive(h: Handle)
      reads this
    {
      LiveIn(registry, h)
    }

    /** get(id): a view of the entity only if the map has `id` and its slot is live. */
    function Get(id: Id): (r: Option<EntityView>)
      reads this
      ensures r.Some? <==> id in entities && IsLive(entities[id])
      ensures r.Some? ==> r.value == EntityView(id, entities[id])
    {
      if id in entities && IsLive(entities[id]) then Some(EntityView(id, entities[id])) else None
    }

    /** Whether `e` is a view this store could have handed out: its handle carries its id. */
    predicate Issued(e: EntityView)
      reads this
    {
      e.handle < |registry| && registry[e.handle].eid.uid == e.id
    }

    /** An empty store whose first id is `firstID` (the header's initial value of nextID). */
    constructor (firstID: Id)
      ensures Valid()
      ensures nextID == firstID && entities == map[] && registry == [] && log == []
    {
      nextID := firstID;
      entities := map[];
      registry := [];
      log := [];
    }

    /** For a valid store, a successful lookup lands on the slot that carries the id. */
    lemma GetResolves(id: Id)
      requires Valid()
      ensures Get(id).Some? ==> registry[Get(id).value.handle].eid.uid == id && Get(id).value.handle < |registry|
      ensures Get(id).Some? ==> registry[Get(id).value.handle].live
      ensures id >= nextID ==> Get(id).None?
    {
    }

    /** Entities::spawn. */
    method Spawn(def: EntityDef, pos: Vec3, onSpawn: SpawnHook) returns (id: Id)
      requires Valid()
      modifies this
      ensures Valid()
      ensures id == old(nextID) && nextID == old(nextID) + 1
      ensures id !in old(entities) && |old(registry)| !in old(entities).Values
      ensures entities == old(entities)[id := |old(registry)|]
      ensures |registry| == |old(registry)| + 1 && registry[..|old(registry)|] == old(registry)
      ensures var s := registry[|old(registry)|];
        && s.live
        && s.eid == EntityId(id, def)
        && s.transform.pos == pos && s.transform.size == Vec3(0.25, 0.25, 0.25) && s.transform.rot == Identity3
        && s.rigidbody.enabled && s.rigidbody.hitbox == NewHitbox(pos, def.hitbox)
        && (s.scripting.funcs, s.scripting.env) == onSpawn(def, id, {})
      ensures Get(id) == Some(EntityView(id, |old(registry)|))
      ensures forall k :: k in old(entities) ==> Get(k) == old(Get(k))
      ensures log == old(log) + [Spawned(def, id)]
    {
      var handle := |registry|;
      var size := Vec3(1.0, 1.0, 1.0);
      id := nextID;
      nextID := nextID + 1;
      var slot := Slot(true, EntityId(id, def),
                       Transform(pos, Scale(size, 1.0 / 4.0), Identity3, Identity4),
                       Rigidbody(true, NewHitbox(pos, def.hitbox)),
                       Scripting({}, 0));
      ghost var registry0, entities0 := registry, entities;
      registry := registry + [slot];
      entities := entities[id := handle];
      var (funcs, env) := onSpawn(def, id, slot.scripting.funcs);
      var scripted := slot.(scripting := Scripting(funcs, env));
      registry := registry[handle := scripted];
      log := log + [Spawned(def, id)];
      assert registry == registry0 + [scripted];
      InvariantKeptBySpawn(id, entities0, registry0, scripted);
    }

    /** Entities::despawn: a guarded destroy that leaves the identity map alone. */
    method Despawn(id: Id)
      requires Valid()
      modifies this
      ensures Valid()
      ensures entities == old(entities) && nextID == old(nextID)
      ensures old(Get(id)).None? ==> registry == old(registry) && log == old(log)
      ensures old(Get(id)).Some? ==>
        var h := old(Get(id)).value.handle;
        && registry == old(registry)[h := old(registry)[h].(live := false)]
        && log == old(log) + [Despawned(old(registry)[h].eid.def, id)]
      ensures Get(id).None?
    {
      var entity := Get(id);
      if entity.Some? {
        log := log + [Despawned(registry[entity.value.handle].eid.def, id)];
        var h := Get(id).value.handle;
        registry := registry[h := registry[h].(live := false)];
      }
    }

    /** Entity::destroy: despawn the entity only when its handle is still valid. */
    method Destroy(e: EntityView)
      requires Valid() && Issued(e)
      modifies this
      ensures Valid()
      ensures entities == old(entities) && nextID == old(nextID)
      ensures !old(IsLive(e.handle)) ==> registry == old(registry) && log == old(log)
      ensures old(IsLive(e.handle)) ==>
        && registry == old(registry)[e.handle := old(registry)[e.handle].(live := false)]
        && log == old(log) + [Despawned(old(registry)[e.handle].eid.def, e.id)]
      ensures !IsLive(e.handle) && Get(e.id).None?
    {
      if IsLive(e.handle) {
        Despawn(e.id);
      }
    }

    /** Entities::clean: erase every map entry whose slot is no longer live. */
    method Clean()
      requires Valid()
      modifies this
      ensures Valid()
      ensures entities == Cleaned(old(entities), registry)
      ensures forall id :: id in entities ==> IsLive(entities[id])
      ensures forall id :: Get(id) == old(Get(id))
      ensures registry == old(registry) && nextID == old(nextID) && log == old(log)
    {
      var pending := entities.Keys;
      SweptStart(entities, registry);
      while pending != {}
        invariant pending <= old(entities).Keys
        invariant registry == old(registry) && nextID == old(nextID) && log == old(log)
        invariant entities == Swept(old(entities), pending, registry)
        decreases pending
      {
        var id :| id in pending;
        SweptStep(old(entities), pending, registry, id);
        if !IsLive(entities[id]) {
          entities := entities - {id};
        }
        pending := pending - {id};
      }
      SweptDone(old(entities), registry);
      InvariantKeptBySweep(nextID, old(entities), registry);
    }

    /** One iteration of updatePhysics: step the body in slot `i` and fire its edge callbacks. */
    method StepEntity(i: Handle, delta: real, physics: Solver, length: Norm)
      requires i < |registry|
      requires StoreInvariant(nextID, entities, registry)
      modifies this
      ensures StoreInvariant(nextID, entities, registry)
      ensures entities == old(entities) && nextID == old(nextID)
      ensures registry == old(registry)[i := StepSlot(old(registry)[i], physics, delta)]
      ensures log == old(log) + EdgeEvents(old(registry)[i], StepSlot(old(registry)[i], physics, delta), length)
    {
      var slot := registry[i];
      if !slot.rigidbody.enabled || !slot.live {
        return;
      }
      var hitbox := slot.rigidbody.hitbox;
      var prevVel := hitbox.velocity;
      var grounded := hitbox.grounded;
      var m := physics(hitbox, PhysicsArgs(delta));
      hitbox := hitbox.(position := m.position, velocity := m.velocity, grounded := m.grounded);
      hitbox := hitbox.(linearDamping := if hitbox.grounded then GroundedDamping else 0.0);
      registry := registry[i := slot.(rigidbody := slot.rigidbody.(hitbox := hitbox),
                                      transform := slot.transform.(pos := hitbox.position))];
      // the callbacks dereference get(uid) unchecked: the invariant makes that safe
      var entity := Get(slot.eid.uid);
      assert entity == Some(EntityView(slot.eid.uid, i));
      InvariantKeptByIdentities(nextID, entities, old(registry), registry);
      if hitbox.grounded && !grounded {
        log := log + [Grounded(entity.value.id, length(Sub(prevVel, hitbox.velocity)))];
      }
      if !hitbox.grounded && grounded {
        log := log + [Fall(entity.value.id)];
      }
    }

    /** Entities::updatePhysics: step every enabled body and fire the edge callbacks. */
    method UpdatePhysics(delta: real, physics: Solver, length: Norm)
      requires Valid()
      modifies this
      ensures Valid()
      ensures entities == old(entities) && nextID == old(nextID)
      ensures |registry| == |old(registry)|
      ensures forall h :: 0 <= h < |registry| ==> registry[h] == StepSlot(old(registry)[h], physics, delta)
      ensures log == old(log) + PassEvents(old(registry), physics, delta, length)
    {
      var i := 0;
      while i < |registry|
        invariant 0 <= i <= |registry| == |old(registry)|
        invariant entities == old(entities) && nextID == old(nextID)
        invariant forall h :: 0 <= h < i ==> registry[h] == StepSlot(old(registry)[h], physics, delta)
        invariant forall h :: i <= h < |registry| ==> registry[h] == old(registry)[h]
        invariant log == old(log) + Concat(EdgeBlocks(old(registry), physics, delta, length)[..i])
        invariant StoreInvariant(nextID, entities, registry)
      {
        ghost var logBefore := log;
        StepEntity(i, delta, physics, length);
        ConcatStep(old(log), logBefore, log, EdgeBlocks(old(registry), physics, delta, length), i);
        i := i + 1;
      }
      assert EdgeBlocks(old(registry), physics, delta, length)[..i] == EdgeBlocks(old(registry), physics, delta, length);
    }

    /** Entities::update: one global scripting tick, no entity touched. */
    method Update()
      requires Valid()
      modifies this
      ensures Valid()
      ensures registry == old(registry) && entities == old(entities) && nextID == old(nextID)
      ensures log == old(log) + [Tick]
    {
      log := log + [Tick];
    }

    /** Entities::renderDebug: the line-batch calls, one box per live slot after the line width. */
    method RenderDebug() returns (cmds: seq<LineCmd>)
      ensures var hs := LiveHandles(registry);
        && |cmds| == 1 + |hs|
        && cmds[0] == LineWidth(1.0)
        && forall k :: 0 <= k < |hs| ==> cmds[k + 1] == DebugBox(registry[hs[k]])
    {
      cmds := [LineWidth(1.0)];
      var i := 0;
      while i < |registry|
        invariant 0 <= i <= |registry|
        invariant var hs := LiveHandles(registry[..i]);
          && |cmds| == 1 + |hs|
          && cmds[0] == LineWidth(1.0)
          && forall k :: 0 <= k < |hs| ==> cmds[k + 1] == DebugBox(registry[hs[k]])
      {
        assert registry[..i + 1][..i] == registry[..i];
        if registry[i].live {
          cmds := cmds + [DebugBox(registry[i])];
        }
        i := i + 1;
      }
      assert registry[..i] == registry;
    }

    /** Entities::render: refresh and draw every live slot whose box is in the frustum. */
    method Render(frustum: Frustum) returns (cmds: seq<ModelCmd>)
      requires Valid()
      modifies this
      ensures Valid()
      ensures entities == old(entities) && nextID == old(nextID) && log == old(log)
      ensures |registry| == |old(registry)|
      ensures forall h :: 0 <= h < |registry| ==> registry[h] == Rendered(old(registry)[h], frustum)
      ensures cmds == RenderCmds(old(registry), frustum)
      ensures var hs := VisibleHandles(old(registry), frustum);
        && |cmds| == 3 * |hs|
        && forall k :: 0 <= k < |hs| ==>
             && cmds[3 * k] == PushMatrix(Refresh(old(registry)[hs[k]].transform).combined)
             && cmds[3 * k + 1] == DrawModel(CubeModel)
             && cmds[3 * k + 2] == PopMatrix
    {
      cmds := [];
      var i := 0;
      while i < |registry|
        invariant 0 <= i <= |registry| == |old(registry)|
        invariant entities == old(entities) && nextID == old(nextID) && log == old(log)
        invariant forall h :: 0 <= h < i ==> registry[h] == Rendered(old(registry)[h], frustum)
        invariant forall h :: i <= h < |registry| ==> registry[h] == old(registry)[h]
        invariant cmds == RenderCmds(old(registry)[..i], frustum)
      {
        assert old(registry)[..i + 1][..i] == old(registry)[..i];
        var slot := registry[i];
        var t := slot.transform;
        if slot.live && frustum(Sub(t.pos, t.size), Add(t.pos, t.size)) {
          t := Refresh(t);
          registry := registry[i := slot.(transform := t)];
          cmds := cmds + [PushMatrix(t.combined), DrawModel(CubeModel), PopMatrix];
        }
        i := i + 1;
      }
      assert old(registry)[..i] == old(registry);
      RenderCmdsShape(old(registry), frustum);
      assert SameIdentities(old(registry), registry);
      InvariantKeptByIdentities(nextID, entities, old(registry), registry);
    }
  }
}
