/**
 The component types of the entity store: vectors and matrices, the
 Transform, Rigidbody (with its hitbox), Scripting and EntityId rows, and
 one registry slot bundling them. The engine's float vectors are modelled
 as exact reals, and 4x4 matrices as the term that built them, so that the
 composition order of Transform::refresh is visible while the matrix
 arithmetic itself stays abstract.
 */
module Components {

  /** External entity identifier (entityid_t); the counter never wraps in this model. */
  type Id = nat
  /** Internal registry handle: the index of a slot in the registry. */
  type Handle = nat
  /** Opaque scripting-environment handle returned by the spawn hook; 0 stands for null. */
  type Env = nat

  datatype Vec3 = Vec3(x: real, y: real, z: real)

  const Zero: Vec3 := Vec3(0.0, 0.0, 0.0)

  function Add(a: Vec3, b: Vec3): Vec3 { Vec3(a.x + b.x, a.y + b.y, a.z + b.z) }

  function Sub(a: Vec3, b: Vec3): Vec3 { Vec3(a.x - b.x, a.y - b.y, a.z - b.z) }

  function Scale(a: Vec3, k: real): Vec3 { Vec3(a.x * k, a.y * k, a.z * k) }

  /** RGBA colour as handed to the line batch. */
  datatype Color = Color(r: real, g: real, b: real, a: real)

  /** glm::vec4(1.0f): opaque white. */
  const White: Color := Color(1.0, 1.0, 1.0, 1.0)

  /** A 3x3 rotation matrix, row by row. */
  datatype Mat3 = Mat3(r0: Vec3, r1: Vec3, r2: Vec3)

  const Identity3: Mat3 := Mat3(Vec3(1.0, 0.0, 0.0), Vec3(0.0, 1.0, 0.0), Vec3(0.0, 0.0, 1.0))

  /** A 4x4 matrix, kept as the sequence of glm operations that produced it. */
  datatype Mat4 =
    | Identity4
    | Translate(base: Mat4, offset: Vec3)
    | ScaleBy(base: Mat4, factor: Vec3)
    | Rotate(base: Mat4, rot: Mat3)

  /** Position, size and rotation, with a cached combined matrix that only refresh updates. */
  datatype Transform = Transform(pos: Vec3, size: Vec3, rot: Mat3, combined: Mat4)

  /** The combined matrix of Transform::refresh: identity, then translate, then scale, then rotate. */
  function Composed(t: Transform): Mat4
  {
    Rotate(ScaleBy(Translate(Identity4, t.pos), t.size), t.rot)
  }

  /** Transform::refresh: overwrite the cached matrix, leave everything else as it is. */
  function Refresh(t: Transform): (r: Transform)
    ensures r.pos == t.pos && r.size == t.size && r.rot == t.rot
    ensures r.combined == Composed(t)
  {
    t.(combined := Composed(t))
  }

  /** Refreshing twice is the same as refreshing once. */
  lemma RefreshIdempotent(t: Transform)
    ensures Refresh(Refresh(t)) == Refresh(t)
  {
  }

  /** The refreshed matrix depends on pos, size and rot only, never on the stale cache. */
  lemma RefreshDeterministic(t: Transform, u: Transform)
    requires t.pos == u.pos && t.size == u.size && t.rot == u.rot
    ensures Refresh(t) == Refresh(u)
  {
  }

  /** The definition (archetype) an entity is spawned from; only its hitbox extents matter here. */
  datatype EntityDef = EntityDef(name: string, hitbox: Vec3)

  /** The physics solver's working state of one body. */
  datatype Hitbox = Hitbox(position: Vec3, halfsize: Vec3, velocity: Vec3, grounded: bool, linearDamping: real)

  /** Hitbox {pos, halfsize}: at rest and airborne until the first physics step. */
  function NewHitbox(position: Vec3, halfsize: Vec3): (h: Hitbox)
    ensures h.position == position && h.halfsize == halfsize
    ensures h.velocity == Zero && !h.grounded
  {
    Hitbox(position, halfsize, Zero, false, 0.0)
  }

  datatype Rigidbody = Rigidbody(enabled: bool, hitbox: Hitbox)

  /** Callback bindings registered by the scripting runtime, and its environment handle. */
  datatype Scripting = Scripting(funcs: set<string>, env: Env)

  /** The EntityId row: immutable after spawn. */
  datatype EntityId = EntityId(uid: Id, def: EntityDef)

  /** One registry slot: whether it is live, and its four component rows. */
  datatype Slot = Slot(live: bool, eid: EntityId, transform: Transform, rigidbody: Rigidbody, scripting: Scripting)

  /** registry.valid(h) over a registry snapshot. */
  predicate LiveIn(slots: seq<Slot>, h: Handle)
  {
    h < |slots| && slots[h].live
  }

  /** External ids grow strictly with the handle, so no two slots share one. */
  ghost predicate IdsIncreasing(slots: seq<Slot>)
  {
    forall i, j :: 0 <= i < j < |slots| ==> slots[i].eid.uid < slots[j].eid.uid
  }
}
