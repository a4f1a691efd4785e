/**
 The per-frame passes of the entity store, stated on registry snapshots:
 what one physics step does to one slot, which scripting callbacks it
 fires, which slots the two render passes visit, and what the identity-map
 sweep keeps. The collaborators (physics solver, float norm, frustum,
 spawn hook) are function-typed parameters: the store calls them and
 records what they return, and nothing is assumed about their insides.
 */
module Passes {
  import opened Components

  /** The arguments physics->step receives besides the hitbox. */
  datatype StepArgs = StepArgs(delta: real, substeps: nat, flying: bool, frictionScale: real, canStepUp: bool)

  /** What the solver writes back into the hitbox: position, velocity and the grounded flag. */
  datatype Motion = Motion(position: Vec3, velocity: Vec3, grounded: bool)

  /** PhysicsSolver::step, with the world's collision data folded into the function. */
  type Solver = (Hitbox, StepArgs) -> Motion

  /** glm::length on float vectors; the square root is not modelled. */
  type Norm = Vec3 -> real

  /** Frustum::isBoxVisible(min, max). */
  type Frustum = (Vec3, Vec3) -> bool

  /** scripting::on_entity_spawn: receives the definition, the id and the (empty) binding set,
      and gives back the bindings it registered and the environment handle. */
  type SpawnHook = (EntityDef, Id, set<string>) -> (set<string>, Env)

  /** Damping applied while grounded; airborne bodies get none. */
  const GroundedDamping: real := 24.0

  /** The fixed arguments updatePhysics hands the solver: ten sub-steps, not flying,
      friction scale 1, able to step up. */
  function PhysicsArgs(delta: real): StepArgs
  {
    StepArgs(delta, 10, false, 1.0, true)
  }

  /** Calls into the scripting runtime, in the order the store makes them. */
  datatype ScriptEvent =
    | Spawned(def: EntityDef, uid: Id)
    | Despawned(def: EntityDef, uid: Id)
    | Grounded(uid: Id, impactSpeed: real)
    | Fall(uid: Id)
    | Tick

  /** Calls on the model batch. */
  datatype ModelCmd = PushMatrix(matrix: Mat4) | DrawModel(model: string) | PopMatrix

  /** Calls on the line batch. */
  datatype LineCmd = LineWidth(width: real) | Box(center: Vec3, size: Vec3, color: Color)

  /** The single placeholder model every entity is drawn with. */
  const CubeModel: string := "cube"

  // ---------------------------------------------------------------------
  // updatePhysics, one slot at a time

  /** A slot the physics pass steps: in the (EntityId, Transform, Rigidbody) view
      and with its rigidbody enabled. */
  predicate Simulated(s: Slot)
  {
    s.live && s.rigidbody.enabled
  }

  /** The slot after one pass of updatePhysics. */
  function StepSlot(s: Slot, physics: Solver, delta: real): (r: Slot)
    ensures r.live == s.live && r.eid == s.eid && r.scripting == s.scripting
    ensures r.rigidbody.enabled == s.rigidbody.enabled
    ensures !Simulated(s) ==> r == s
    ensures Simulated(s) ==>
      var m := physics(s.rigidbody.hitbox, PhysicsArgs(delta));
      && r.rigidbody.hitbox.position == m.position
      && r.rigidbody.hitbox.velocity == m.velocity
      && r.rigidbody.hitbox.grounded == m.grounded
      && r.rigidbody.hitbox.halfsize == s.rigidbody.hitbox.halfsize
    ensures Simulated(s) ==>
      r.rigidbody.hitbox.linearDamping == if r.rigidbody.hitbox.grounded then GroundedDamping else 0.0
    ensures Simulated(s) ==> r.transform == s.transform.(pos := r.rigidbody.hitbox.position)
  {
    if !Simulated(s) then s
    else
      var m := physics(s.rigidbody.hitbox, PhysicsArgs(delta));
      var moved := s.rigidbody.hitbox.(position := m.position, velocity := m.velocity, grounded := m.grounded);
      var hitbox := moved.(linearDamping := if moved.grounded then GroundedDamping else 0.0);
      s.(rigidbody := s.rigidbody.(hitbox := hitbox), transform := s.transform.(pos := hitbox.position))
  }

  /** The callbacks one slot fires when it goes from `before` to `after` in the pass. */
  function EdgeEvents(before: Slot, after: Slot, length: Norm): (r: seq<ScriptEvent>)
    ensures |r| <= 1
    ensures r == [] <==>
      !Simulated(before) || before.rigidbody.hitbox.grounded == after.rigidbody.hitbox.grounded
    ensures (|r| == 1 && r[0].Grounded?) <==>
      Simulated(before) && !before.rigidbody.hitbox.grounded && after.rigidbody.hitbox.grounded
    ensures (|r| == 1 && r[0].Fall?) <==>
      Simulated(before) && before.rigidbody.hitbox.grounded && !after.rigidbody.hitbox.grounded
    ensures |r| == 1 && r[0].Grounded? ==>
      r[0] == Grounded(before.eid.uid, length(Sub(before.rigidbody.hitbox.velocity, after.rigidbody.hitbox.velocity)))
    ensures |r| == 1 && r[0].Fall? ==> r[0] == Fall(before.eid.uid)
    ensures forall k :: 0 <= k < |r| ==> Concerns(r[k], before.eid.uid)
  {
    if !Simulated(before) then []
    else
      var was := before.rigidbody.hitbox.grounded;
      var now := after.rigidbody.hitbox.grounded;
      var prevVel := before.rigidbody.hitbox.velocity;
      (if now && !was then [Grounded(before.eid.uid, length(Sub(prevVel, after.rigidbody.hitbox.velocity)))] else [])
      + (if !now && was then [Fall(before.eid.uid)] else [])
  }

  /** The edge events of every slot of a registry snapshot, one block per handle. */
  function EdgeBlocks(slots: seq<Slot>, physics: Solver, delta: real, length: Norm): (b: seq<seq<ScriptEvent>>)
    ensures |b| == |slots|
    ensures forall j :: 0 <= j < |slots| ==> b[j] == EdgeEvents(slots[j], StepSlot(slots[j], physics, delta), length)
  {
    seq(|slots|, j requires 0 <= j < |slots| => EdgeEvents(slots[j], StepSlot(slots[j], physics, delta), length))
  }

  /** The blocks of callbacks one after the other. */
  function Concat(blocks: seq<seq<ScriptEvent>>): seq<ScriptEvent>
    decreases |blocks|
  {
    if blocks == [] then [] else Concat(blocks[..|blocks| - 1]) + blocks[|blocks| - 1]
  }

  /** The callbacks a whole physics pass fires, slot by slot in handle order. */
  function PassEvents(slots: seq<Slot>, physics: Solver, delta: real, length: Norm): seq<ScriptEvent>
  {
    Concat(EdgeBlocks(slots, physics, delta, length))
  }

  /** A physics pass fires only grounded and fall callbacks, no more of them than there are
      slots, and, in a registry whose ids grow with the handle, at most one about each entity. */
  lemma PassEventsLanding(slots: seq<Slot>, physics: Solver, delta: real, length: Norm)
    ensures |PassEvents(slots, physics, delta, length)| <= |slots|
    ensures forall k :: 0 <= k < |PassEvents(slots, physics, delta, length)| ==>
      Landing(PassEvents(slots, physics, delta, length)[k])
    ensures IdsIncreasing(slots) ==> forall h :: 0 <= h < |slots| ==>
      |EventsAbout(PassEvents(slots, physics, delta, length), slots[h].eid.uid)| <= 1
  {
    EdgeBlocksLanding(slots, physics, delta, length);
    ConcatLanding(EdgeBlocks(slots, physics, delta, length));
    if IdsIncreasing(slots) {
      forall h | 0 <= h < |slots|
        ensures |EventsAbout(PassEvents(slots, physics, delta, length), slots[h].eid.uid)| <= 1
      {
        PassEventsPerEntity(slots, physics, delta, length, h);
      }
    }
  }

  /** A callback about a body touching or leaving the ground. */
  predicate Landing(e: ScriptEvent)
  {
    e.Grounded? || e.Fall?
  }

  /** Blocks of at most one ground-contact callback each. */
  ghost predicate LandingBlocks(blocks: seq<seq<ScriptEvent>>)
  {
    forall j :: 0 <= j < |blocks| ==> |blocks[j]| <= 1 && forall k :: 0 <= k < |blocks[j]| ==> Landing(blocks[j][k])
  }

  /** Each slot fires at most one callback in the pass, a grounded or a fall one. */
  lemma EdgeBlocksLanding(slots: seq<Slot>, physics: Solver, delta: real, length: Norm)
    ensures LandingBlocks(EdgeBlocks(slots, physics, delta, length))
  {
    var blocks := EdgeBlocks(slots, physics, delta, length);
    forall j | 0 <= j < |blocks|
      ensures |blocks[j]| <= 1 && forall k :: 0 <= k < |blocks[j]| ==> Landing(blocks[j][k])
    {
      assert blocks[j] == EdgeEvents(slots[j], StepSlot(slots[j], physics, delta), length);
    }
  }

  /** Concatenating such blocks gives no more callbacks than blocks, all about ground contact. */
  lemma {:induction false} ConcatLanding(blocks: seq<seq<ScriptEvent>>)
    requires LandingBlocks(blocks)
    ensures |Concat(blocks)| <= |blocks|
    ensures forall k :: 0 <= k < |Concat(blocks)| ==> Landing(Concat(blocks)[k])
    decreases |blocks|
  {
    if blocks != [] {
      var n := |blocks| - 1;
      assert LandingBlocks(blocks[..n]);
      ConcatLanding(blocks[..n]);
    }
  }

  /** Running one more block of the pass appends that block to the log. */
  lemma ConcatStep(log0: seq<ScriptEvent>, log: seq<ScriptEvent>, log': seq<ScriptEvent>,
                   blocks: seq<seq<ScriptEvent>>, i: nat)
    requires i < |blocks|
    requires log == log0 + Concat(blocks[..i])
    requires log' == log + blocks[i]
    ensures log' == log0 + Concat(blocks[..i + 1])
  {
    assert blocks[..i + 1][..i] == blocks[..i];
  }

  /** Whether a callback is about the entity with external id `uid`. */
  predicate Concerns(e: ScriptEvent, uid: Id)
  {
    !e.Tick? && e.uid == uid
  }

  /** The callbacks in `evs` about the entity `uid`, in order. */
  function EventsAbout(evs: seq<ScriptEvent>, uid: Id): (r: seq<ScriptEvent>)
    ensures |r| <= |evs|
    ensures forall k :: 0 <= k < |r| ==> Concerns(r[k], uid)
    decreases |evs|
  {
    if evs == [] then []
    else
      var n := |evs| - 1;
      EventsAbout(evs[..n], uid) + (if Concerns(evs[n], uid) then [evs[n]] else [])
  }

  lemma {:induction false} EventsAboutAppend(a: seq<ScriptEvent>, b: seq<ScriptEvent>, uid: Id)
    ensures EventsAbout(a + b, uid) == EventsAbout(a, uid) + EventsAbout(b, uid)
    decreases |b|
  {
    if b == [] {
      assert a + b == a;
    } else {
      var n := |b| - 1;
      assert (a + b)[..|a + b| - 1] == a + b[..n];
      EventsAboutAppend(a, b[..n], uid);
    }
  }

  /** Filtering a list whose every event concerns `uid` keeps it whole. */
  lemma {:induction false} EventsAboutKeeps(evs: seq<ScriptEvent>, uid: Id)
    requires forall k :: 0 <= k < |evs| ==> Concerns(evs[k], uid)
    ensures EventsAbout(evs, uid) == evs
    decreases |evs|
  {
    if evs != [] {
      var n := |evs| - 1;
      EventsAboutKeeps(evs[..n], uid);
      assert evs[..n] + [evs[n]] == evs;
    }
  }

  /** Filtering a list whose events all concern other ids leaves nothing. */
  lemma {:induction false} EventsAboutDrops(evs: seq<ScriptEvent>, uid: Id)
    requires forall k :: 0 <= k < |evs| ==> !Concerns(evs[k], uid)
    ensures EventsAbout(evs, uid) == []
    decreases |evs|
  {
    if evs != [] {
      EventsAboutDrops(evs[..|evs| - 1], uid);
    }
  }

  /** Every event of block `j` is about the id `owner[j]`. */
  ghost predicate BlocksOwned(blocks: seq<seq<ScriptEvent>>, owner: seq<Id>)
  {
    |blocks| == |owner| &&
    forall j, k :: 0 <= j < |blocks| && 0 <= k < |blocks[j]| ==> Concerns(blocks[j][k], owner[j])
  }

  /** Filtering the concatenation for an id no block is owned by leaves nothing. */
  lemma {:induction false} ConcatForeign(blocks: seq<seq<ScriptEvent>>, owner: seq<Id>, uid: Id)
    requires BlocksOwned(blocks, owner)
    requires forall j :: 0 <= j < |owner| ==> owner[j] != uid
    ensures EventsAbout(Concat(blocks), uid) == []
    decreases |blocks|
  {
    if blocks != [] {
      var n := |blocks| - 1;
      assert BlocksOwned(blocks[..n], owner[..n]);
      ConcatForeign(blocks[..n], owner[..n], uid);
      EventsAboutAppend(Concat(blocks[..n]), blocks[n], uid);
      EventsAboutDrops(blocks[n], uid);
    }
  }

  /** Filtering the concatenation for the id of exactly one block yields that block. */
  lemma {:induction false} ConcatOwned(blocks: seq<seq<ScriptEvent>>, owner: seq<Id>, h: nat)
    requires BlocksOwned(blocks, owner) && h < |blocks|
    requires forall j :: 0 <= j < |owner| && j != h ==> owner[j] != owner[h]
    ensures EventsAbout(Concat(blocks), owner[h]) == blocks[h]
    decreases |blocks|
  {
    var n := |blocks| - 1;
    var uid := owner[h];
    EventsAboutAppend(Concat(blocks[..n]), blocks[n], uid);
    assert BlocksOwned(blocks[..n], owner[..n]);
    if h == n {
      ConcatForeign(blocks[..n], owner[..n], uid);
      EventsAboutKeeps(blocks[n], uid);
    } else {
      ConcatOwned(blocks[..n], owner[..n], h);
      EventsAboutDrops(blocks[n], uid);
    }
  }

  /** The external ids of a registry snapshot, by handle. */
  function Owners(slots: seq<Slot>): (o: seq<Id>)
    ensures |o| == |slots| && forall j :: 0 <= j < |slots| ==> o[j] == slots[j].eid.uid
  {
    seq(|slots|, j requires 0 <= j < |slots| => slots[j].eid.uid)
  }

  /** Each slot's edge events are about that slot's own id. */
  lemma PassBlocksOwned(slots: seq<Slot>, physics: Solver, delta: real, length: Norm)
    ensures BlocksOwned(EdgeBlocks(slots, physics, delta, length), Owners(slots))
  {
  }

  /** An id that no slot carries receives no callback from the pass. */
  lemma PassEventsForeign(slots: seq<Slot>, physics: Solver, delta: real, length: Norm, uid: Id)
    requires forall h :: 0 <= h < |slots| ==> slots[h].eid.uid != uid
    ensures EventsAbout(PassEvents(slots, physics, delta, length), uid) == []
  {
    PassBlocksOwned(slots, physics, delta, length);
    ConcatForeign(EdgeBlocks(slots, physics, delta, length), Owners(slots), uid);
  }

  /** The callbacks the pass fires for entity `h`, whose id no other slot carries (as in a
      registry whose ids grow with the handle), are exactly that entity's edge events:
      a grounded call iff it landed, a fall call iff it left the ground, at most one
      of the two, and nothing for a disabled body or a sustained state. */
  lemma PassEventsPerEntity(slots: seq<Slot>, physics: Solver, delta: real, length: Norm, h: Handle)
    requires h < |slots|
    requires forall j :: 0 <= j < |slots| && j != h ==> slots[j].eid.uid != slots[h].eid.uid
    ensures EventsAbout(PassEvents(slots, physics, delta, length), slots[h].eid.uid)
         == EdgeEvents(slots[h], StepSlot(slots[h], physics, delta), length)
  {
    PassBlocksOwned(slots, physics, delta, length);
    ConcatOwned(EdgeBlocks(slots, physics, delta, length), Owners(slots), h);
  }

  // ---------------------------------------------------------------------
  // render and renderDebug

  /** The handles a registry view visits: every live slot, in handle order. */
  function LiveHandles(slots: seq<Slot>): (hs: seq<Handle>)
    ensures forall k :: 0 <= k < |hs| ==> LiveIn(slots, hs[k])
    ensures forall h :: LiveIn(slots, h) ==> h in hs
    ensures forall k, k' :: 0 <= k < k' < |hs| ==> hs[k] < hs[k']
    decreases |slots|
  {
    if slots == [] then []
    else
      var n := |slots| - 1;
      LiveHandles(slots[..n]) + (if slots[n].live then [n] else [])
  }

  /** Whether render draws slot `s`: live and with its box pos-size .. pos+size in the frustum. */
  predicate InView(s: Slot, frustum: Frustum)
  {
    s.live && frustum(Sub(s.transform.pos, s.transform.size), Add(s.transform.pos, s.transform.size))
  }

  /** The handles render draws, in handle order. */
  function VisibleHandles(slots: seq<Slot>, frustum: Frustum): (hs: seq<Handle>)
    ensures forall k :: 0 <= k < |hs| ==> hs[k] < |slots| && InView(slots[hs[k]], frustum)
    ensures forall h :: 0 <= h < |slots| && InView(slots[h], frustum) ==> h in hs
    ensures forall k, k' :: 0 <= k < k' < |hs| ==> hs[k] < hs[k']
    decreases |slots|
  {
    if slots == [] then []
    else
      var n := |slots| - 1;
      VisibleHandles(slots[..n], frustum) + (if InView(slots[n], frustum) then [n] else [])
  }

  /** The slot after render: refreshed if it was drawn, untouched otherwise. */
  function Rendered(s: Slot, frustum: Frustum): Slot
  {
    if InView(s, frustum) then s.(transform := Refresh(s.transform)) else s
  }

  /** The three model-batch calls that draw one slot. */
  function DrawTriple(s: Slot): seq<ModelCmd>
  {
    [PushMatrix(Refresh(s.transform).combined), DrawModel(CubeModel), PopMatrix]
  }

  /** The model-batch calls of a render pass over `slots`, in handle order. */
  function RenderCmds(slots: seq<Slot>, frustum: Frustum): seq<ModelCmd>
    decreases |slots|
  {
    if slots == [] then []
    else
      var n := |slots| - 1;
      RenderCmds(slots[..n], frustum) + (if InView(slots[n], frustum) then DrawTriple(slots[n]) else [])
  }

  /** The matrices render draws with, one per visible slot in handle order. */
  function DrawnMatrices(slots: seq<Slot>, frustum: Frustum): (ms: seq<Mat4>)
    ensures var hs := VisibleHandles(slots, frustum);
      && |ms| == |hs|
      && forall k :: 0 <= k < |hs| ==> ms[k] == Refresh(slots[hs[k]].transform).combined
    decreases |slots|
  {
    if slots == [] then []
    else
      var n := |slots| - 1;
      var ms := DrawnMatrices(slots[..n], frustum);
      ms + (if InView(slots[n], frustum) then [Refresh(slots[n].transform).combined] else [])
  }

  /** A push/draw/pop triple per matrix, in order. */
  function Triples(ms: seq<Mat4>): (cmds: seq<ModelCmd>)
    ensures |cmds| == 3 * |ms|
    ensures forall k :: 0 <= k < |ms| ==>
      && cmds[3 * k] == PushMatrix(ms[k])
      && cmds[3 * k + 1] == DrawModel(CubeModel)
      && cmds[3 * k + 2] == PopMatrix
    decreases |ms|
  {
    if ms == [] then []
    else Triples(ms[..|ms| - 1]) + [PushMatrix(ms[|ms| - 1]), DrawModel(CubeModel), PopMatrix]
  }

  /** A render pass emits the triples of the drawn matrices. */
  lemma {:induction false} RenderCmdsTriples(slots: seq<Slot>, frustum: Frustum)
    ensures RenderCmds(slots, frustum) == Triples(DrawnMatrices(slots, frustum))
    decreases |slots|
  {
    if slots != [] {
      var n := |slots| - 1;
      RenderCmdsTriples(slots[..n], frustum);
      var ms := DrawnMatrices(slots[..n], frustum);
      if InView(slots[n], frustum) {
        var m := Refresh(slots[n].transform).combined;
        assert (ms + [m])[..|ms|] == ms;
      } else {
        assert ms + [] == ms;
      }
    }
  }

  /** A render pass is one push/draw/pop triple per visible slot, in handle order, and nothing else. */
  lemma {:induction false} RenderCmdsShape(slots: seq<Slot>, frustum: Frustum)
    ensures var hs := VisibleHandles(slots, frustum);
      var cmds := RenderCmds(slots, frustum);
      && |cmds| == 3 * |hs|
      && forall k :: 0 <= k < |hs| ==>
           && cmds[3 * k] == PushMatrix(Refresh(slots[hs[k]].transform).combined)
           && cmds[3 * k + 1] == DrawModel(CubeModel)
           && cmds[3 * k + 2] == PopMatrix
  {
    RenderCmdsTriples(slots, frustum);
  }

  /** The wireframe box renderDebug draws for one slot: the full hitbox, in white. */
  function DebugBox(s: Slot): LineCmd
  {
    Box(s.rigidbody.hitbox.position, Scale(s.rigidbody.hitbox.halfsize, 2.0), White)
  }

  // ---------------------------------------------------------------------
  // clean

  /** The identity map after the sweep: the entries whose handle is still live. */
  function Cleaned(m: map<Id, Handle>, slots: seq<Slot>): (r: map<Id, Handle>)
    ensures forall id :: id in r <==> id in m && LiveIn(slots, m[id])
    ensures forall id :: id in r ==> r[id] == m[id]
  {
    map id | id in m && LiveIn(slots, m[id]) :: m[id]
  }

  /** The map part-way through the sweep: entries still `pending` are kept whatever
      their handle, the others only if it is live. */
  function Swept(m: map<Id, Handle>, pending: set<Id>, slots: seq<Slot>): map<Id, Handle>
  {
    map id | id in m && (id in pending || LiveIn(slots, m[id])) :: m[id]
  }

  lemma SweptStart(m: map<Id, Handle>, slots: seq<Slot>)
    ensures Swept(m, m.Keys, slots) == m
  {
  }

  lemma SweptStep(m: map<Id, Handle>, pending: set<Id>, slots: seq<Slot>, id: Id)
    requires id in pending && id in m
    ensures Swept(m, pending - {id}, slots)
         == if LiveIn(slots, m[id]) then Swept(m, pending, slots) else Swept(m, pending, slots) - {id}
  {
  }

  lemma SweptDone(m: map<Id, Handle>, slots: seq<Slot>)
    ensures Swept(m, {}, slots) == Cleaned(m, slots)
  {
  }

  /** A second sweep removes nothing. */
  lemma CleanedIdempotent(m: map<Id, Handle>, slots: seq<Slot>)
    ensures Cleaned(Cleaned(m, slots), slots) == Cleaned(m, slots)
  {
  }

  /** The sweep removes exactly the entries that no longer resolve. */
  lemma CleanedRemoved(m: map<Id, Handle>, slots: seq<Slot>)
    ensures m.Keys - Cleaned(m, slots).Keys == set id | id in m && !LiveIn(slots, m[id])
  {
  }
}
