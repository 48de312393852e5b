/**
 * Per-die physics (app/composables/useDicePhysics.ts): the collider shape and
 * mass tables, the option defaults, and the handle that owns one die's rigid
 * body and collider in the shared world and copies the body's pose to the mesh.
 */
module DicePhysics {
  import opened Wrappers
  import opened DiceTypes
  import opened Rapier
  import opened RapierWorld
  import Geo = DiceGeometry

  /** Every dimension of a collider shape is positive. */
  predicate ShapePositive(s: Shape)
  {
    match s
    case Ball(r) => r > 0.0
    case Cuboid(hx, hy, hz) => hx > 0.0 && hy > 0.0 && hz > 0.0
    case Cylinder(hh, r) => hh > 0.0 && r > 0.0
  }

  /** `createColliderForDice`: a ball, cuboid or cylinder per kind, a unit cube otherwise. */
  function ColliderForDice(tag: DiceTag): (d: ColliderDesc)
    ensures ShapePositive(d.shape)
    ensures d == ShapeDesc(d.shape)
  {
    match Classify(tag)
    case Known(D4) => ShapeDesc(Ball(0.8))
    case Known(D6) => ShapeDesc(Cuboid(0.5, 0.5, 0.5))
    case Known(D8) => ShapeDesc(Ball(0.9))
    case Known(D10) => ShapeDesc(Cylinder(0.6, 0.7))
    case Known(D100) => ShapeDesc(Cylinder(0.6, 0.7))
    case Known(D12) => ShapeDesc(Ball(0.85))
    case Known(D20) => ShapeDesc(Ball(0.95))
    case Unrecognised(_) => ShapeDesc(Cuboid(0.5, 0.5, 0.5))
  }

  /**
   * A collider matches a visual shape: a ball has the polyhedron's radius, a
   * cuboid's half-extents are half the box's sides, and a cylinder has half
   * the height and the (equal) radius.
   */
  predicate Fits(g: Geo.Geometry, s: Shape)
  {
    match g
    case Tetrahedron(r) => s == Ball(r)
    case Octahedron(r) => s == Ball(r)
    case Dodecahedron(r) => s == Ball(r)
    case Icosahedron(r) => s == Ball(r)
    case Box(w, h, d, _, _, _) => s == Cuboid(w / 2.0, h / 2.0, d / 2.0)
    case Cylinder(rt, rb, h, _) => rt == rb && s == Cylinder(h / 2.0, rt)
  }

  /** At the default scale every collider matches its die's visual geometry, fallback included. */
  lemma ColliderMatchesGeometry(tag: DiceTag)
    ensures Fits(Geo.CreateDiceGeometry(tag).geometry, ColliderForDice(tag).shape)
  {
  }

  /** A kind's name in an `Unrecognised` tag gets that kind's geometry, colour, collider and mass. */
  lemma KindNameLookupsAgree(t: DiceType, scale: real)
    ensures Geo.CreateDiceGeometry(Unrecognised(KindName(t)), scale) == Geo.CreateDiceGeometry(Known(t), scale)
    ensures ColliderForDice(Unrecognised(KindName(t))) == ColliderForDice(Known(t))
    ensures DiceMass(Unrecognised(KindName(t))) == DiceMass(Known(t))
  {
    KindNameRoundTrip(t);
  }

  /** The `masses` record; an unrecognised tag has no entry. */
  function MassEntry(tag: DiceTag): Option<real>
  {
    match Classify(tag)
    case Known(D4) => Some(0.3)
    case Known(D6) => Some(0.5)
    case Known(D8) => Some(0.4)
    case Known(D10) => Some(0.4)
    case Known(D12) => Some(0.45)
    case Known(D20) => Some(0.5)
    case Known(D100) => Some(0.4)
    case Unrecognised(_) => None
  }

  /**
   * `getDiceMass`: `masses[type] || 0.5`. The fallback serves only unrecognised
   * tags; the contract says nothing about inherited property names.
   */
  function DiceMass(tag: DiceTag): (m: real)
    ensures m > 0.0
    ensures Classify(tag).Known? ==> Some(m) == MassEntry(tag)
    ensures FallsBack(tag) ==> m == 0.5
  {
    match MassEntry(tag)
    case Some(v) => if v != 0.0 then v else 0.5
    case None => 0.5
  }

  /** The optional `DicePhysicsOptions`. */
  datatype PhysicsOptions = PhysicsOptions(mass: Option<real>, restitution: Option<real>, friction: Option<real>)

  const NoOptions: PhysicsOptions := PhysicsOptions(None, None, None)

  const DefaultRestitution: real := 0.3
  const DefaultFriction: real := 0.5

  datatype BodyMaterial = BodyMaterial(mass: real, restitution: real, friction: real)

  /** `options.x ?? default` for mass, restitution and friction. */
  function ResolveMaterial(t: DiceType, options: PhysicsOptions): (m: BodyMaterial)
    ensures options.mass.Some? ==> m.mass == options.mass.value
    ensures options.mass.None? ==> m.mass == DiceMass(Known(t)) && m.mass > 0.0
    ensures options.restitution.Some? ==> m.restitution == options.restitution.value
    ensures options.restitution.None? ==> m.restitution == DefaultRestitution
    ensures options.friction.Some? ==> m.friction == options.friction.value
    ensures options.friction.None? ==> m.friction == DefaultFriction
  {
    BodyMaterial(
      match options.mass case Some(v) => v case None => DiceMass(Known(t)),
      match options.restitution case Some(v) => v case None => DefaultRestitution,
      match options.friction case Some(v) => v case None => DefaultFriction)
  }

  function SquaredSpeed(v: Vec3): real
  {
    v.x * v.x + v.y * v.y + v.z * v.z
  }

  /** `Math.sqrt(x² + y² + z²) > t`, stated without the square root. */
  predicate SpeedExceeds(v: Vec3, t: real)
  {
    t < 0.0 || SquaredSpeed(v) > t * t
  }

  /** `SpeedExceeds` is the comparison of the Euclidean speed `s` with the threshold. */
  lemma SpeedExceedsIffSpeedAbove(v: Vec3, t: real, s: real)
    requires s >= 0.0 && s * s == SquaredSpeed(v)
    ensures SpeedExceeds(v, t) <==> s > t
  {
    if t >= 0.0 {
      if s > t {
        MulPositive(s, s - t);
        MulNonNegative(t, s - t);
        assert s * s - t * t == s * (s - t) + t * (s - t);
      } else {
        MulNonNegative(s, t - s);
        MulNonNegative(t, t - s);
        assert t * t - s * s == s * (t - s) + t * (t - s);
      }
    }
  }

  lemma MulPositive(a: real, b: real)
    requires a > 0.0 && b > 0.0
    ensures a * b > 0.0
  {
  }

  lemma MulNonNegative(a: real, b: real)
    requires a >= 0.0 && b >= 0.0
    ensures a * b >= 0.0
  {
  }

  /** A mesh's pose as the renderer holds it. */
  class Mesh {
    var position: Vec3
    var quaternion: Quat

    constructor ()
      ensures position == Zero && quaternion == Identity
    {
      position, quaternion := Zero, Identity;
    }
  }

  /** What `useDicePhysics(mesh, diceType, options)` returns: nullable body and collider handles. */
  class DicePhysicsHandle {
    const physics: WorldState
    const diceType: DiceType
    const mass: real
    const restitution: real
    const friction: real
    /** The mesh reference; its owner may set or clear it. */
    var mesh: Mesh?
    var rigidBody: RigidBody?
    var collider: Collider?

    constructor (physics: WorldState, mesh: Mesh?, diceType: DiceType, options: PhysicsOptions := NoOptions)
      ensures this.physics == physics && this.mesh == mesh && this.diceType == diceType
      ensures BodyMaterial(mass, restitution, friction) == ResolveMaterial(diceType, options)
      ensures rigidBody == null && collider == null
    {
      this.physics := physics;
      this.mesh := mesh;
      this.diceType := diceType;
      var m := ResolveMaterial(diceType, options);
      mass, restitution, friction := m.mass, m.restitution, m.friction;
      rigidBody, collider := null, null;
    }

    /** The collider description `createPhysicsBody` builds for this die. */
    function DieColliderDesc(): (d: ColliderDesc)
      ensures d.shape == ColliderForDice(Known(diceType)).shape && ShapePositive(d.shape)
      ensures d.translation == Zero && d.mass == Some(mass)
      ensures d.restitution == restitution && d.friction == friction
    {
      ColliderForDice(Known(diceType)).(mass := Some(mass), restitution := restitution, friction := friction)
    }

    /** Both guards of `createPhysicsBody` pass. */
    predicate WorldReady()
      reads physics
    {
      physics.isInitialized && physics.rapierLoaded && physics.world != null
    }

    /**
     * `createPhysicsBody(position)`: with the world ready, one new dynamic body
     * at `position`, at rest, and one new collider attached to it; otherwise
     * nothing happens. A body created earlier stays in the world.
     */
    method CreatePhysicsBody(position: Vec3)
      modifies this, physics.world
      ensures mesh == old(mesh)
      ensures !WorldReady() ==> rigidBody == old(rigidBody) && collider == old(collider)
      ensures !WorldReady() && physics.world != null ==> unchanged(physics.world)
      ensures WorldReady() ==>
                (fresh(rigidBody) && fresh(collider) &&
                 rigidBody.bodyType == Dynamic && rigidBody.translation == position && rigidBody.rotation == Identity &&
                 rigidBody.linvel == Zero && rigidBody.angvel == Zero &&
                 collider.parent == rigidBody && collider.desc == DieColliderDesc() &&
                 physics.world.bodies == old(physics.world.bodies) + {rigidBody} &&
                 physics.world.colliders == old(physics.world.colliders) + {collider} &&
                 physics.world.steps == old(physics.world.steps) && physics.world.freed == old(physics.world.freed))
    {
      if !physics.isInitialized {
        return;
      }
      if !physics.rapierLoaded || physics.world == null {
        return;
      }
      var w := physics.world;
      var body := w.CreateRigidBody(DynamicBody().(translation := position));
      rigidBody := body;
      var c := w.CreateCollider(DieColliderDesc(), body);
      collider := c;
    }

    /** `syncMeshFromPhysics`: copy the body's pose into the mesh; the body is only read. */
    method SyncMeshFromPhysics()
      modifies mesh
      ensures rigidBody != null && mesh != null ==>
                (mesh.position == rigidBody.translation && mesh.quaternion == rigidBody.rotation)
      ensures rigidBody == null && mesh != null ==> unchanged(mesh)
    {
      if rigidBody == null || mesh == null {
        return;
      }
      var position := rigidBody.translation;
      var rotation := rigidBody.rotation;
      mesh.position := position;
      mesh.quaternion := rotation;
    }

    /** `applyForce`: hand the force to the body, when there is one. */
    method ApplyForce(force: Vec3)
      modifies rigidBody
      ensures rigidBody != null ==>
                (rigidBody.forces == old(rigidBody.forces) + [force] && rigidBody.impulses == old(rigidBody.impulses) &&
                 rigidBody.translation == old(rigidBody.translation) && rigidBody.rotation == old(rigidBody.rotation) &&
                 rigidBody.linvel == old(rigidBody.linvel) && rigidBody.angvel == old(rigidBody.angvel))
    {
      if rigidBody == null {
        return;
      }
      rigidBody.forces := rigidBody.forces + [force];
    }

    /**
     * `applyImpulse`: hand the impulse to the body, when there is one. The
     * engine changes the linear velocity at once; the contract leaves it free.
     */
    method ApplyImpulse(impulse: Vec3)
      modifies rigidBody
      ensures rigidBody != null ==>
                (rigidBody.impulses == old(rigidBody.impulses) + [impulse] && rigidBody.forces == old(rigidBody.forces) &&
                 rigidBody.translation == old(rigidBody.translation) && rigidBody.rotation == old(rigidBody.rotation) &&
                 rigidBody.angvel == old(rigidBody.angvel))
    {
      if rigidBody == null {
        return;
      }
      rigidBody.impulses := rigidBody.impulses + [impulse];
    }

    /** `resetPosition`: move the body to `position` and stop it, whatever it was doing. */
    method ResetPosition(position: Vec3)
      modifies rigidBody
      ensures rigidBody != null ==>
                (rigidBody.translation == position && rigidBody.linvel == Zero && rigidBody.angvel == Zero &&
                 rigidBody.rotation == old(rigidBody.rotation) &&
                 rigidBody.forces == old(rigidBody.forces) && rigidBody.impulses == old(rigidBody.impulses))
    {
      if rigidBody == null {
        return;
      }
      rigidBody.translation := position;
      rigidBody.linvel := Zero;
      rigidBody.angvel := Zero;
    }

    /** `setAngularVelocity`: set the spin, nothing else. */
    method SetAngularVelocity(angvel: Vec3)
      modifies rigidBody
      ensures rigidBody != null ==>
                (rigidBody.angvel == angvel &&
                 rigidBody.translation == old(rigidBody.translation) && rigidBody.rotation == old(rigidBody.rotation) &&
                 rigidBody.linvel == old(rigidBody.linvel) &&
                 rigidBody.forces == old(rigidBody.forces) && rigidBody.impulses == old(rigidBody.impulses))
    {
      if rigidBody == null {
        return;
      }
      rigidBody.angvel := angvel;
    }

    /** `getVelocity`: the body's linear velocity, or zero without a body. */
    method GetVelocity() returns (v: Vec3)
      ensures rigidBody == null ==> v == Zero
      ensures rigidBody != null ==> v == rigidBody.linvel
    {
      if rigidBody == null {
        return Zero;
      }
      v := rigidBody.linvel;
    }

    /**
     * `isMoving(threshold = 0.01)`: the speed is strictly above the threshold.
     * Without a body, or right after a reset, a die is not moving for any
     * threshold that is not negative.
     */
    method IsMoving(threshold: real := 0.01) returns (moving: bool)
      ensures moving <==> SpeedExceeds(if rigidBody == null then Zero else rigidBody.linvel, threshold)
      ensures (rigidBody == null || rigidBody.linvel == Zero) && threshold >= 0.0 ==> !moving
    {
      var vel := GetVelocity();
      moving := threshold < 0.0 || SquaredSpeed(vel) > threshold * threshold;
    }

    /**
     * `cleanup`: remove the body from the world when both exist, then clear
     * both handles; a second call does nothing more.
     */
    method Cleanup()
      modifies this, physics.world
      ensures rigidBody == null && collider == null && mesh == old(mesh)
      ensures physics.world != null && old(rigidBody) != null ==>
                (physics.world.bodies == old(physics.world.bodies) - {old(rigidBody)} &&
                 physics.world.colliders == (set c | c in old(physics.world.colliders) && c.parent != old(rigidBody)) &&
                 physics.world.steps == old(physics.world.steps) && physics.world.freed == old(physics.world.freed))
      ensures old(rigidBody) == null && physics.world != null ==> unchanged(physics.world)
    {
      if physics.world != null && rigidBody != null {
        physics.world.RemoveRigidBody(rigidBody);
      }
      rigidBody := null;
      collider := null;
    }
  }
}
