/**
 * An abstract stand-in for the Rapier physics library, which the dice code
 * calls but which is not part of this model. Bodies and colliders are records
 * whose fields the callers set and the engine may change; the world is a set of bodies and a set of
 * colliders. The dynamics are not modelled: a step and an impulse may change a
 * body's pose and velocities in any way.
 */
module Rapier {
  import opened Wrappers

  datatype Vec3 = Vec3(x: real, y: real, z: real)

  /** A rotation quaternion, in Rapier's `{x, y, z, w}` order. */
  datatype Quat = Quat(x: real, y: real, z: real, w: real)

  const Zero: Vec3 := Vec3(0.0, 0.0, 0.0)
  const Identity: Quat := Quat(0.0, 0.0, 0.0, 1.0)

  /** Collider shapes: `ball(radius)`, `cuboid(hx, hy, hz)`, `cylinder(halfHeight, radius)`. */
  datatype Shape = Ball(radius: real) | Cuboid(hx: real, hy: real, hz: real) | Cylinder(halfHeight: real, radius: real)

  datatype BodyType = Dynamic | Fixed

  datatype RigidBodyDesc = RigidBodyDesc(bodyType: BodyType, translation: Vec3)

  /** `mass` is absent when the mass is left to follow from the shape's density. */
  datatype ColliderDesc = ColliderDesc(shape: Shape, translation: Vec3, mass: Option<real>, restitution: real, friction: real)

  /** `RigidBodyDesc.dynamic()`, placed at the origin. */
  function DynamicBody(): RigidBodyDesc
  {
    RigidBodyDesc(Dynamic, Zero)
  }

  /** `ColliderDesc.ball(...)` and its siblings, with the library's defaults. */
  function ShapeDesc(shape: Shape): ColliderDesc
  {
    ColliderDesc(shape, Zero, None, 0.0, 0.5)
  }

  class RigidBody {
    const bodyType: BodyType
    var translation: Vec3
    var rotation: Quat
    var linvel: Vec3
    var angvel: Vec3
    /** The forces and impulses handed to the body, in order; their effect is Rapier's. */
    var forces: seq<Vec3>
    var impulses: seq<Vec3>

    constructor (desc: RigidBodyDesc)
      ensures bodyType == desc.bodyType && translation == desc.translation && rotation == Identity
      ensures linvel == Zero && angvel == Zero && forces == [] && impulses == []
    {
      bodyType := desc.bodyType;
      translation := desc.translation;
      rotation := Identity;
      linvel, angvel := Zero, Zero;
      forces, impulses := [], [];
    }
  }

  class Collider {
    const desc: ColliderDesc
    /** The body the collider is attached to, or null for a free-standing collider. */
    const parent: RigidBody?

    constructor (desc: ColliderDesc, parent: RigidBody?)
      ensures this.desc == desc && this.parent == parent
    {
      this.desc := desc;
      this.parent := parent;
    }
  }

  class World {
    const gravity: Vec3
    var bodies: set<RigidBody>
    var colliders: set<Collider>
    var steps: nat
    var freed: bool

    constructor (gravity: Vec3)
      ensures this.gravity == gravity && bodies == {} && colliders == {} && steps == 0 && !freed
    {
      this.gravity := gravity;
      bodies, colliders := {}, {};
      steps, freed := 0, false;
    }

    method CreateRigidBody(desc: RigidBodyDesc) returns (b: RigidBody)
      modifies this
      ensures fresh(b) && b.bodyType == desc.bodyType && b.translation == desc.translation
      ensures b.rotation == Identity && b.linvel == Zero && b.angvel == Zero && b.forces == [] && b.impulses == []
      ensures bodies == old(bodies) + {b} && colliders == old(colliders)
      ensures steps == old(steps) && freed == old(freed)
    {
      b := new RigidBody(desc);
      bodies := bodies + {b};
    }

    method CreateCollider(desc: ColliderDesc, parent: RigidBody?) returns (c: Collider)
      modifies this
      ensures fresh(c) && c.desc == desc && c.parent == parent
      ensures colliders == old(colliders) + {c} && bodies == old(bodies)
      ensures steps == old(steps) && freed == old(freed)
    {
      c := new Collider(desc, parent);
      colliders := colliders + {c};
    }

    /** Removes the body together with the colliders attached to it. */
    method RemoveRigidBody(b: RigidBody)
      modifies this
      ensures bodies == old(bodies) - {b}
      ensures colliders == set c | c in old(colliders) && c.parent != b
      ensures steps == old(steps) && freed == old(freed)
    {
      bodies := bodies - {b};
      colliders := set c | c in colliders && c.parent != b;
    }

    /**
     * One simulation step. The engine may move every body and change its
     * velocities; the contract leaves those fields free and speaks only of
     * the world's own bookkeeping.
     */
    method Step()
      modifies this, bodies
      ensures steps == old(steps) + 1
      ensures bodies == old(bodies) && colliders == old(colliders) && freed == old(freed)
    {
      steps := steps + 1;
    }

    method Free()
      modifies this
      ensures freed
      ensures bodies == old(bodies) && colliders == old(colliders) && steps == old(steps)
    {
      freed := true;
    }
  }
}
