/**
 * The physics-world singleton (app/composables/useRapierWorld.ts): one shared
 * world, the loaded backend, and the `isInitialized` / `isInitializing` flags.
 * The asynchronous `init` is modelled as two phases, `BeginInit` up to the
 * first `await` and `FinishInit` after it, with the backend load's success
 * given as a parameter.
 */
module RapierWorld {
  import opened Wrappers
  import opened Rapier

  const Gravity: Vec3 := Vec3(0.0, -9.81, 0.0)

  /** The invisible ground: a 200 x 0.2 x 200 slab whose top face is at height 0. */
  const GroundDesc: ColliderDesc := ShapeDesc(Cuboid(100.0, 0.1, 100.0)).(translation := Vec3(0.0, -0.1, 0.0), restitution := 0.3, friction := 0.5)

  /** What `init` returns: `{ world, rapier }`, either possibly null. */
  datatype Handles = Handles(world: World?, rapierLoaded: bool)

  datatype WorldError = InitializationError | NotInitialized

  class WorldState {
    var world: World?
    var rapierLoaded: bool
    var isInitialized: bool
    var isInitializing: bool

    /** Initialized exactly when a live world and the backend are present. */
    ghost predicate Valid()
      reads this, world
    {
      (world != null <==> isInitialized) && (rapierLoaded <==> isInitialized) && (world != null ==> !world.freed)
    }

    /** A freshly loaded module: nothing initialized. */
    constructor ()
      ensures world == null && !rapierLoaded && !isInitialized && !isInitializing
      ensures Valid()
    {
      world := null;
      rapierLoaded, isInitialized, isInitializing := false, false, false;
    }

    /** The world is ready: ground in place, no bodies, not yet stepped. */
    ghost predicate FreshlyBuilt()
      reads this, world
    {
      world != null && world.gravity == Gravity && world.bodies == {} && world.steps == 0 && !world.freed &&
      |world.colliders| == 1 && forall c :: c in world.colliders ==> c.desc == GroundDesc && c.parent == null
    }

    /** `init` up to its first `await`: either the guard returns the current handles, or initialization starts. */
    method BeginInit() returns (early: Option<Handles>)
      modifies this
      ensures old(isInitialized || isInitializing) ==> early == Some(Handles(world, rapierLoaded)) && unchanged(this)
      ensures !old(isInitialized || isInitializing) ==> early == None && isInitializing
      ensures world == old(world) && rapierLoaded == old(rapierLoaded) && isInitialized == old(isInitialized)
    {
      if isInitialized || isInitializing {
        return Some(Handles(world, rapierLoaded));
      }
      isInitializing := true;
      early := None;
    }

    /**
     * `init` after the backend load: on success a new world with gravity and the
     * ground collider; on failure the error propagates. Either way the
     * `finally` clears `isInitializing`.
     */
    method FinishInit(backendLoaded: bool) returns (r: Result<Handles, WorldError>)
      requires isInitializing
      modifies this
      ensures !isInitializing
      ensures backendLoaded ==> fresh(world) && FreshlyBuilt() && rapierLoaded && isInitialized && r == Ok(Handles(world, true))
      ensures !backendLoaded ==>
                (r == Err(InitializationError) &&
                 world == old(world) && rapierLoaded == old(rapierLoaded) && isInitialized == old(isInitialized))
      ensures old(Valid()) ==> Valid()
    {
      if !backendLoaded {
        isInitializing := false;  // the `catch` block
        r := Err(InitializationError);
        isInitializing := false;  // the `finally` block
        return;
      }
      rapierLoaded := true;
      var w := new World(Gravity);
      world := w;
      var _ := w.CreateCollider(GroundDesc, null);
      isInitialized := true;
      r := Ok(Handles(w, true));
      isInitializing := false;
    }

    /** `init` run start to finish with no other caller in between. */
    method Init(backendLoaded: bool) returns (r: Result<Handles, WorldError>)
      modifies this
      ensures old(isInitialized || isInitializing) ==> r == Ok(Handles(world, rapierLoaded)) && unchanged(this)
      ensures !old(isInitialized || isInitializing) && backendLoaded ==>
                (fresh(world) && FreshlyBuilt() && rapierLoaded && isInitialized && !isInitializing &&
                 r == Ok(Handles(world, true)))
      ensures !old(isInitialized || isInitializing) && !backendLoaded ==>
                (r == Err(InitializationError) && !isInitialized && !isInitializing &&
                 world == old(world) && rapierLoaded == old(rapierLoaded))
      ensures old(Valid()) ==> Valid()
    {
      var early := BeginInit();
      if early.Some? {
        return Ok(early.value);
      }
      r := FinishInit(backendLoaded);
    }

    /** `step(deltaTime)`: one step of the world when there is one; `deltaTime` is not used. */
    method Step(deltaTime: real := 1.0 / 60.0)
      modifies world, if world != null then world.bodies else {}
      ensures world != null ==>
                (world.steps == old(world.steps) + 1 &&
                 world.bodies == old(world.bodies) && world.colliders == old(world.colliders) && world.freed == old(world.freed))
      ensures old(Valid()) ==> Valid()
    {
      if world == null {
        return;
      }
      world.Step();
    }

    /** `addCollider`: a free-standing collider, or an error when there is no world. */
    method AddCollider(desc: ColliderDesc) returns (r: Result<Collider, WorldError>)
      modifies world
      ensures world == null ==> r == Err(NotInitialized)
      ensures world != null ==>
                (r.Ok? && fresh(r.value) && r.value.desc == desc && r.value.parent == null &&
                 world.colliders == old(world.colliders) + {r.value} && world.bodies == old(world.bodies) &&
                 world.steps == old(world.steps) && world.freed == old(world.freed))
      ensures old(Valid()) ==> Valid()
    {
      if world == null {
        return Err(NotInitialized);
      }
      var c := world.CreateCollider(desc, null);
      r := Ok(c);
    }

    /** `addRigidBody`: a new body, or an error when there is no world. */
    method AddRigidBody(desc: RigidBodyDesc) returns (r: Result<RigidBody, WorldError>)
      modifies world
      ensures world == null ==> r == Err(NotInitialized)
      ensures world != null ==>
                (r.Ok? && fresh(r.value) && r.value.bodyType == desc.bodyType &&
                 r.value.translation == desc.translation &&
                 world.bodies == old(world.bodies) + {r.value} && world.colliders == old(world.colliders) &&
                 world.steps == old(world.steps) && world.freed == old(world.freed))
      ensures old(Valid()) ==> Valid()
    {
      if world == null {
        return Err(NotInitialized);
      }
      var b := world.CreateRigidBody(desc);
      r := Ok(b);
    }

    /** `cleanup`: free the world and forget it and the backend; `isInitializing` is left alone. */
    method Cleanup()
      modifies this, world
      ensures world == null && !rapierLoaded && !isInitialized && isInitializing == old(isInitializing)
      ensures old(world) != null ==> old(world).freed
      ensures Valid()
    {
      if world != null {
        world.Free();
        world := null;
      }
      rapierLoaded := false;
      isInitialized := false;
    }
  }

  /** After `cleanup`, `init` is no longer short-circuited and builds a new, independent world. */
  method CleanupThenInit(state: WorldState) returns (r: Result<Handles, WorldError>)
    requires !state.isInitializing
    modifies state, state.world
    ensures fresh(state.world) && state.FreshlyBuilt() && state.isInitialized
    ensures r == Ok(Handles(state.world, true))
  {
    state.Cleanup();
    r := state.Init(true);
  }
}
