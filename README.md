# dice-web: a Dafny model of the dice-rolling core

dice-web is a browser dice roller. The user picks up to eight polyhedral dice
(d4, d6, d8, d10, d12, d20, d100). The app throws them into a Rapier physics
world, renders them with three.js, and keeps a history of rolls and the user's
settings in Pinia stores that are saved to the browser's storage.

This project models everything around the physics engine, one module per
source file:

- `DiceTypes` (`app/types/dice.ts`): the seven die kinds, a die's result, and the
  per-kind counts of a configuration. It also has a `DiceTag` for the run-time
  tag, whose `Unrecognised` case is the input that the source's `default:` and
  `|| fallback` branches handle. The lookups key on the string, so
  `Classify` reads an `Unrecognised` tag that carries a kind's own name
  (`"d4"`, ...) as that kind. `FallsBack` also excludes the names every object
  inherits (`toString`, `constructor`, ...), which a `|| fallback` lookup in an
  object literal does not send to its fallback.
- `DiceConfig` (`app/stores/diceConfig.ts`): the configuration store. It has the
  `totalDiceCount` and `activeDiceTypes` getters as functions, and one
  specification function per action (`AfterAddDie`, ...). The class
  `DiceConfigStore` holds the state in place, and each of its methods is proved
  to produce the state that its specification function gives. The invariant
  "no negative count, at most eight dice" holds initially and every action
  keeps it.
- `RollHistory` (`app/stores/rollHistory.ts`): the append-only history, the
  `reduce` total, and the `recentRolls` / `lastRoll` getters. It also has
  lemmas on how the getters move when a roll is appended.
- `AppSettings` (`app/stores/settings.ts`): the settings record, the persisted
  snapshot, and `$patch` on load.
- `DiceGeometry` (`app/composables/dice/useDiceGeometry.ts`): the geometry
  descriptors (shape and lengths, not meshes), the colours, and the face counts.
- `RapierWorld` (`app/composables/useRapierWorld.ts`): the module-level
  singleton as class `WorldState`. `init` is split at its `await` into
  `BeginInit` and `FinishInit(backendLoaded)`. The backend load's success or
  failure is a parameter.
- `DicePhysics` (`app/composables/useDicePhysics.ts`): the collider and mass
  tables, the option defaults, and class `DicePhysicsHandle` for one die's
  nullable body and collider handles.

Two more modules support these. `Wrappers` holds `Option` and `Result`. `Rapier`
is an abstract stand-in for the physics library: bodies and colliders are
objects whose fields the dice code sets and the engine may change during a
step or an impulse, and a world is a set of bodies and
a set of colliders. Removing a body also removes the colliders attached to it,
as the library documents.

Some behaviours of the code worth noting:
- `step(deltaTime)` ignores its argument.
- The fallback colour for an unrecognised tag is white.
- There is no settle detector and no face-value read-out.
- `isMoving` looks only at linear velocity.

## Model

| member | source | states |
|---|---|---|
| `DiceTypes.Classify` | app/types/dice.ts:7 | a known tag is kept; an unrecognised string that names a kind becomes that kind, whose name it is; any other string stays unrecognised |
| `DiceTypes.KindNameRoundTrip` | app/types/dice.ts:7 | each kind's name is a kind name and is read back as that kind |
| `DiceConfig.Rank` | app/stores/diceConfig.ts:27 | each kind's position in the fixed list d4, d6, d8, d10, d12, d20, d100 |
| `DiceConfig.AllTypesRanked` | app/stores/diceConfig.ts:27 | the fixed list is in strictly increasing order, with no kind twice |
| `DiceConfig.TotalDiceCount` | app/stores/diceConfig.ts:19-21 | the sum of the seven counts; with no negative count it is non-negative and at least every single count |
| `DiceConfig.TotalIsSumOverAllTypes` | app/stores/diceConfig.ts:19-21 | `totalDiceCount` equals the sum of the counts over all seven kinds |
| `DiceConfig.TotalAfterWith` | app/stores/diceConfig.ts:19-21 | replacing one kind's count changes the total by exactly the difference |
| `DiceConfig.InitialConfigurationValid` | app/stores/diceConfig.ts:5-13 | the initial state is two d6 and nothing else: total 2, invariant holds |
| `DiceConfig.AfterAddDie` | app/stores/diceConfig.ts:38-42 | adds one to `t` only when the total is below 8, else no change; other kinds unchanged; keeps the invariant |
| `DiceConfig.AfterRemoveDie` | app/stores/diceConfig.ts:47-51 | takes one from `t` only when it is positive; never goes negative; other kinds unchanged; keeps the invariant |
| `DiceConfig.AfterSetDiceCount` | app/stores/diceConfig.ts:56-59 | sets `t` to the request when it fits, to 0 when the request is negative, to the room left when it is too big; other kinds unchanged; total at most 8 whenever the others leave room; keeps the invariant |
| `DiceConfig.ActiveAmong` | app/stores/diceConfig.ts:28-30 | the filter/map yields entries with their own positive counts, in list order |
| `DiceConfig.ActiveAmongComplete` | app/stores/diceConfig.ts:28-30 | every listed kind with a positive count has an entry |
| `DiceConfig.ActiveDiceTypes` | app/stores/diceConfig.ts:26-31 | exactly the kinds with a positive count, each with its count, in the order d4 … d100 |
| `DiceConfig.ActiveAmongSum` | app/stores/diceConfig.ts:26-31 | with no negative count, the listed counts sum to the sum over the listed kinds |
| `DiceConfig.ActiveCountsSumToTotal` | app/stores/diceConfig.ts:19-31 | the counts in `activeDiceTypes` add up to `totalDiceCount` |
| `DiceConfig.DiceConfigStore.constructor` | app/stores/diceConfig.ts:5-13 | the store starts in the initial configuration, which satisfies the invariant |
| `DiceConfig.DiceConfigStore.AddDie` | app/stores/diceConfig.ts:38-42 | the new state is `AfterAddDie` of the old; the invariant is kept |
| `DiceConfig.DiceConfigStore.RemoveDie` | app/stores/diceConfig.ts:47-51 | the new state is `AfterRemoveDie` of the old; the invariant is kept |
| `DiceConfig.DiceConfigStore.SetDiceCount` | app/stores/diceConfig.ts:56-59 | the new state is `AfterSetDiceCount` of the old; the invariant is kept |
| `DiceConfig.DiceConfigStore.Reset` | app/stores/diceConfig.ts:64-72 | restores the initial configuration, whatever the state was |
| `RollHistory.RollTotal` | app/stores/rollHistory.ts:37 | the left-fold sum of the values; with no negative value it is non-negative and at least every single value |
| `RollHistory.RollTotalAppend` | app/stores/rollHistory.ts:37 | the `reduce` total of a concatenation is the sum of the totals |
| `RollHistory.NewRecord` | app/stores/rollHistory.ts:37-43 | the record keeps the given rolls, and its total is their sum |
| `RollHistory.LastRoll` | app/stores/rollHistory.ts:27-29 | null exactly when the history is empty, otherwise the final record |
| `RollHistory.RecentRolls` | app/stores/rollHistory.ts:20-22 | length min(20, length of the history); entry i is the i-th newest record |
| `RollHistory.RecentStartsWithLast` | app/stores/rollHistory.ts:20-29 | `recentRolls` is empty exactly when `lastRoll` is null, and otherwise starts with it |
| `RollHistory.RecentAfterAppend` | app/stores/rollHistory.ts:20-44 | after an append, the new record comes first and the earlier recent rolls shift down, dropping the oldest once 20 are shown; `lastRoll` is the new record |
| `RollHistory.RollHistoryStore.constructor` | app/stores/rollHistory.ts:12-14 | the history starts empty |
| `RollHistory.RollHistoryStore.SaveToLocalStorage` | app/stores/rollHistory.ts:59-67 | the stored entry becomes the current history, which is unchanged |
| `RollHistory.RollHistoryStore.AddRoll` | app/stores/rollHistory.ts:36-46 | appends exactly one consistent record at the end, leaves earlier records as they were, and persists |
| `RollHistory.RollHistoryStore.ClearHistory` | app/stores/rollHistory.ts:51-54 | empties and persists the history; then `lastRoll` is null and `recentRolls` is empty |
| `RollHistory.RollHistoryStore.LoadFromLocalStorage` | app/stores/rollHistory.ts:72-83 | takes the stored history when there is one, else changes nothing |
| `AppSettings.Snapshot` | app/stores/settings.ts:64-72 | the saved snapshot holds every field |
| `AppSettings.ApplyPatch` | app/stores/settings.ts:77-89 | fields present in the stored object overwrite, absent ones stay |
| `AppSettings.SnapshotRoundTrip` | app/stores/settings.ts:64-89 | loading a snapshot restores the saved state whatever came before; loading one's own snapshot changes nothing; patching is idempotent |
| `AppSettings.SettingsStore.constructor` | app/stores/settings.ts:12-18 | all three skins `'default'`, sound and haptics on |
| `AppSettings.SettingsStore.SaveToLocalStorage` | app/stores/settings.ts:64-72 | the stored entry becomes the snapshot of the unchanged state |
| `AppSettings.SettingsStore.SetDiceSkin` | app/stores/settings.ts:24-27 | only `diceSkin` changes; then the snapshot equals the whole state |
| `AppSettings.SettingsStore.SetCupSkin` | app/stores/settings.ts:32-35 | only `cupSkin` changes; then the snapshot equals the whole state |
| `AppSettings.SettingsStore.SetEnvironmentSkin` | app/stores/settings.ts:40-43 | only `environmentSkin` changes; then the snapshot equals the whole state |
| `AppSettings.SettingsStore.ToggleSound` | app/stores/settings.ts:48-51 | only `soundEnabled` changes, to its negation; then the snapshot equals the whole state |
| `AppSettings.SettingsStore.ToggleHaptics` | app/stores/settings.ts:56-59 | only `hapticsEnabled` changes, to its negation; then the snapshot equals the whole state |
| `AppSettings.SettingsStore.LoadFromLocalStorage` | app/stores/settings.ts:77-89 | patches the state with the stored entry; with no entry nothing changes |
| `AppSettings.ToggleTwiceRestores` | app/stores/settings.ts:48-59 | toggling sound twice and haptics twice gives back the original state |
| `DiceGeometry.DiceColor` | app/composables/dice/useDiceGeometry.ts:76-87 | every kind, also when named by an `Unrecognised` tag, gets a non-zero colour other than white; a tag that `FallsBack` gets white |
| `DiceGeometry.ColorsDistinct` | app/composables/dice/useDiceGeometry.ts:77-85 | the seven colours are pairwise distinct |
| `DiceGeometry.CreateDiceGeometry` | app/composables/dice/useDiceGeometry.ts:14-70 | the material is the kind's colour with roughness 0.4, metalness 0.1, smooth shading; at a positive scale every length is positive |
| `DiceGeometry.GeometryScales` | app/composables/dice/useDiceGeometry.ts:14-58 | every length is the default-scale (1.0) length times `scale`; segment counts do not scale |
| `DiceGeometry.D10AndD100ShareGeometry` | app/composables/dice/useDiceGeometry.ts:33-53 | d10 and d100 get the same cylinder (radius 0.7, height 1.2, 10 segments) and different materials |
| `DiceGeometry.UnrecognisedFallsBackToBox` | app/composables/dice/useDiceGeometry.ts:23-57 | an unrecognised name that is no kind's name gets a box the size of the d6, with one segment per side instead of two, in white unless the name is an inherited property name |
| `DiceGeometry.DiceFaceCount` | app/composables/dice/useDiceGeometry.ts:92-103 | every kind has at least four faces |
| `DiceGeometry.FaceCountInjective` | app/composables/dice/useDiceGeometry.ts:93-101 | distinct kinds have distinct face counts |
| `DicePhysics.ColliderForDice` | app/composables/useDicePhysics.ts:160-190 | every collider dimension is positive, and the description has the library's defaults otherwise |
| `DicePhysics.KindNameLookupsAgree` | app/composables/useDicePhysics.ts:197-206 | an `Unrecognised` tag carrying a kind's name gets that kind's geometry, colour, collider and mass, because the tables key on the string |
| `DicePhysics.ColliderMatchesGeometry` | app/composables/useDicePhysics.ts:160-190 | at scale 1 each collider matches its visual geometry: equal ball radii, half-extents half the box side, half the cylinder height with the same radius |
| `DicePhysics.DiceMass` | app/composables/useDicePhysics.ts:195-207 | always positive; a kind's mass, also when named by an `Unrecognised` tag, is its table entry; 0.5 for a tag that `FallsBack` |
| `DicePhysics.ResolveMaterial` | app/composables/useDicePhysics.ts:27-29 | explicit options win; otherwise the table mass, restitution 0.3 and friction 0.5 |
| `DicePhysics.SpeedExceedsIffSpeedAbove` | app/composables/useDicePhysics.ts:125-129 | the square-free test agrees with comparing the Euclidean speed to the threshold |
| `DicePhysics.DicePhysicsHandle.constructor` | app/composables/useDicePhysics.ts:16-29 | no body or collider yet; mass, restitution and friction resolved from the options |
| `DicePhysics.DicePhysicsHandle.DieColliderDesc` | app/composables/useDicePhysics.ts:52-55 | the die's collider has its kind's shape, sits at the body's origin, and carries the resolved mass, restitution and friction |
| `DicePhysics.DicePhysicsHandle.CreatePhysicsBody` | app/composables/useDicePhysics.ts:34-60 | with the world not ready nothing changes; otherwise exactly one new dynamic body at `position`, at rest, and one new collider attached to it join the world |
| `DicePhysics.DicePhysicsHandle.SyncMeshFromPhysics` | app/composables/useDicePhysics.ts:66-76 | copies the body's translation and rotation into the mesh; never writes to the body |
| `DicePhysics.DicePhysicsHandle.ApplyForce` | app/composables/useDicePhysics.ts:82-85 | hands the force to the body, when there is one, and changes nothing else |
| `DicePhysics.DicePhysicsHandle.ApplyImpulse` | app/composables/useDicePhysics.ts:91-94 | hands the impulse to the body, when there is one; pose, spin and forces are unchanged, and the linear velocity is left to the engine |
| `DicePhysics.DicePhysicsHandle.ResetPosition` | app/composables/useDicePhysics.ts:99-104 | translation becomes `position`; linear and angular velocity become zero whatever they were |
| `DicePhysics.DicePhysicsHandle.SetAngularVelocity` | app/composables/useDicePhysics.ts:109-112 | only the angular velocity changes |
| `DicePhysics.DicePhysicsHandle.GetVelocity` | app/composables/useDicePhysics.ts:117-120 | the body's linear velocity, or zero without a body |
| `DicePhysics.DicePhysicsHandle.IsMoving` | app/composables/useDicePhysics.ts:125-129 | true iff the speed exceeds the threshold; false with no body or a stopped body for any threshold that is not negative |
| `DicePhysics.DicePhysicsHandle.Cleanup` | app/composables/useDicePhysics.ts:134-140 | both handles become null; the body leaves the world only when world and body both exist; a second call changes nothing |
| `RapierWorld.WorldState.constructor` | app/composables/useRapierWorld.ts:5-8 | no world, no backend, both flags false |
| `RapierWorld.WorldState.BeginInit` | app/composables/useRapierWorld.ts:20-25 | when initialized or initializing, returns the current handles and changes nothing; otherwise marks initializing |
| `RapierWorld.WorldState.FinishInit` | app/composables/useRapierWorld.ts:27-55 | on success, a new world with gravity (0, -9.81, 0), no bodies and exactly one ground collider (half-extents 100, 0.1, 100 at (0, -0.1, 0), restitution 0.3, friction 0.5); on failure the error propagates and nothing else changes; `isInitializing` ends false |
| `RapierWorld.WorldState.Init` | app/composables/useRapierWorld.ts:20-56 | idempotent guard; success ends initialized and not initializing; failure ends neither |
| `RapierWorld.WorldState.Step` | app/composables/useRapierWorld.ts:62-68 | with no world, a no-op without error; with one, exactly one step over the same bodies and colliders, body states left to the engine; `deltaTime` is unused; keeps `Valid()` |
| `RapierWorld.WorldState.AddCollider` | app/composables/useRapierWorld.ts:75-80 | an error with no world; otherwise exactly one new free-standing collider; keeps `Valid()` |
| `RapierWorld.WorldState.AddRigidBody` | app/composables/useRapierWorld.ts:87-92 | an error with no world; otherwise exactly one new body; keeps `Valid()` |
| `RapierWorld.WorldState.Cleanup` | app/composables/useRapierWorld.ts:97-104 | frees the world if any; world and backend null, not initialized; `isInitializing` untouched; repeating is harmless |
| `RapierWorld.CleanupThenInit` | app/composables/useRapierWorld.ts:97-104 | after cleanup, `init` is not short-circuited and builds a fresh world |

## Left out

- The physics engine itself (stepping, contacts, integration, what forces and
  impulses do to velocities) is an external library in WebAssembly with
  floating-point numerics. The engine may change a body's position and
  velocities during a step, and its linear velocity during `applyImpulse`;
  the model leaves these fields unconstrained there.
- RapierWorld.WorldState.Step: states only that the world advances one step
  and keeps its sets of bodies and colliders. Body poses and velocities after
  a step are left free, because they are the engine's business.
- DicePhysics.DicePhysicsHandle.ApplyForce: records the force handed to the
  body. Its effect at the next step is not modelled.
- DicePhysics.DicePhysicsHandle.ApplyImpulse: records the impulse handed to
  the body and leaves its linear velocity unconstrained. The engine's new
  velocity is not modelled.
- Numbers are modelled as `real` and counts as `int`. IEEE rounding, NaN and a
  fractional count passed to `setDiceCount` are not modelled.
- `isMoving` is stated as squared speed > threshold² (or any negative
  threshold). `SpeedExceedsIffSpeedAbove` shows this equals the source's
  square-root comparison.
- The asynchronous side of `init`: the dynamic import, `await RAPIER.init()`,
  and overlapping callers are reduced to the two phases `BeginInit` and
  `FinishInit`. Only the backend load can fail.
- Browser storage is a field `stored` in each store. Missing `window` (server
  rendering), storage exceptions, JSON serialisation, and a malformed or
  foreign-typed stored object are not modelled.
- RollHistory.RollHistoryStore.AddRoll: the record shares the caller's
  `rolls` array, so a later change to that array would change the record's
  rolls but not its total. The model stores an immutable copy, so every
  record stays consistent.
- A roll record's `id` and `timestamp` come from `Date.now()` and
  `Math.random()`. Here they are parameters of `AddRoll`.
- Building three.js geometry and material objects: only the shape and length
  descriptors and the material's parameters are kept. The optional mesh
  reference is a nullable field that its owner may set.
- DiceGeometry.DiceColor: the white fallback is promised only for names that
  `FallsBack` accepts. For an inherited property name such as `toString` the
  source returns the inherited function, which the model does not represent.
- DicePhysics.DiceMass: the 0.5 fallback is promised only for names that
  `FallsBack` accepts. For an inherited property name such as `constructor`
  the source returns the inherited value, which the model does not represent.
- DiceGeometry.DiceFaceCount: takes only the seven kinds; a kind's name
  carried as a string gets that kind's count. For a name that is neither a kind's name nor an inherited property name the source
  returns `undefined`; for an inherited name it returns the inherited value.
- Console logging and the `wakeUp` flag passed to the engine.
- Settle detection, debounce, timeouts and face-value read-out: no such code
  exists in the system.
- The responsive camera and viewport code in `app/composables/useResponsive3D.ts`,
  and the configuration and type-only files, are not part of this model.
