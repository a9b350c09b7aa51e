# amethyst_physics_test: the controller systems and the cube spawner

This project models the per-tick logic of a small Amethyst physics demo:

- `CameraMotionSystem` hides the cursor. It takes the tick's first mouse motion and turns it into a yaw and a pitch. The pitch is refused when the camera boom is already beyond ±20 degrees and the motion would take it further out. The rotation then goes onto the first camera boom.
- `CharacterMotionControllerSystem` folds the tick's action presses and releases into a persistent input direction. It picks the last camera's world matrix. Then it pushes the first character body with three calls: a camera-relative motion force, a jump impulse and a brake force.
- `Example::update` banks the frame time. While the bank holds more than 10 seconds, each pass spawns one cube at a random spot and takes out exactly 10. A bank of 20 spawns one cube and keeps 10, a bank of 10 spawns none.

Layout:

- `math.dfy` holds vectors, matrices and rotations.
- `events.dfy` holds input events.
- `scene.dfy` holds the `Transform` and `HideCursor` components as classes updated in place.
- `physics.dfy` holds a rigid-body server that records every call in a ghost log.
- `camera_motion.dfy`, `character_controller.dfy` and `game_state.dfy` hold the three operations.

Each operation is imperative, as in the source:

- Each `run`/`update` is a method that modifies its objects.
- The event loops, the camera loop and the spawn loop are loops here. A join loop that breaks after its first element is "the first element, if any".
- Each method is proved against specification functions. Those functions are `MouseMotion`, `BoomRotation`, `Accumulate`, `TickCalls`, `SpawnCount`, `Remainder` and `SpawnedCubes`.
- Lemmas beside them state what the source promises.

Modelling choices:

- Quaternions are free terms. `Compose(a, b)` is the product `a * b`, which pins down the composition order `yaw * old * pitch`.
- nalgebra's Euler decoding is a function parameter of `CameraMotion.Run`.
- `transform_vector` is the upper-left 3x3 block of the matrix. This is the affine case that world matrices are in.
- The f32 constants `FRAC_PI_2` and the degrees-per-radian factor are written as the exact values of the f32s.
- The input direction is an integer triple, since it only ever moves by whole units.
- The thread-local random generator is a `ThreadRng` object over a stream of values, with a count of the values drawn. `update` and `add_cube_entity` draw from the same generator. So each cube uses five draws: x and z of its position, then the red, green and blue of its colour.
- Entity creation is a `CubeWorld` that records the position and colour of each cube it is asked to add.

Facts about the code that the model keeps:

- The character controller has no ground sensor, no airborne timer and no motion or braking factors. It applies the jump impulse on every tick, whether or not Jump is held.
- The clamp compares Rust's `signum`, which is 1 for zero, so a zero motion counts as upward.
- The bound test is strict (`pitch_deg > MAX_PITCH_ANGLE`), so a boom at exactly ±20 degrees is not clamped.

## Model

| member | source | states |
|---|---|---|
| CameraMotion.Run | src/systems.rs:44-108 | after a run the cursor is hidden. Only the first boom is rotated, to `yaw * old * pitch`, with the pitch clamped from the first mouse motion. Every other boom's rotation is unchanged, and no world matrix changes |
| CameraMotion.CaptureMotion | src/systems.rs:51-66 | the loop scans up to the first `MouseMoved`, stops there, and returns exactly the motion `MouseMotion` defines |
| CameraMotion.MouseMotion | src/systems.rs:51-66 | a tick without mouse motion gives (0, 0) |
| CameraMotion.MotionOfFirstMouseEvent | src/systems.rs:55-65 | when event k is the first mouse motion, the tick's motion is (delta_y * 0.2, -delta_x * 0.2) of event k |
| CameraMotion.MotionFirstWins | src/systems.rs:56-59 | once a mouse motion has been seen, later events cannot change the result |
| CameraMotion.MotionSkipsOtherEvents | src/systems.rs:55-56 | events without mouse motion in front of the tick's events change nothing |
| CameraMotion.MirroredPitch | src/systems.rs:73-82 | within a quarter turn about Z the pitch is kept. Beyond it the pitch moves by exactly half a turn, up when negative and down otherwise. For a pitch in [-180, 180] the result stays in range with its sign flipped |
| CameraMotion.PitchClamper | src/systems.rs:83-91 | the clamper is 0 or 1. It is 0 exactly when the pitch is beyond +20 with a non-negative motion, or beyond -20 with a negative motion |
| CameraMotion.PitchAllowedInwards | src/systems.rs:83-91 | inside the ±20 bound, and for any motion back toward it, the clamper is 1 |
| CameraMotion.OutwardPitchFrozen | src/systems.rs:94-97 | beyond the bound, an outward motion gives a zero pitch angle, and an inward one gives the full `motion * dt` |
| CameraMotion.BoomPitch | src/systems.rs:71-82 | the pitch the clamp judges: the decoded angle about X in degrees, mirrored as `MirroredPitch` states |
| CameraMotion.PitchDelta | src/systems.rs:94-97 | the pitch angle of a tick is either the full `motion * dt` or zero |
| CameraMotion.BoomRotation | src/systems.rs:94-104 | the new rotation keeps the old one between the yaw about Y, on the left, and the pitch about X, on the right. The pitch angle is either the full `motion * dt` or zero |
| CameraMotion.NoMotionZeroAngles | src/systems.rs:94-101 | a tick without mouse motion rotates by zero yaw and zero pitch |
| CharacterController.CharacterMotionControllerSystem.Run | src/systems.rs:142-227 | the input direction becomes the fold of the tick's events over the old one. The server's log grows by exactly the calls `TickCalls` gives for the last camera's matrix (identity when there is none), the new direction and the first body. Velocities are unchanged |
| CharacterController.CharacterMotionControllerSystem.constructor | src/systems.rs:123-128 | a new system starts with a zero input direction |
| CharacterController.CharacterMotionControllerSystem.CameraMatrix | src/systems.rs:196-199 | gives the identity with no camera, and otherwise the world matrix of the last camera visited |
| CharacterController.PressDelta | src/systems.rs:155-173 | the press table (Forward z-1, Backward z+1, Right x-1, Left x+1, Jump y+1, anything else nothing). Its properties are stated by `PressDeltaIsUnit` |
| CharacterController.ReleaseDelta | src/systems.rs:174-192 | the release table, stated by `ReleaseUndoesPress` to be the exact negation of the press table |
| CharacterController.Step | src/systems.rs:154-193 | one event's effect on the input direction, stated by `StepByCounts` |
| CharacterController.Accumulate | src/systems.rs:154-194 | the input direction after the tick's events in order. `AccumulateByNetPresses` states it as start plus net press counts |
| CharacterController.PressDeltaIsUnit | src/systems.rs:155-173 | each of the five names moves exactly one axis by one unit, only Jump moves Y, and any other name moves nothing |
| CharacterController.ReleaseUndoesPress | src/systems.rs:154-193 | each release delta is the exact negation of the press delta of the same name |
| CharacterController.StepByCounts | src/systems.rs:154-193 | one event adds its signed Left/Right, Jump and Backward/Forward counts |
| CharacterController.AccumulateByNetPresses | src/systems.rs:154-194 | the direction after a tick is the old direction plus presses minus releases: Left minus Right on X, Jump on Y, Backward minus Forward on Z |
| CharacterController.NetPressesOfConcat | src/systems.rs:154-194 | net press counts add up over consecutive stretches of events |
| CharacterController.AccumulateOfConcat | src/systems.rs:154-194 | folding two stretches one after the other equals folding them together, so ticks compose |
| CharacterController.NetPressesByMultiset | src/systems.rs:154-194 | the net count of a name is the number of its presses minus the number of its releases in the log, wherever they sit |
| CharacterController.AccumulatePermutation | src/systems.rs:154-194 | any two logs holding the same events, in any order, give the same direction |
| CharacterController.AccumulateOrderIndependent | src/systems.rs:154-194 | swapping two stretches of events does not change the resulting direction, a special case of `AccumulatePermutation` |
| CharacterController.PairCancels | src/systems.rs:155-193 | a press followed by its release restores the direction exactly |
| CharacterController.PressReleaseCancels | src/systems.rs:155-193 | such a pair anywhere in the event log can be removed without changing the result |
| CharacterController.NoKeyStateTracking | src/systems.rs:155-193 | a repeated press pushes twice, and a release never pressed pushes the opposite way |
| CharacterController.IgnoredEventsKeepDirection | src/systems.rs:155-193 | mouse and other events, and presses or releases of unbound names, leave the direction unchanged |
| CharacterController.MotionForce | src/systems.rs:203-207 | the motion force is level (Y = 0) |
| CharacterController.MotionForceWithoutCamera | src/systems.rs:196-207 | without a camera the motion force is (x * 600, 0, z * 600) of the input direction |
| CharacterController.BrakeForce | src/systems.rs:216-220 | the brake force is level, and over one timestep it cancels the body's X and Z velocity exactly |
| CharacterController.JumpImpulseFor | src/systems.rs:209-213 | the impulse is vertical only, and it points up exactly when the Jump count is positive |
| CharacterController.ImpulseCannotReachBrake | src/systems.rs:209-223 | the brake force is the same whatever share of the impulse the reported velocity already holds, because the impulse is along Y and the brake drops Y |
| CharacterController.TickCalls | src/systems.rs:201-226 | a tick makes three calls when there is a body, and none otherwise |
| CharacterController.TickCallsShape | src/systems.rs:201-226 | a tick makes no call without a body. Otherwise every call goes to the first body: exactly two forces, both level, and one impulse of (0, 1.5 * y, 0) |
| CharacterController.OneImpulsePerTick | src/systems.rs:209-213 | there is no jump debounce: n ticks with a body give exactly n impulses and 2n forces |
| Physics.RigidBodyServer.ApplyForce | src/systems.rs:205-207 | a force call appends exactly one force record, for that body and force, to the log |
| Physics.RigidBodyServer.ApplyImpulse | src/systems.rs:210-213 | an impulse call appends exactly one impulse record, for that body and impulse, to the log |
| Physics.RigidBodyServer.LinearVelocity | src/systems.rs:216-218 | the `linear_velocity` query: the velocity the server reports for the body, an input of the model |
| Physics.CountsOfConcat | src/systems.rs:205-223 | force and impulse counts add up over consecutive stretches of the call log |
| GameState.Example.constructor | src/main.rs:35-38 | the derived default state starts with an empty time bank |
| GameState.Example.Update | src/main.rs:66-92 | the bank grows by the frame delta, then drains. While the bank is above 10, each pass takes out exactly 10 and appends exactly one cube (so 25 gives two cubes and keeps 5, 20 gives one and keeps 10). The cube's position comes from the next two draws and its colour from the three after, so the generator advances by five per cube. At the end the bank is at most 10, the amount drained is 10 times the cubes added, and the result is `Trans::None` |
| GameState.DrainAtMultiples | src/main.rs:79-89 | the loop test is strict: a bank of 10 spawns nothing, 20 spawns one cube and keeps 10, 25 spawns two and keeps 5 |
| GameState.SpawnCount | src/main.rs:79-89 | after the drain the bank is at most 10. It is positive whenever it started above 10, and no cube spawns from a bank at or below 10 |
| GameState.Remainder | src/main.rs:79-89 | what the drain leaves is at most 10, and positive whenever it started above 10 |
| GameState.CubePosition | src/main.rs:80-86 | where a cube spawns from two draws. `CubePositionBounds` states the bounds |
| GameState.ThreadRng.Gen | src/main.rs:83-85 | each draw yields the next value of the shared stream and advances the count by one |
| GameState.CubeWorld.AddCubeEntity | src/main.rs:227-230 | adding a cube draws three colour values from the shared generator and appends one cube with that position and colour |
| GameState.SpawnRandomCube | src/main.rs:80-87 | one pass of the spawn loop body takes five draws and appends exactly the cube those draws describe: x, z, then red, green, blue |
| GameState.CubeFrom | src/main.rs:80-86 | the cube five consecutive draws describe: position from the first two (see `CubePositionBounds`), colour from the next three |
| GameState.SpawnedCubes | src/main.rs:79-89 | the cubes an update spawns, one per drain step: cube k uses draws 5k and 5k + 1 for its position and the next three for its colour |
| GameState.SpawnCountUnique | src/main.rs:79-89 | the spawn count is the only number of drain steps that ends at or below 10 while every step starts above it |
| GameState.SpawnCountIsFirstStop | src/main.rs:79 | before each spawn counted, the bank was still above the threshold |
| GameState.NoSpawnAtOrBelowThreshold | src/main.rs:79 | a bank at or below 10 spawns nothing and is left as is |
| GameState.RemainderInRange | src/main.rs:79-89 | a non-negative bank drains into [0, 10] |
| GameState.BankStaysInRange | src/main.rs:69-89 | a bank in [0, 10] plus a non-negative delta drains back into [0, 10] |
| GameState.CubePositionBounds | src/main.rs:80-87 | draws in [0, 1) place a cube over [-5, 5) x [-5, 5) at height 6 |
| GameState.SpawnedCubesInBounds | src/main.rs:79-89 | with a generator in [0, 1), every cube an update spawns lies in those bounds |
| Math.ToDegrees | src/systems.rs:73 | `to_degrees`: radians times the f32 value of 180/π, so the sign of the angle is kept |
| Math.Abs | src/systems.rs:75 | `abs`: non-negative, and equal to x or -x |
| Math.Signum | src/systems.rs:84 | `signum` is 1 or -1, and it is -1 exactly for negative values (zero counts as positive) |
| Math.TransformVector | src/systems.rs:203 | `transform_vector`: the direction through the upper-left 3x3 block, the translation column ignored. `TransformIdentity` and `TransformIgnoresTranslation` state its properties |
| Math.TransformIdentity | src/systems.rs:196-203 | the identity camera matrix leaves the input direction unchanged |
| Math.TransformIgnoresTranslation | src/systems.rs:203 | a matrix's translation column never affects a transformed direction |

## Left out

- The event-channel reader registration in `setup` (src/systems.rs:110-114, 229-233): the read cursor is modelled only as "the events of this tick", a sequence passed to each run.
- `main()`, the app and bundle setup, and entity construction (`add_light_entity`, `create_floor`, `create_character_entity`, and in `add_cube_entity` the rigid body, shape, mesh and material): these are framework wiring and calls into the rendering and physics servers. Cube creation is reduced to its three colour draws and a record of the cube's position and colour. `src/components.rs` is zero-data marker tags with nothing to model.
- The ECS joins are sequences of the joined components, in visiting order. The `break` after the first boom or body becomes "the first element, if any".
- nalgebra's `euler_angles`, `from_axis_angle` and quaternion multiplication are not interpreted. The Euler decoder is a parameter, and rotations are free terms, so nothing about angle arithmetic on quaternions is modelled.
- `transform_vector` with a non-affine last row: the homogeneous normalisation is not modelled, only the 3x3 block.
- IEEE f32 rounding, infinities, NaN and -0.0: the model computes over `real` and `int`. The f32 accumulator is exact in the source only while its components stay below 2^24 in magnitude.
- CharacterController.CharacterMotionControllerSystem.Run: requires a non-zero timestep when a body exists, because f32 division by zero (giving an infinite or NaN brake force) is not modelled.
- Physics integration, contacts and the values `linear_velocity` returns: the server records its calls in a log, and the velocity it reports is an input. Whether the engine applies the jump impulse to the velocity at once does not matter to the brake force: the impulse is along Y and the brake drops Y, as `CharacterController.ImpulseCannotReachBrake` states.
- The time source and the random generator's algorithm: the frame delta is a parameter, and the generator's output is an arbitrary stream of values.
