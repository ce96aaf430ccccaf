# First-person controller, pose sync and key table

This project is a Dafny model of the player-facing core of a small 3D
sandbox game. It has two clients. The native client is built on an ECS
engine with a rigid-body physics engine. The browser client is built on a
WebGL scene library.

- **Player controller** (`input_system.rs`, module `InputSystem`):
  - the `FPSCamera` component and its defaults;
  - mouse look: the queued motion is summed, NaN frames are skipped, yaw
    and pitch are turned, and pitch is clamped to ±89.99°;
  - keyboard acceleration, built from the movement axes and the strafe and
    forward vectors, and kept horizontal;
  - the velocity rule written into the player's rigid body: add the
    acceleration, rescale when over the target speed, add the jump, and
    set no spin;
  - the Escape toggle of mouse and keyboard control;
  - the rule that spawns one cube per left-button press.
- **Pose sync** (`physics_system.rs`, module `PhysicsSystem`): every
  entity whose collider and parent body resolve, and whose body is
  dynamic, takes that body's translation and rotation.
- **Browser key table** (`input.js`, module `BrowserInput`):
  - the table from key code to "held" that the keyboard observable keeps
    up to date;
  - the constant map of movement bindings.

`Geometry` holds vectors, quaternions and transforms over `real`.
`Rapier` holds the part of the physics engine's interface that the
systems touch: body and collider handles, bodies, and the body set.

Some operations cannot be written exactly over the reals:

- the square root inside `magnitude`/`length`/`normalize`;
- `to_radians`;
- the Euler-angle quaternion constructor;
- the camera's forward vector.

These are passed in as a `Primitives` record of function values.
`Primitives.Lawful()` states the only facts the proofs use:

- `magnitude(v)` is non-negative, and its square is the squared length;
- forward vectors have length one.

Three behaviours of the code are easy to misread; the model keeps each
as written:

- **Click handler.** `mouse_click_system` reads no `enable_mouse` flag, so
  it spawns on every left press even while mouse look is disabled. The
  model has no such gate either (`InputSystem.SpawnProjectiles`).
- **Over-speed rescale.** An over-speed velocity is rescaled to
  `current_speed`, the speed the body had before the acceleration was
  added, not to `target_speed` (`InputSystem.CombinedVelocity`).
- **Look rotation.** `player_dynamics` receives `(yaw, pitch)` in radians
  but binds them as `(pitch, yaw)`. The body rotation is therefore
  `from_euler_angles(-pitch, yaw, 0)` (`InputSystem.LookRotation`).

## Model

| member | source | states |
|---|---|---|
| InputSystem.FPSCamera.constructor | gameclient/src/systems/input_system.rs:38-50 | a new camera faces yaw 0, pitch 0, has mouse and keyboard enabled, target speed 6, acceleration 1 and jump power 1, and satisfies the camera invariant |
| InputSystem.MouseState.constructor | gameclient/src/systems/input_system.rs:94-98 | the default readers have no motion or button events waiting |
| InputSystem.Clamp | gameclient/src/systems/input_system.rs:211 | the result lies in `[lo, hi]`, is `x` when `x` is in range, and is the nearer bound otherwise |
| InputSystem.Turn | gameclient/src/systems/input_system.rs:205-211 | no turn exactly when the summed delta is NaN; otherwise yaw decreases by `dx * 20 * dt`, and pitch stays within ±89.99: it is the unclamped `pitch + dy * 20 * dt` when that is in range, 89.99 when it is above, and -89.99 when it is below |
| InputSystem.Accumulate | gameclient/src/systems/input_system.rs:198-203 | one `delta += event.delta` step: NaN exactly when either side is NaN, and otherwise the component-wise sum |
| InputSystem.SumMotion | gameclient/src/systems/input_system.rs:198-203 | the total over the queue in order; when no queued delta is NaN the total is finite |
| InputSystem.LookUpdate | gameclient/src/systems/input_system.rs:194-211 | no update when mouse look is disabled; when enabled, no update exactly when some queued delta is NaN; an update always has its pitch within ±89.99 |
| InputSystem.SumMotionIsNaN | gameclient/src/systems/input_system.rs:198-207 | the summed motion is NaN if and only if some queued delta is NaN |
| InputSystem.SumMotionSplit | gameclient/src/systems/input_system.rs:198-203 | reading the queue in two batches sums to the same motion as reading it at once |
| InputSystem.SumMotionOfFinite | gameclient/src/systems/input_system.rs:198-203 | without NaN, the accumulated delta equals the independent component-wise totals |
| InputSystem.AccumulateMotion | gameclient/src/systems/input_system.rs:196-203 | the loop's result is the in-order sum of every queued delta |
| InputSystem.LookFollowsTotalMotion | gameclient/src/systems/input_system.rs:198-211 | with finite motion the look update is `Turn` by the independent totals `(TotalX, TotalY)`: yaw falls by the total x motion times `20 * dt`, and pitch is `Clamp` of the old pitch plus the total y motion times `20 * dt` to ±89.99 |
| InputSystem.NaNMotionIsIgnored | gameclient/src/systems/input_system.rs:205-207 | a single NaN anywhere in the queue cancels the whole look update |
| InputSystem.ZeroMotionKeepsLook | gameclient/src/systems/input_system.rs:209-211 | zero motion leaves a clamped orientation exactly unchanged |
| InputSystem.PitchYaw | gameclient/src/systems/input_system.rs:187-214 | keeps the camera invariant (pitch clamped); the new look is the look update when there is one and the old look otherwise; returns yaw and pitch in radians exactly when the look updated; drains the motion queue only when mouse look is enabled |
| InputSystem.MovementAxis | gameclient/src/systems/input_system.rs:261-275 | the axis is 1 exactly when only `plus` is held, -1 exactly when only `minus` is held, and 0 exactly when both or neither are held, so it is always -1, 0 or 1 |
| InputSystem.StrafeVector | gameclient/src/systems/input_system.rs:281-284 | the strafe vector is horizontal and perpendicular to the forward vector |
| Geometry.ForwardIsUnit | gameclient/src/systems/input_system.rs:277-279 | every forward vector has length one |
| InputSystem.RotatedNonZero | gameclient/src/systems/input_system.rs:175 | turning a non-zero horizontal vector a quarter and weighting it with two axes that are not both zero gives a non-zero vector |
| InputSystem.WishDirectionOfKeys | gameclient/src/systems/input_system.rs:175 | the wished direction `strafe * axis_s + forward * axis_f` has the height of `forward * axis_f` only, lies along the forward vector when no strafe key is effective, and is zero when no movement key is |
| InputSystem.WishIsHorizontalWhenSteering | gameclient/src/systems/input_system.rs:170-175 | with a non-vertical forward vector, the wished direction has a horizontal part exactly when a movement axis is non-zero, and is zero otherwise |
| InputSystem.WishLength | gameclient/src/systems/input_system.rs:175-176 | the wished direction has non-zero length exactly when a movement axis is non-zero |
| InputSystem.AccelFromPlayer | gameclient/src/systems/input_system.rs:159-183 | `None` exactly when keyboard control is off; zero when no axis is active; otherwise horizontal, of length `|acceleration|`, and pointing along the horizontal part of the wished direction |
| InputSystem.AccelFromWish | gameclient/src/systems/input_system.rs:163-182 | the same gate as `AccelFromPlayer`, for a given wished direction |
| InputSystem.ThrustAlong | gameclient/src/systems/input_system.rs:177 | the normalized horizontal wish scaled by `acceleration` is horizontal, has length `|acceleration|`, and points along the wish |
| InputSystem.CombinedVelocity | gameclient/src/systems/input_system.rs:127-140 | within the cap, the velocity is exactly acceleration plus current velocity; over it, the sum keeps its direction and takes the pre-tick speed; a body at or under the cap stays at or under it |
| InputSystem.RescaledKeepsDirection | gameclient/src/systems/input_system.rs:137 | `v.normalize() * s` has length `s` and points along `v` |
| InputSystem.NoThrustKeepsVelocity | gameclient/src/systems/input_system.rs:130-140 | with no acceleration, the velocity is unchanged, even above the cap |
| InputSystem.FirstTickFromRest | gameclient/src/systems/input_system.rs:127-149 | from rest, one tick with a movement key held and no jump gives a horizontal velocity of speed `|acceleration|` when that is within the cap |
| InputSystem.PushFromRest | gameclient/src/systems/input_system.rs:133-149 | from rest, a push within the cap and no jump becomes the new velocity unchanged |
| InputSystem.WithJump | gameclient/src/systems/input_system.rs:144-149 | the jump adds `jump_power` to the vertical component only, and only while Space is held |
| InputSystem.TickVelocity | gameclient/src/systems/input_system.rs:127-149 | the velocity computed is the jump applied to the speed rule, which is applied to the current velocity and the keyboard acceleration (zero when keyboard control is off) |
| InputSystem.Turned | gameclient/src/systems/input_system.rs:117-124 | translation, velocities and status are kept; the rotation becomes the look rotation when there is a look update, and the body is unchanged otherwise |
| InputSystem.Driven | gameclient/src/systems/input_system.rs:127-153 | pose and status are kept; the linear velocity becomes the jump applied to the speed rule; the angular velocity becomes zero |
| InputSystem.BodyAfterTick | gameclient/src/systems/input_system.rs:117-153 | the player body keeps its translation and status; its rotation is the look rotation when there is a look update and is kept otherwise; it has zero angular velocity; its linear velocity is `CombinedVelocity` of its old velocity and the acceleration (zero when keyboard control is off), then `WithJump` |
| InputSystem.LookRotation | gameclient/src/systems/input_system.rs:117-118 | the body rotation is the `(pitch, yaw)` closure applied to the `(yaw, pitch)` pair that `pitch_yaw` returns, in radians |
| InputSystem.LockRotation | gameclient/src/systems/input_system.rs:116-124 | the look changes as in `PitchYaw`; only the player's body changes, and it becomes `Turned` by the look update |
| InputSystem.DriveBody | gameclient/src/systems/input_system.rs:126-153 | only the player's body changes, and it becomes `Driven` by the keyboard acceleration, the target speed, the jump power and the held keys |
| InputSystem.PlayerDynamics | gameclient/src/systems/input_system.rs:100-155 | the only body that changes is the player's, which becomes `BodyAfterTick` of the look update, the keyboard acceleration and the held keys; the camera invariant is kept; the look and motion queue change as in `PitchYaw` |
| InputSystem.Toggle | gameclient/src/systems/input_system.rs:292-296 | both flags flip when Escape was just pressed, and nothing changes otherwise |
| InputSystem.ToggleTwiceRestores | gameclient/src/systems/input_system.rs:292-296 | two presses restore both flags |
| InputSystem.ToggleParity | gameclient/src/systems/input_system.rs:292-296 | over any run of frames, the flags end flipped exactly when Escape was just pressed an odd number of times |
| InputSystem.ToggleCursor | gameclient/src/systems/input_system.rs:286-302 | the camera's flags become `Toggle` of the old flags and the Escape edge; the invariant that the two flags agree is kept |
| InputSystem.NormalizeMuzzle | gameclient/src/systems/input_system.rs:236-237 | normalizing the forward vector times 15 gives the forward vector back |
| InputSystem.Launch | gameclient/src/systems/input_system.rs:236-237 | a cube starts one unit ahead of the camera along its forward vector, moving along it at speed 15 |
| InputSystem.SpawnProjectiles | gameclient/src/systems/input_system.rs:233-258 | exactly one cube per left-button press event, none for other events, each launched as in `Launch` |
| InputSystem.MouseClickSystem | gameclient/src/systems/input_system.rs:218-259 | reads every queued button event and spawns one cube per left press, whatever the look state |
| PhysicsSystem.SyncEntity | gameclient/src/systems/physics_system.rs:28-37 | an entity whose collider or parent body is missing, or whose body is not dynamic, is unchanged; otherwise its translation and rotation equal the body's; the collider and scale are never written |
| PhysicsSystem.Synced | gameclient/src/systems/physics_system.rs:26-41 | every entity is processed and handled on its own, so a skipped entity does not affect the others |
| PhysicsSystem.SyncPhysics | gameclient/src/systems/physics_system.rs:20-42 | the entities become the synced query, and only the entity array is written: the body set and colliders are read only |
| PhysicsSystem.SyncEntityIdempotent | gameclient/src/systems/physics_system.rs:28-37 | syncing one entity twice gives the same result as syncing it once |
| PhysicsSystem.SyncIdempotent | gameclient/src/systems/physics_system.rs:20-42 | two sync passes against the same bodies give the same transforms as one |
| PhysicsSystem.SyncIsLocal | gameclient/src/systems/physics_system.rs:26-41 | syncing a split query gives the two synced halves |
| PhysicsSystem.SyncPassesIsOnePass | gameclient/src/systems/physics_system.rs:20-42 | any positive number of passes gives what one pass gives |
| PhysicsSystem.UnfollowedEntityStaysPut | gameclient/src/systems/physics_system.rs:28-37 | an entity that does not follow a dynamic body keeps its transform across any number of passes |
| BrowserInput.KeysAreDistinct | client/src/game/input.js:3-9 | the five bindings (forward, backward, left, right, jump) have distinct key codes |
| BrowserInput.Apply | client/src/game/input.js:28-40 | only the event's key code entry can change; a key-down marks it held and a key-up marks it released; auto-repeats and other event kinds change nothing |
| BrowserInput.FPSCamera.constructor | client/src/game/input.js:15-16 | a new camera's key table is empty |
| BrowserInput.FPSCamera.ProcessKeyDown | client/src/game/input.js:18-21 | the code's entry becomes true, and the rest of the table is kept |
| BrowserInput.FPSCamera.ProcessKeyUp | client/src/game/input.js:23-26 | the code's entry becomes false, and the rest of the table is kept |
| BrowserInput.FPSCamera.KeyboardEventHandler | client/src/game/input.js:28-40 | the table becomes `Apply` of the old table and the event |
| BrowserInput.TableRecordsLastEdge | client/src/game/input.js:18-40 | after any run of events, a code's entry is what its last non-repeat key-down or key-up said, and is untouched if there was none |
| BrowserInput.FreshTableHolds | client/src/game/input.js:16-40 | starting from a new camera, a code is held exactly when its last edge was a key-down |

## Left out

- Engine plumbing is not modelled: plugin registration, the startup system that spawns the camera, the ECS scheduler and the queries' singleton lookups. The controller's `unwrap` of the player entity and of its body becomes a requirement that the body is in the body set.
- The window's cursor lock and visibility flips in `toggle_cursor` are not modelled. Only the two camera flags are.
- Spawned cubes are returned as a translation and velocity. Mesh, material, collider shape, the random angular velocity and the random density are left out, because they are rendering assets and randomness.
- The solver, gravity, collisions and contact events are not modelled. They belong to the physics engine.
- Bevy's event buffers expire events after two frames. The model keeps a reader's unread events as a queue and does not model expiry.
- The wake-up flags passed to `set_position` and `set_linvel` are not modelled.
- Arithmetic is over `real`. `f32` rounding, infinities and NaN in body state are not modelled. NaN appears only as the mouse-delta marker that `pitch_yaw` tests.
- InputSystem.AccelFromPlayer: requires a forward vector that is not exactly vertical, even when no movement key is held or forward and back cancel out, where the code yields a plain zero. With a vertical forward vector and exactly one of forward and back held, the wished direction is vertical, so the code normalizes a zero horizontal vector and yields NaN. The model does not follow that degenerate case.
- InputSystem.TickVelocity: requires a forward vector that is not exactly vertical, because it calls `AccelFromPlayer`; the vertical case is not modelled, for the same reason.
- InputSystem.DriveBody: requires a forward vector that is not exactly vertical, because it calls `AccelFromPlayer`; the vertical case is not modelled, for the same reason.
- InputSystem.PlayerDynamics: requires a forward vector that is not exactly vertical, because its velocity step calls `AccelFromPlayer`; the vertical case is not modelled, for the same reason.
- The scheduling order of the systems within a frame, and its effect on the pose sync of the player's own body, is not modelled. The systems are modelled one call at a time.
- The scene observable registration in `input.js` (lines 42-45) and the console logging of each key event are left out, because they are host I/O.
- `main.rs` and the React/scene components are not part of this model.
