# Player locomotion: a verified Dafny model

This project models the player locomotion state machine of a first-person horror prototype written for Unity in C#. The prototype has two `PlayerMovement` controllers:

- `Assets/Scripts/PlayerMovement.cs` is the full controller, modelled in module `PlayerController` (`player_controller.dfy`). It has walking, sprinting and crouching, a grounded jump, a timed dash with a decaying speed and a cooldown, camera pitch, roll tilt and head-bob, and the one-way `DisableMovement` that the scare trigger calls.
- `Assets/PlayerMovement.cs` is the earlier, simpler controller, modelled in module `BasicPlayerController` (`basic_player_controller.dfy`). It has walking and sprinting, a jump on the `performed` edge, camera pitch, and gravity. Its `Update` runs look, then movement, then gravity.

Both modules use the same layout:

- `State` gathers the controller's fields.
- Each input callback, and each part of `Update`, is a function from `State` to `State`. These functions are the specification.
- `Run` plays a sequence of `Event`s: callbacks, frames and, in the full controller, dash-coroutine resumptions. Lemmas about `Run` state what holds across any number of frames.
- The class `PlayerMovement` holds the same fields and updates them in place, as the MonoBehaviour does. Each of its methods is proved to take `Snapshot()` to the value the matching function gives.

Two shared modules supply the vocabulary:

- `Numerics` (`numerics.dfy`) gives Unity's `Mathf.Clamp`, `Mathf.Lerp` (with `t` clamped to [0, 1]) and `Mathf.Abs` on exact reals. It also defines the square-root predicate that stands for `Mathf.Sqrt`.
- `Locomotion` (`locomotion.dfy`) gives 2-D axes in the player's local frame (right = x, forward = y) and the displacement requests passed to `CharacterController.Move` (x = right, y = up, z = forward). It also holds the input-action phases, the pitch clamp, and the gravity step with ground snapping that both controllers apply.

The environment becomes parameters:

- `Time.time` becomes `now`, and `Time.deltaTime` becomes `dt`.
- The collision answers of `controller.isGrounded` become `grounded` flags.
- `CharacterController.Move` becomes the list of displacement requests (`moves`) that each step returns, in order.

The full controller's `Update` reads `isGrounded` twice. `HandleMovement` reads it before its moves, and `HandleHeadBob` reads it after them. So that `Update` takes two flags: `grounded` and `groundedAfterMove`.

`DashRoutine` is replaced by an explicit record in `State`: `isDashing`, `dashStartTime`, `dashDirection` and `nextDashTime`. `OnDash` runs the coroutine's first loop iteration at once, as `StartCoroutine` does. After that, the engine resumes it once per frame, after `Update`, while `isDashing` holds. That resumption is `DashTick`, and in the class it is the method `ResumeDash`. `isDashing` is true exactly while the coroutine is alive.

`Mathf.Sqrt(jumpHeight * -2 * gravity)` is carried in the settings as `jumpVelocity`. `WellFormed` requires it to be the non-negative square root: `v >= 0` and `v * v == jumpHeight * -2 * gravity`.

Some behaviours of the code that the model keeps exactly:

- The dash direction is the raw move vector, with no normalization. With no move input, the dash goes forward.
- The dash speed decays from `dashSpeed` to `0.2 · dashSpeed` over `dashDuration`. With a duration of zero or less, the loop test fails on its first run, so the dash ends inside `OnDash` with no move, though the cooldown is still set.
- The ground snap applies only when the vertical velocity is strictly below 0.
- The snap sets the velocity to −2 and then adds `gravity * dt` in the same frame.
- Velocity is updated before the vertical move, so a jump at the impulse `√(jumpHeight · −2 · gravity)` never climbs above `jumpHeight`, whatever the frame times (`JumpApexBounded`).
- `OnMove`, `OnLook`, `OnSprint` and `OnCrouch` are not guarded by the disable flag. After `DisableMovement`, new input still overwrites `moveInput`, and crouching still changes the controller height. `Update` then ignores all of it (`FrozenOnceDisabled`).
- `DisableMovement` does not stop a dash already under way. The coroutine keeps requesting dash moves until its duration runs out (`DisableDoesNotStopDash`).

## Model

| member | source | states |
|---|---|---|
| Numerics.Clamp | Assets/Scripts/PlayerMovement.cs:133 | Mathf.Clamp: a value below min gives min; a value above max (and not below min) gives max; a value inside [min, max] is kept; with min ≤ max the result always lies in [min, max] |
| Numerics.Clamp01 | Assets/Scripts/PlayerMovement.cs:198 | the interpolation factor inside Mathf.Lerp is pulled into [0, 1]: below 0 gives 0, above 1 gives 1, inside is kept |
| Numerics.Abs | Assets/Scripts/PlayerMovement.cs:165 | Mathf.Abs: the result is non-negative and is x or −x |
| Numerics.Lerp | Assets/Scripts/PlayerMovement.cs:198 | Mathf.Lerp: the result lies between a and b; it is a for t ≤ 0 and b for t ≥ 1 |
| Numerics.LerpNonIncreasing | Assets/Scripts/PlayerMovement.cs:152 | interpolating downward (b ≤ a), a larger t never gives a larger value |
| Numerics.SquareRootUnique | Assets/Scripts/PlayerMovement.cs:90 | the non-negative square root that stands for Mathf.Sqrt is unique, so both controllers compute the same impulse for the same jumpHeight and gravity |
| Locomotion.Planar | Assets/Scripts/PlayerMovement.cs:122-123 | the horizontal move `(right·x + forward·y)·speed·dt` has no vertical part and is zero for zero input |
| Locomotion.Vertical | Assets/Scripts/PlayerMovement.cs:126 | `velocity · dt` with only a vertical part; over a positive frame time it points up exactly when the velocity does, and down exactly when the velocity does |
| Locomotion.Pitch | Assets/Scripts/PlayerMovement.cs:132-133 | the pitch after subtracting the look delta: kept when within ±90, exactly −90 when it undershoots, exactly 90 when it overshoots |
| Locomotion.Fall | Assets/Scripts/PlayerMovement.cs:119-125 | grounded and falling: velocity becomes −2 + gravity·dt; otherwise it grows by exactly gravity·dt |
| Locomotion.RiseBelowApex | Assets/Scripts/PlayerMovement.cs:125-126 | over any number of airborne frames of any lengths, the height gained by adding gravity·dt and then moving by velocity·dt is at most v²/(−2·gravity) for the starting velocity v |
| Locomotion.JumpStaysBelowJumpHeight | Assets/Scripts/PlayerMovement.cs:90 | starting at the impulse √(jumpHeight·−2·gravity), the height gained over any airborne frames is at most jumpHeight |
| Locomotion.GroundedFallSettles | Assets/PlayerMovement.cs:81-86 | standing on the ground, a second grounded frame leaves the vertical velocity at −2 + gravity·dt, whatever it was before |
| PlayerController.Disable | Assets/Scripts/PlayerMovement.cs:205-209 | DisableMovement sets the disable flag, zeroes move and look input, and changes nothing else |
| PlayerController.DisableIsIdempotent | Assets/Scripts/PlayerMovement.cs:205-209 | calling DisableMovement twice gives the same state as once |
| PlayerController.JumpAccepted | Assets/Scripts/PlayerMovement.cs:88-89 | a jump is accepted only on `started` while grounded, and never while disabled or dashing |
| PlayerController.Jump | Assets/Scripts/PlayerMovement.cs:86-91 | when not disabled, not dashing, on `started` and grounded, only velocityY changes, to v ≥ 0 with v² = jumpHeight·−2·gravity; every other call is a no-op |
| PlayerController.Sprint | Assets/Scripts/PlayerMovement.cs:93 | the sprint flag becomes the button value and nothing else changes |
| PlayerController.Crouch | Assets/Scripts/PlayerMovement.cs:95-107 | `started` gives crouching and height 1, `canceled` gives standing and height 2, other phases change nothing; only those two fields ever change |
| PlayerController.DashAllowed | Assets/Scripts/PlayerMovement.cs:111 | a dash is allowed only on `started` at or after nextDashTime, and never while disabled or already dashing |
| PlayerController.DashDirection | Assets/Scripts/PlayerMovement.cs:146-147 | the dash direction is the move vector, or forward when it is zero, and never zero |
| PlayerController.DashSpeed | Assets/Scripts/PlayerMovement.cs:151-152 | for a positive duration, the dash speed lies between 0.2·dashSpeed and dashSpeed, is full at the start and at its floor once the duration has passed |
| PlayerController.DashSpeedNonIncreasing | Assets/Scripts/PlayerMovement.cs:149-152 | the dash speed never increases as the elapsed time grows |
| PlayerController.DashTick | Assets/Scripts/PlayerMovement.cs:149-158 | one coroutine step at a time not before the start: isDashing stays true exactly while now < start + duration, with one move along the frozen direction at DashSpeed; otherwise it becomes false with no move; nothing else changes |
| PlayerController.StartDash | Assets/Scripts/PlayerMovement.cs:109-113 | no-op unless DashAllowed; otherwise nextDashTime = now + dashCooldown, the start time and direction are frozen, and the first loop test runs: with a positive duration the dash goes on with one move at full dash speed, with a duration ≤ 0 it ends at once with no move |
| PlayerController.Rotate | Assets/Scripts/PlayerMovement.cs:129-133 | with a camera, the pitch becomes verticalRotation − lookInput.y·sensitivity when that is within ±90, and stops at exactly −90 or 90 when it over- or undershoots; only the pitch changes; without a camera nothing changes |
| PlayerController.MoveSpeed | Assets/Scripts/PlayerMovement.cs:121 | crouch speed if crouching, else sprint speed if sprinting, else walk speed |
| PlayerController.Movement | Assets/Scripts/PlayerMovement.cs:117-127 | only velocityY changes, following Fall; the moves are the horizontal step at MoveSpeed, then the vertical step with the new velocity |
| PlayerController.BobAmount | Assets/Scripts/PlayerMovement.cs:167-169 | crouching bob amount beats sprinting, which beats walking |
| PlayerController.IsMoving | Assets/Scripts/PlayerMovement.cs:165 | the head bobs exactly when a move axis lies outside [−0.1, 0.1]; zero input never bobs |
| PlayerController.HeadBob | Assets/Scripts/PlayerMovement.cs:161-187 | no camera or airborne: nothing; moving past the 0.1 deadzone: timer advances by dt·bobFrequency and the camera bobs with BobAmount; else timer resets to 0 and the camera settles; only the timer changes |
| PlayerController.TiltTarget | Assets/Scripts/PlayerMovement.cs:195 | the roll target −moveInput.x·tiltAmount lies within ±tiltAmount when \|moveInput.x\| ≤ 1, and is 0 with no sideways input |
| PlayerController.Tilt | Assets/Scripts/PlayerMovement.cs:190-198 | with a camera, the new tilt lies between the old tilt and TiltTarget; only the tilt changes; without a camera nothing changes |
| PlayerController.TiltStaysBounded | Assets/Scripts/PlayerMovement.cs:195-198 | a tilt within ±tiltAmount stays there when \|moveInput.x\| ≤ 1 |
| PlayerController.UpdateFrame | Assets/Scripts/PlayerMovement.cs:63-80 | disabled: nothing changes and nothing moves; otherwise the pitch is Rotate's and the tilt is Tilt's; dashing: no moves, no bob, velocity and timer untouched; not dashing: the moves and velocity follow Movement, and the timer and camera bob are HeadBob's with the after-move ground answer; the flags and the dash record never change in Update |
| PlayerController.DisableIsPermanent | Assets/Scripts/PlayerMovement.cs:205-207 | after any sequence of callbacks and frames, a disabled controller is still disabled |
| PlayerController.FrozenOnceDisabled | Assets/Scripts/PlayerMovement.cs:65-69 | disabled with no dash running, any sequence of events requests no move, starts no dash, and leaves velocity, pitch, tilt and bob timer unchanged |
| PlayerController.DisableDoesNotStopDash | Assets/Scripts/PlayerMovement.cs:149-158 | a dash already running when DisableMovement is called still requests a non-zero move on its next step |
| PlayerController.NoDashBeforeCooldown | Assets/Scripts/PlayerMovement.cs:111 | if every dash request comes before nextDashTime, no event sequence starts a dash or changes the cooldown or the dash record |
| PlayerController.SecondDashWaitsForCooldown | Assets/Scripts/PlayerMovement.cs:142-143 | after a dash starts at `now`, nothing before now + dashCooldown starts another |
| PlayerController.PitchStaysInRange | Assets/Scripts/PlayerMovement.cs:132-133 | pitch stays within ±90 across any sequence of events |
| PlayerController.TiltStaysWithinAmount | Assets/Scripts/PlayerMovement.cs:195-198 | with every sideways input within [−1, 1], the tilt stays within ±tiltAmount across any sequence of events |
| PlayerController.AirborneHeight | Assets/Scripts/PlayerMovement.cs:117-127 | over frames without ground contact, with movement enabled and no dash, the requested moves climb by exactly Rise of the starting vertical velocity |
| PlayerController.JumpApexBounded | Assets/Scripts/PlayerMovement.cs:86-91 | after an accepted jump, the moves of any number of airborne frames climb by at most jumpHeight |
| PlayerController.PlayerMovement.constructor | Assets/Scripts/PlayerMovement.cs:37-53 | every field starts at its declared initial value (standing height 2) |
| PlayerController.PlayerMovement.OnMove | Assets/Scripts/PlayerMovement.cs:83 | only moveInput changes, to the new value, with no guard |
| PlayerController.PlayerMovement.OnLook | Assets/Scripts/PlayerMovement.cs:84 | only lookInput changes, to the new value, with no guard |
| PlayerController.PlayerMovement.OnJump | Assets/Scripts/PlayerMovement.cs:86-91 | the fields change as Jump says |
| PlayerController.PlayerMovement.OnSprint | Assets/Scripts/PlayerMovement.cs:93 | the fields change as Sprint says |
| PlayerController.PlayerMovement.OnCrouch | Assets/Scripts/PlayerMovement.cs:95-107 | the fields change as Crouch says |
| PlayerController.PlayerMovement.OnDash | Assets/Scripts/PlayerMovement.cs:109-113 | the fields and requested moves are those of StartDash |
| PlayerController.PlayerMovement.ResumeDash | Assets/Scripts/PlayerMovement.cs:149-158 | one resumption of the dash loop at a time not before the dash started; the fields and moves are those of DashTick |
| PlayerController.PlayerMovement.Update | Assets/Scripts/PlayerMovement.cs:63-80 | the fields, moves and camera bob are those of UpdateFrame |
| PlayerController.PlayerMovement.HandleMovement | Assets/Scripts/PlayerMovement.cs:117-127 | the fields and moves are those of Movement |
| PlayerController.PlayerMovement.HandleRotation | Assets/Scripts/PlayerMovement.cs:129-138 | the fields change as Rotate says, so the pitch ends within ±90 |
| PlayerController.PlayerMovement.HandleHeadBob | Assets/Scripts/PlayerMovement.cs:161-187 | the timer and the camera bob are those of HeadBob |
| PlayerController.PlayerMovement.HandleTilt | Assets/Scripts/PlayerMovement.cs:190-202 | the fields change as Tilt says |
| PlayerController.PlayerMovement.DisableMovement | Assets/Scripts/PlayerMovement.cs:205-213 | the fields change as Disable says |
| BasicPlayerController.Jump | Assets/PlayerMovement.cs:36-42 | only a `performed` edge while grounded changes anything: velocityY becomes v ≥ 0 with v² = jumpHeight·−2·gravity |
| BasicPlayerController.Sprint | Assets/PlayerMovement.cs:44-48 | `started` or `performed` set sprinting, `canceled` clears it, other phases change nothing |
| BasicPlayerController.Look | Assets/PlayerMovement.cs:58-70 | with a camera, xRotation becomes xRotation − lookInput.y·mouseSensitivity·dt when that is within ±90, and stops at exactly −90 or 90 otherwise; only xRotation changes; without a camera nothing changes |
| BasicPlayerController.MoveSpeed | Assets/PlayerMovement.cs:74 | sprint speed when sprinting, else walk speed |
| BasicPlayerController.Walk | Assets/PlayerMovement.cs:74-76 | the horizontal move has no vertical part and is zero for zero input |
| BasicPlayerController.ForwardWalkScenario | Assets/PlayerMovement.cs:74-76 | forward input (0, 1) at walk speed 5 for dt 1 moves exactly 5 units along forward |
| BasicPlayerController.Gravity | Assets/PlayerMovement.cs:79-92 | only velocityY changes, following Fall; the one move is the vertical step with the new velocity |
| BasicPlayerController.UpdateFrame | Assets/PlayerMovement.cs:51-56 | look, then the horizontal move at MoveSpeed, then gravity and the vertical move with the new velocity; xRotation is Look's, so it ends within ±90 with a camera |
| BasicPlayerController.PitchStaysInRange | Assets/PlayerMovement.cs:65-66 | xRotation stays within ±90 across any sequence of events |
| BasicPlayerController.TwoMovesPerFrame | Assets/PlayerMovement.cs:51-56 | each frame requests exactly two moves, and callbacks request none |
| BasicPlayerController.OnlyJumpsSetVelocityBetweenFrames | Assets/PlayerMovement.cs:36-42 | between frames, the vertical velocity is either unchanged or the jump impulse |
| BasicPlayerController.AirborneHeight | Assets/PlayerMovement.cs:79-92 | over frames without ground contact, the requested moves climb by exactly Rise of the starting vertical velocity |
| BasicPlayerController.JumpApexBounded | Assets/PlayerMovement.cs:36-42 | after a grounded `performed` jump, the moves of any number of airborne frames climb by at most jumpHeight |
| BasicPlayerController.JumpVelocityScenario | Assets/PlayerMovement.cs:23-24 | with the defaults jumpHeight 2 and gravity −15, the impulse is √60, between 7.745 and 7.746 |
| BasicPlayerController.PlayerMovement.constructor | Assets/PlayerMovement.cs:7-12 | every field starts at its declared initial value |
| BasicPlayerController.PlayerMovement.OnMove | Assets/PlayerMovement.cs:33 | only inputVector changes, to the new value |
| BasicPlayerController.PlayerMovement.OnLook | Assets/PlayerMovement.cs:34 | only lookInput changes, to the new value |
| BasicPlayerController.PlayerMovement.OnJump | Assets/PlayerMovement.cs:36-42 | the fields change as Jump says |
| BasicPlayerController.PlayerMovement.OnSprint | Assets/PlayerMovement.cs:44-48 | the fields change as Sprint says |
| BasicPlayerController.PlayerMovement.Update | Assets/PlayerMovement.cs:51-56 | calls look, movement and gravity in that order; the fields and moves are those of UpdateFrame |
| BasicPlayerController.PlayerMovement.HandleLook | Assets/PlayerMovement.cs:58-70 | the fields change as Look says |
| BasicPlayerController.PlayerMovement.HandleMovement | Assets/PlayerMovement.cs:72-77 | changes nothing and returns the horizontal move at the selected speed |
| BasicPlayerController.PlayerMovement.ApplyGravity | Assets/PlayerMovement.cs:79-92 | the fields and the vertical move are those of Gravity |

## Left out

- Yaw: `transform.Rotate` about the up axis, and the quaternions written to `cameraTransform.localRotation`, are not modelled. All directions are in the player's local frame, so a dash direction is recorded in the frame of the moment it starts.
- Collision: `CharacterController.Move` geometry is not modelled. Each step returns the displacements it asks for, and `controller.isGrounded` comes in as parameters.
- Time: `Time.time` and `Time.deltaTime` are parameters. The model does not force the engine's schedule, in which the dash resumes only in frames after the one where `OnDash` started it, after `Update`. `Run` plays whatever order it is given. A dash resumption dated before the dash's start cannot occur in Unity, because `Time.time` never decreases, so `Run` leaves the state alone for one.
- Audio and cursor: the footstep `AudioSource`, the cursor lock and visibility, and the `Awake` wiring (`GetComponent`, `defaultYPos`) are left out.
- PlayerController.HeadBob: does not compute the camera's local height. `Mathf.Sin` and the ease back toward `defaultYPos` are returned as a `BobAction` (phase and amount, or Lerp rate) instead of being evaluated.
- Only `velocity.y` is modelled. The source never writes `velocity.x` or `velocity.z`, so they stay 0 and the vertical move is `(0, velocity.y·dt, 0)`.
- The NaN guard at Assets/PlayerMovement.cs:88-89 is left out. Exact reals have no NaN.
- Floating point in general is left out. Arithmetic is exact, and the `Vector3 == Vector3.zero` test on the dash direction (approximate in Unity) is exact equality here.
- `WellFormed` settings exclude a negative radicand `jumpHeight · −2 · gravity`. `Mathf.Sqrt` returns NaN for it in the source, and exact reals have no NaN.
- DashSpeedNonIncreasing: stated only for a non-negative dash speed. With a negative speed, the Lerp runs from a lower to a higher value, so the dash speed grows toward 0.2·dashSpeed.
- The initial `controller.height` comes from the component, not from this script. The model takes it as the standing height 2.
- `Assets/Scripts/JumpScare.cs` is not part of this model. It calls `DisableMovement` once, behind a `hasScared` latch. So are `Assets/Scripts/FlickeringLight.cs` (a random light-intensity coroutine) and `Assets/EnemyAI.cs` (a per-frame `SetDestination` call).
