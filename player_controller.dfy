/**
 * The first-person controller of Assets/Scripts/PlayerMovement.cs: walking,
 * sprinting and crouching, a grounded jump, a timed dash with a cooldown,
 * camera pitch, roll tilt and head-bob, and the one-way DisableMovement the
 * scare trigger calls.
 *
 * The controller's fields are gathered in `State`. Each input callback and each
 * part of the per-frame Update is a function from State to State; these are the
 * specification. `Run` plays a sequence of callbacks and frames, and the lemmas
 * about it state what holds across many frames. The class `PlayerMovement` at
 * the end keeps the same fields and updates them in place, and each of its
 * methods is proved to follow the corresponding function.
 *
 * The dash coroutine is an explicit record in State (isDashing, dashStartTime,
 * dashDirection, nextDashTime): OnDash runs its first loop iteration at once,
 * as StartCoroutine does, and the engine resumes it once per later frame,
 * after Update, for as long as isDashing holds.
 */
module PlayerController {
  import opened Numerics
  import opened Locomotion

  /**
   * The serialized tuning fields. `jumpVelocity` is the value of
   * Mathf.Sqrt(jumpHeight * -2 * gravity); `hasCamera` says whether
   * cameraTransform is assigned.
   */
  datatype Settings = Settings(
    walkSpeed: real, sprintSpeed: real, crouchSpeed: real,
    jumpHeight: real, gravity: real, jumpVelocity: real,
    hasCamera: bool, sensitivity: real,
    dashSpeed: real, dashDuration: real, dashCooldown: real,
    tiltAmount: real, tiltSpeed: real,
    walkingBobAmount: real, sprintingBobAmount: real, crouchingBobAmount: real,
    bobFrequency: real)

  /** Tuning under which the controller's arithmetic is defined: the jump impulse is a real square root. */
  predicate WellFormed(c: Settings) {
    IsJumpVelocity(c.jumpVelocity, c.jumpHeight, c.gravity)
  }

  /** Character-controller heights for standing and crouching. */
  const StandingHeight: real := 2.0
  const CrouchingHeight: real := 1.0

  /** Move input on either axis must exceed this for the head to bob. */
  const BobDeadzone: real := 0.1

  /** The dash decays to this fraction of its full speed over its duration. */
  const DashEndFraction: real := 0.2

  /** The controller's mutable fields, with the dash coroutine's locals (start time, direction) as a record. */
  datatype State = State(
    moveInput: Vec2, lookInput: Vec2,
    velocityY: real, verticalRotation: real,
    isSprinting: bool, isCrouching: bool, isMovementDisabled: bool,
    isDashing: bool, nextDashTime: real, dashStartTime: real, dashDirection: Vec2,
    timer: real, currentTilt: real, height: real)

  /** The state at spawn: every field at its declared initial value, standing height. */
  const Spawn: State := State(Zero2, Zero2, 0.0, 0.0, false, false, false, false, 0.0, 0.0, Zero2, 0.0, 0.0, StandingHeight)

  predicate PitchInRange(s: State) { -PitchLimit <= s.verticalRotation <= PitchLimit }

  /** A new state and the displacements requested from the character controller on the way, in order. */
  datatype Outcome = Outcome(state: State, moves: seq<Vec3>)

  /**
   * What HandleHeadBob writes into the camera's local height: nothing; the
   * base height plus sin(phase) * amount; or an ease back toward the base
   * height with Lerp factor `rate`.
   */
  datatype BobAction = Unchanged | Bobbing(phase: real, amount: real) | Settling(rate: real)

  /** The result of one Update: the new state, the requested moves, and the head-bob camera write. */
  datatype Frame = Frame(state: State, moves: seq<Vec3>, bob: BobAction)

  // ---------------------------------------------------------------------------
  // Input callbacks
  // ---------------------------------------------------------------------------

  /** DisableMovement: latch the disable flag and zero both inputs; nothing else changes. */
  function Disable(s: State): (r: State)
    ensures r.isMovementDisabled && r.moveInput == Zero2 && r.lookInput == Zero2
    ensures r.(isMovementDisabled := s.isMovementDisabled, moveInput := s.moveInput, lookInput := s.lookInput) == s
  {
    s.(isMovementDisabled := true, moveInput := Zero2, lookInput := Zero2)
  }

  /** Calling DisableMovement twice leaves the same state as calling it once. */
  lemma DisableIsIdempotent(s: State)
    ensures Disable(Disable(s)) == Disable(s)
  {
  }

  /** OnJump honours a `started` edge while grounded, unless movement is disabled or a dash is running. */
  predicate JumpAccepted(s: State, phase: InputPhase, grounded: bool): (accepted: bool)
    ensures accepted ==> phase == Started && grounded
    ensures s.isMovementDisabled || s.isDashing ==> !accepted
  {
    !s.isMovementDisabled && !s.isDashing && phase == Started && grounded
  }

  /** OnJump: an accepted jump sets the vertical velocity to the jump impulse and changes nothing else; any other call is a no-op. */
  function Jump(c: Settings, s: State, phase: InputPhase, grounded: bool): (r: State)
    requires WellFormed(c)
    ensures JumpAccepted(s, phase, grounded) ==>
      r == s.(velocityY := r.velocityY) && IsJumpVelocity(r.velocityY, c.jumpHeight, c.gravity)
    ensures !JumpAccepted(s, phase, grounded) ==> r == s
  {
    if s.isMovementDisabled || s.isDashing then s
    else if phase == Started && grounded then s.(velocityY := c.jumpVelocity)
    else s
  }

  /** OnSprint: the sprint flag follows the button value, whatever the phase, and nothing else changes. */
  function Sprint(s: State, pressed: bool): (r: State)
    ensures r.isSprinting == pressed
    ensures r.(isSprinting := s.isSprinting) == s
  {
    s.(isSprinting := pressed)
  }

  /** OnCrouch: `started` crouches to height 1, `canceled` stands up to height 2, any other phase changes nothing. */
  function Crouch(s: State, phase: InputPhase): (r: State)
    ensures phase == Started ==> r.isCrouching && r.height == CrouchingHeight
    ensures phase == Canceled ==> !r.isCrouching && r.height == StandingHeight
    ensures phase != Started && phase != Canceled ==> r == s
    ensures r.(isCrouching := s.isCrouching, height := s.height) == s
  {
    if phase == Started then s.(isCrouching := true, height := CrouchingHeight)
    else if phase == Canceled then s.(isCrouching := false, height := StandingHeight)
    else s
  }

  // ---------------------------------------------------------------------------
  // Dash
  // ---------------------------------------------------------------------------

  /** OnDash starts a dash only on a `started` edge, when not disabled, not already dashing, and not before the cooldown expires. */
  predicate DashAllowed(s: State, phase: InputPhase, now: real): (allowed: bool)
    ensures allowed ==> phase == Started && s.nextDashTime <= now
    ensures s.isMovementDisabled || s.isDashing ==> !allowed
  {
    !s.isMovementDisabled && phase == Started && !s.isDashing && now >= s.nextDashTime
  }

  /** The dash direction: the move input, or straight forward when there is none. It is never zero. */
  function DashDirection(move: Vec2): (d: Vec2)
    ensures d != Zero2
    ensures move != Zero2 ==> d == move
    ensures move == Zero2 ==> d == Forward
  {
    if move == Zero2 then Forward else move
  }

  /**
   * The dash speed `elapsed` seconds into the dash: Lerp from full dash speed
   * down to DashEndFraction of it over the dash duration. It stays between
   * 0.2 * dashSpeed and dashSpeed, is full at the start, and at its floor from
   * the end of the duration on.
   */
  function DashSpeed(c: Settings, elapsed: real): (speed: real)
    requires WellFormed(c) && c.dashDuration > 0.0
    ensures Between(speed, DashEndFraction * c.dashSpeed, c.dashSpeed)
    ensures elapsed <= 0.0 ==> speed == c.dashSpeed
    ensures elapsed >= c.dashDuration ==> speed == DashEndFraction * c.dashSpeed
  {
    FractionOfDuration(elapsed, c.dashDuration);
    Lerp(c.dashSpeed, c.dashSpeed * DashEndFraction, elapsed / c.dashDuration)
  }

  lemma FractionOfDuration(elapsed: real, duration: real)
    requires duration > 0.0
    ensures elapsed <= 0.0 ==> elapsed / duration <= 0.0
    ensures elapsed >= duration ==> elapsed / duration >= 1.0
  {
    if elapsed >= duration {
      QuotientMonotone(duration, elapsed, duration);
    } else if elapsed <= 0.0 {
      QuotientMonotone(elapsed, 0.0, duration);
    }
  }

  lemma QuotientMonotone(x: real, y: real, d: real)
    requires x <= y && d > 0.0
    ensures x / d <= y / d
  {
    assert y / d - x / d == (y - x) / d;
  }

  /** The dash never speeds up: later in the dash, the speed is no greater. */
  lemma {:induction false} DashSpeedNonIncreasing(c: Settings, e1: real, e2: real)
    requires WellFormed(c) && c.dashSpeed >= 0.0 && c.dashDuration > 0.0 && e1 <= e2
    ensures DashSpeed(c, e2) <= DashSpeed(c, e1)
  {
    QuotientMonotone(e1, e2, c.dashDuration);
    LerpNonIncreasing(c.dashSpeed, c.dashSpeed * DashEndFraction, e1 / c.dashDuration, e2 / c.dashDuration);
  }

  /**
   * One iteration of the dash coroutine's loop at time `now`: while the dash
   * duration has not run out, request one dash displacement along the frozen
   * direction and keep dashing; once `now` reaches start + duration, clear
   * isDashing and request nothing. No other field changes. The engine's clock
   * never runs backward, so `now` is not before the dash's start time; the
   * loop body therefore runs only when the dash duration is positive.
   */
  function DashTick(c: Settings, s: State, now: real, dt: real): (r: Outcome)
    requires WellFormed(c) && s.isDashing && s.dashStartTime <= now
    ensures r.state == s.(isDashing := now < s.dashStartTime + c.dashDuration)
    ensures r.state.isDashing ==> r.moves == [Planar(s.dashDirection, DashSpeed(c, now - s.dashStartTime), dt)]
    ensures !r.state.isDashing ==> r.moves == []
  {
    if now < s.dashStartTime + c.dashDuration then
      Outcome(s, [Planar(s.dashDirection, DashSpeed(c, now - s.dashStartTime), dt)])
    else
      Outcome(s.(isDashing := false), [])
  }

  /**
   * OnDash: when allowed, start the coroutine (isDashing, cooldown until now +
   * dashCooldown, start time, frozen direction) and run its first iteration.
   * With a positive dash duration that iteration moves at full dash speed and
   * the dash goes on; with a duration of zero or less the loop test fails at
   * once, so the dash ends in the same call with no move, but the cooldown
   * is still set. When not allowed, nothing happens.
   */
  function StartDash(c: Settings, s: State, phase: InputPhase, now: real, dt: real): (r: Outcome)
    requires WellFormed(c)
    ensures !DashAllowed(s, phase, now) ==> r == Outcome(s, [])
    ensures DashAllowed(s, phase, now) ==>
      r.state == s.(isDashing := c.dashDuration > 0.0, nextDashTime := now + c.dashCooldown,
                    dashStartTime := now, dashDirection := DashDirection(s.moveInput))
    ensures DashAllowed(s, phase, now) && c.dashDuration > 0.0 ==>
      r.moves == [Planar(DashDirection(s.moveInput), c.dashSpeed, dt)]
    ensures DashAllowed(s, phase, now) && c.dashDuration <= 0.0 ==> r.moves == []
  {
    if !DashAllowed(s, phase, now) then Outcome(s, [])
    else
      DashTick(c, s.(isDashing := true, nextDashTime := now + c.dashCooldown,
                     dashStartTime := now, dashDirection := DashDirection(s.moveInput)), now, dt)
  }

  // ---------------------------------------------------------------------------
  // The parts of Update
  // ---------------------------------------------------------------------------

  /** HandleRotation (pitch only): with a camera, lower the pitch by lookInput.y * sensitivity and clamp it to plus or minus 90 degrees. */
  function Rotate(c: Settings, s: State): (r: State)
    ensures r == s.(verticalRotation := r.verticalRotation)
    ensures c.hasCamera ==> PitchInRange(r)
    ensures c.hasCamera && -PitchLimit <= s.verticalRotation - s.lookInput.y * c.sensitivity <= PitchLimit ==>
      r.verticalRotation == s.verticalRotation - s.lookInput.y * c.sensitivity
    ensures c.hasCamera && s.verticalRotation - s.lookInput.y * c.sensitivity < -PitchLimit ==>
      r.verticalRotation == -PitchLimit
    ensures c.hasCamera && s.verticalRotation - s.lookInput.y * c.sensitivity > PitchLimit ==>
      r.verticalRotation == PitchLimit
    ensures !c.hasCamera ==> r == s
  {
    if !c.hasCamera then s
    else s.(verticalRotation := Pitch(s.verticalRotation, s.lookInput.y * c.sensitivity))
  }

  /** The movement speed: crouching beats sprinting, which beats walking. */
  function MoveSpeed(c: Settings, s: State): (speed: real)
    ensures s.isCrouching ==> speed == c.crouchSpeed
    ensures !s.isCrouching && s.isSprinting ==> speed == c.sprintSpeed
    ensures !s.isCrouching && !s.isSprinting ==> speed == c.walkSpeed
  {
    if s.isCrouching then c.crouchSpeed else if s.isSprinting then c.sprintSpeed else c.walkSpeed
  }

  /**
   * HandleMovement: snap-then-gravity on the vertical velocity, then two
   * requested moves: the horizontal one at the selected speed, and the
   * vertical one with the new vertical velocity. Only velocityY changes.
   */
  function Movement(c: Settings, s: State, grounded: bool, dt: real): (r: Outcome)
    ensures r.state == s.(velocityY := Fall(s.velocityY, grounded, c.gravity, dt))
    ensures r.moves == [Planar(s.moveInput, MoveSpeed(c, s), dt), Vertical(r.state.velocityY, dt)]
  {
    var velocityY := Fall(s.velocityY, grounded, c.gravity, dt);
    Outcome(s.(velocityY := velocityY), [Planar(s.moveInput, MoveSpeed(c, s), dt), Vertical(velocityY, dt)])
  }

  /** The head-bob amplitude: the crouching amount beats the sprinting amount, which beats the walking amount. */
  function BobAmount(c: Settings, s: State): (amount: real)
    ensures s.isCrouching ==> amount == c.crouchingBobAmount
    ensures !s.isCrouching && s.isSprinting ==> amount == c.sprintingBobAmount
    ensures !s.isCrouching && !s.isSprinting ==> amount == c.walkingBobAmount
  {
    if s.isCrouching then c.crouchingBobAmount else if s.isSprinting then c.sprintingBobAmount else c.walkingBobAmount
  }

  /** The head bobs only while either move axis exceeds the deadzone. */
  predicate IsMoving(move: Vec2): (moving: bool)
    ensures moving <==> !(-BobDeadzone <= move.x <= BobDeadzone && -BobDeadzone <= move.y <= BobDeadzone)
    ensures move == Zero2 ==> !moving
  {
    Abs(move.x) > BobDeadzone || Abs(move.y) > BobDeadzone
  }

  /**
   * HandleHeadBob: without a camera or off the ground, nothing. Moving: the
   * bob timer advances by dt * bobFrequency and the camera bobs with the
   * selected amount at that phase. Standing still: the timer resets to 0 and
   * the camera eases back toward its base height. Only the timer changes.
   */
  function HeadBob(c: Settings, s: State, grounded: bool, dt: real): (r: (State, BobAction))
    ensures r.0 == s.(timer := r.0.timer)
    ensures !c.hasCamera || !grounded ==> r == (s, Unchanged)
    ensures c.hasCamera && grounded && IsMoving(s.moveInput) ==>
      r.0.timer == s.timer + dt * c.bobFrequency && r.1 == Bobbing(r.0.timer, BobAmount(c, s))
    ensures c.hasCamera && grounded && !IsMoving(s.moveInput) ==>
      r.0.timer == 0.0 && r.1 == Settling(dt * c.bobFrequency)
  {
    if !c.hasCamera || !grounded then (s, Unchanged)
    else if IsMoving(s.moveInput) then
      var timer := s.timer + dt * c.bobFrequency;
      (s.(timer := timer), Bobbing(timer, BobAmount(c, s)))
    else
      (s.(timer := 0.0), Settling(dt * c.bobFrequency))
  }

  /**
   * The roll HandleTilt aims for: -moveInput.x * tiltAmount, so steering right
   * leans left. With sideways input within [-1, 1] it stays within plus or
   * minus the tilt amount.
   */
  function TiltTarget(c: Settings, move: Vec2): (target: real)
    ensures c.tiltAmount >= 0.0 && Abs(move.x) <= 1.0 ==> -c.tiltAmount <= target <= c.tiltAmount
    ensures move.x == 0.0 ==> target == 0.0
  {
    TiltTargetBounded(move.x, c.tiltAmount);
    -move.x * c.tiltAmount
  }

  /** The tilt target -x * a lies within plus or minus a when x lies within [-1, 1]. */
  lemma TiltTargetBounded(x: real, a: real)
    ensures a >= 0.0 && Abs(x) <= 1.0 ==> -a <= -x * a <= a
  {
    if a >= 0.0 && Abs(x) <= 1.0 {
      if x >= 0.0 {
        ProductNonNegative(x, a);
        ProductNonNegative(1.0 - x, a);
        assert (1.0 - x) * a == a - x * a;
      } else {
        ProductNonNegative(-x, a);
        ProductNonNegative(1.0 + x, a);
        assert (1.0 + x) * a == a + x * a;
      }
    }
  }

  /**
   * HandleTilt: with a camera, the roll eases toward TiltTarget by Lerp with
   * factor dt * tiltSpeed, so it ends between its old value and that target.
   * Only currentTilt changes.
   */
  function Tilt(c: Settings, s: State, dt: real): (r: State)
    ensures r == s.(currentTilt := r.currentTilt)
    ensures c.hasCamera ==> Between(r.currentTilt, s.currentTilt, TiltTarget(c, s.moveInput))
    ensures !c.hasCamera ==> r == s
  {
    if !c.hasCamera then s
    else s.(currentTilt := Lerp(s.currentTilt, TiltTarget(c, s.moveInput), dt * c.tiltSpeed))
  }

  /** The roll stays within the tilt amount, provided it starts there and the sideways input is within [-1, 1]. */
  predicate TiltBounded(c: Settings, s: State) {
    Abs(s.moveInput.x) <= 1.0 && Abs(s.currentTilt) <= c.tiltAmount
  }

  lemma {:induction false} TiltStaysBounded(c: Settings, s: State, dt: real)
    requires c.tiltAmount >= 0.0 && TiltBounded(c, s)
    ensures TiltBounded(c, Tilt(c, s, dt))
  {
    if c.hasCamera {
      LerpWithin(s.currentTilt, TiltTarget(c, s.moveInput), dt * c.tiltSpeed, c.tiltAmount);
    }
  }

  /**
   * Update. Disabled: nothing at all (the footsteps stop). Otherwise pitch
   * first; then, unless dashing, movement with gravity and head-bob; then
   * tilt. While dashing there are no moves and the vertical velocity is not
   * integrated. Update never touches the flags or the dash record.
   */
  function UpdateFrame(c: Settings, s: State, grounded: bool, groundedAfterMove: bool, dt: real): (r: Frame)
    ensures s.isMovementDisabled ==> r == Frame(s, [], Unchanged)
    ensures !s.isMovementDisabled && s.isDashing ==>
      r.moves == [] && r.bob == Unchanged && r.state.velocityY == s.velocityY && r.state.timer == s.timer
    ensures !s.isMovementDisabled && !s.isDashing ==>
      r.state.velocityY == Fall(s.velocityY, grounded, c.gravity, dt)
      && r.moves == [Planar(s.moveInput, MoveSpeed(c, s), dt), Vertical(r.state.velocityY, dt)]
    ensures !s.isMovementDisabled ==>
      r.state.verticalRotation == Rotate(c, s).verticalRotation && r.state.currentTilt == Tilt(c, s, dt).currentTilt
    ensures !s.isMovementDisabled && !s.isDashing ==>
      r.state.timer == HeadBob(c, s, groundedAfterMove, dt).0.timer && r.bob == HeadBob(c, s, groundedAfterMove, dt).1
    ensures !s.isMovementDisabled && c.hasCamera ==> PitchInRange(r.state)
    ensures PitchInRange(s) ==> PitchInRange(r.state)
    ensures r.state.moveInput == s.moveInput && r.state.lookInput == s.lookInput
    ensures r.state.isMovementDisabled == s.isMovementDisabled && r.state.isDashing == s.isDashing
    ensures r.state.isSprinting == s.isSprinting && r.state.isCrouching == s.isCrouching && r.state.height == s.height
    ensures r.state.nextDashTime == s.nextDashTime && r.state.dashStartTime == s.dashStartTime
    ensures r.state.dashDirection == s.dashDirection
  {
    if s.isMovementDisabled then Frame(s, [], Unchanged)
    else
      var rotated := Rotate(c, s);
      if rotated.isDashing then Frame(Tilt(c, rotated, dt), [], Unchanged)
      else
        var moved := Movement(c, rotated, grounded, dt);
        var (bobbed, bob) := HeadBob(c, moved.state, groundedAfterMove, dt);
        Frame(Tilt(c, bobbed, dt), moved.moves, bob)
  }

  // ---------------------------------------------------------------------------
  // Sequences of callbacks and frames
  // ---------------------------------------------------------------------------

  /**
   * One thing that can happen to the controller: an input callback, a frame's
   * Update, the engine resuming the dash coroutine after Update, or the scare
   * trigger calling DisableMovement. `grounded` values are the character
   * controller's answers; `now` and `dt` are Time.time and Time.deltaTime.
   */
  datatype Event =
    | MoveEvent(move: Vec2)
    | LookEvent(look: Vec2)
    | JumpEvent(phase: InputPhase, grounded: bool)
    | SprintEvent(pressed: bool)
    | CrouchEvent(phase: InputPhase)
    | DashEvent(phase: InputPhase, now: real, dt: real)
    | UpdateEvent(grounded: bool, groundedAfterMove: bool, dt: real)
    | DashResumeEvent(now: real, dt: real)
    | DisableEvent

  function Apply(c: Settings, s: State, e: Event): (r: Outcome)
    requires WellFormed(c)
  {
    match e
    case MoveEvent(move) => Outcome(s.(moveInput := move), [])
    case LookEvent(look) => Outcome(s.(lookInput := look), [])
    case JumpEvent(phase, grounded) => Outcome(Jump(c, s, phase, grounded), [])
    case SprintEvent(pressed) => Outcome(Sprint(s, pressed), [])
    case CrouchEvent(phase) => Outcome(Crouch(s, phase), [])
    case DashEvent(phase, now, dt) => StartDash(c, s, phase, now, dt)
    case UpdateEvent(grounded, groundedAfterMove, dt) =>
      var f := UpdateFrame(c, s, grounded, groundedAfterMove, dt);
      Outcome(f.state, f.moves)
    case DashResumeEvent(now, dt) =>
      // The coroutine is resumed only while alive, and never at a time before it started.
      if s.isDashing && s.dashStartTime <= now then DashTick(c, s, now, dt) else Outcome(s, [])
    case DisableEvent => Outcome(Disable(s), [])
  }

  /** Play the events in order; the result holds the final state and every requested move, in order. */
  function Run(c: Settings, s: State, events: seq<Event>): (r: Outcome)
    requires WellFormed(c)
    decreases |events|
  {
    if events == [] then Outcome(s, [])
    else
      var first := Apply(c, s, events[0]);
      var rest := Run(c, first.state, events[1..]);
      Outcome(rest.state, first.moves + rest.moves)
  }

  /** No callback and no frame clears the disable flag: DisableMovement cannot be undone. */
  lemma {:induction false} DisableIsPermanent(c: Settings, s: State, events: seq<Event>)
    requires WellFormed(c) && s.isMovementDisabled
    ensures Run(c, s, events).state.isMovementDisabled
    decreases |events|
  {
    if events != [] {
      DisableIsPermanent(c, Apply(c, s, events[0]).state, events[1..]);
    }
  }

  /**
   * Once disabled with no dash running, whatever input keeps arriving, the
   * controller requests no move, starts no dash, and leaves vertical velocity,
   * pitch, tilt and bob timer as they were.
   */
  predicate FrozenLike(s: State, r: State) {
    r.isMovementDisabled && !r.isDashing && r.velocityY == s.velocityY
    && r.verticalRotation == s.verticalRotation && r.currentTilt == s.currentTilt && r.timer == s.timer
  }

  lemma {:induction false} FrozenOnceDisabled(c: Settings, s: State, events: seq<Event>)
    requires WellFormed(c) && s.isMovementDisabled && !s.isDashing
    ensures Run(c, s, events).moves == []
    ensures FrozenLike(s, Run(c, s, events).state)
    decreases |events|
  {
    if events != [] {
      var first := Apply(c, s, events[0]);
      assert first.moves == [] && FrozenLike(s, first.state);
      FrozenOnceDisabled(c, first.state, events[1..]);
    }
  }

  /**
   * DisableMovement does not stop a dash already under way: the coroutine
   * keeps requesting dash moves until its duration runs out.
   */
  lemma DisableDoesNotStopDash(c: Settings, s: State, now: real, dt: real)
    requires WellFormed(c) && c.dashSpeed > 0.0 && dt > 0.0
    requires s.isDashing && s.dashDirection != Zero2 && s.dashStartTime <= now < s.dashStartTime + c.dashDuration
    ensures var r := Run(c, Disable(s), [DashResumeEvent(now, dt)]);
      |r.moves| == 1 && r.moves[0] != Vec3(0.0, 0.0, 0.0) && r.state.isMovementDisabled
  {
    var speed := DashSpeed(c, now - s.dashStartTime);
    assert speed >= DashEndFraction * c.dashSpeed > 0.0;
    var d := s.dashDirection;
    var m := Planar(d, speed, dt);
    assert Run(c, Disable(s), [DashResumeEvent(now, dt)]).moves == [m];
    if d.x != 0.0 {
      ProductNonZero(d.x, speed, dt);
    } else {
      ProductNonZero(d.y, speed, dt);
    }
  }

  lemma ProductNonZero(x: real, speed: real, dt: real)
    requires x != 0.0 && speed > 0.0 && dt > 0.0
    ensures x * speed * dt != 0.0
  {
    ProductPositive(speed, dt);
    if x > 0.0 {
      ProductPositive(x, speed * dt);
    } else {
      ProductPositive(-x, speed * dt);
    }
    assert x * speed * dt == x * (speed * dt);
  }

  lemma ProductPositive(x: real, y: real)
    requires x > 0.0 && y > 0.0
    ensures x * y > 0.0
  {
    assert x * y > 0.0 * y;
  }

  /** Everything OnDash alone may change: a callback or frame that starts no dash keeps the cooldown and the dash record, and never sets isDashing. */
  predicate KeepsDashRecord(s: State, r: State) {
    r.nextDashTime == s.nextDashTime && r.dashStartTime == s.dashStartTime
    && r.dashDirection == s.dashDirection && (r.isDashing ==> s.isDashing)
  }

  /** A single event that is not a dash request past the cooldown keeps the dash record. */
  lemma ApplyKeepsDashRecord(c: Settings, s: State, e: Event)
    requires WellFormed(c)
    requires e.DashEvent? ==> e.now < s.nextDashTime
    ensures KeepsDashRecord(s, Apply(c, s, e).state)
  {
    match e
    case DashEvent(phase, now, dt) =>
      assert !DashAllowed(s, phase, now);
    case UpdateEvent(grounded, groundedAfterMove, dt) =>
      var f := UpdateFrame(c, s, grounded, groundedAfterMove, dt);
    case _ =>
  }

  /** Before the cooldown expires, no dash request starts a dash, whatever else happens meanwhile. */
  lemma {:induction false} NoDashBeforeCooldown(c: Settings, s: State, events: seq<Event>)
    requires WellFormed(c)
    requires forall i :: 0 <= i < |events| && events[i].DashEvent? ==> events[i].now < s.nextDashTime
    ensures KeepsDashRecord(s, Run(c, s, events).state)
    decreases |events|
  {
    if events != [] {
      var first := Apply(c, s, events[0]);
      ApplyKeepsDashRecord(c, s, events[0]);
      NoDashBeforeCooldown(c, first.state, events[1..]);
    }
  }

  /** After a dash starts at time `now`, a second one cannot start before now + dashCooldown. */
  lemma SecondDashWaitsForCooldown(c: Settings, s: State, now: real, dt: real, events: seq<Event>)
    requires WellFormed(c) && DashAllowed(s, Started, now)
    requires forall i :: 0 <= i < |events| && events[i].DashEvent? ==> events[i].now < now + c.dashCooldown
    ensures var r := Run(c, StartDash(c, s, Started, now, dt).state, events).state;
      r.dashStartTime == now && r.nextDashTime == now + c.dashCooldown
  {
    NoDashBeforeCooldown(c, StartDash(c, s, Started, now, dt).state, events);
  }

  /** The pitch never leaves plus or minus 90 degrees. */
  lemma {:induction false} PitchStaysInRange(c: Settings, s: State, events: seq<Event>)
    requires WellFormed(c) && PitchInRange(s)
    ensures PitchInRange(Run(c, s, events).state)
    decreases |events|
  {
    if events != [] {
      PitchStaysInRange(c, Apply(c, s, events[0]).state, events[1..]);
    }
  }

  /** Frames of lengths `dts` during which the character controller reports no ground contact, before and after the moves. */
  function AirborneFrames(dts: seq<real>): (events: seq<Event>)
    ensures |events| == |dts|
    ensures forall i :: 0 <= i < |dts| ==> events[i] == UpdateEvent(false, false, dts[i])
    decreases |dts|
  {
    if dts == [] then [] else [UpdateEvent(false, false, dts[0])] + AirborneFrames(dts[1..])
  }

  /** Over airborne frames with movement enabled and no dash, the requested moves climb by exactly the Rise of the starting vertical velocity. */
  lemma {:induction false} AirborneHeight(c: Settings, s: State, dts: seq<real>)
    requires WellFormed(c) && !s.isMovementDisabled && !s.isDashing
    ensures Height(Run(c, s, AirborneFrames(dts)).moves) == Rise(s.velocityY, c.gravity, dts)
    decreases |dts|
  {
    if dts != [] {
      var events := AirborneFrames(dts);
      assert events[1..] == AirborneFrames(dts[1..]);
      var first := UpdateFrame(c, s, false, false, dts[0]);
      AirborneHeight(c, first.state, dts[1..]);
      HeightOfStep(first.moves[0], first.moves[1]);
      HeightOfConcat(first.moves, Run(c, first.state, events[1..]).moves);
    }
  }

  /** After an accepted jump, no number of airborne frames, of any lengths, carries the player above jumpHeight. */
  lemma JumpApexBounded(c: Settings, s: State, dts: seq<real>)
    requires WellFormed(c) && c.gravity < 0.0 && JumpAccepted(s, Started, true)
    ensures Height(Run(c, s, [JumpEvent(Started, true)] + AirborneFrames(dts)).moves) <= c.jumpHeight
  {
    var events := [JumpEvent(Started, true)] + AirborneFrames(dts);
    var jumped := Jump(c, s, Started, true);
    assert events[0] == JumpEvent(Started, true) && events[1..] == AirborneFrames(dts);
    AirborneHeight(c, jumped, dts);
    assert Run(c, s, events).moves == [] + Run(c, jumped, events[1..]).moves;
    assert [] + Run(c, jumped, events[1..]).moves == Run(c, jumped, events[1..]).moves;
    JumpStaysBelowJumpHeight(jumped.velocityY, c.jumpHeight, c.gravity, dts);
  }

  /** With sideways input always within [-1, 1], the roll tilt never exceeds the tilt amount. */
  lemma {:induction false} TiltStaysWithinAmount(c: Settings, s: State, events: seq<Event>)
    requires WellFormed(c) && c.tiltAmount >= 0.0 && TiltBounded(c, s)
    requires forall i :: 0 <= i < |events| && events[i].MoveEvent? ==> Abs(events[i].move.x) <= 1.0
    ensures TiltBounded(c, Run(c, s, events).state)
    decreases |events|
  {
    if events != [] {
      var e := events[0];
      if e.UpdateEvent? && !s.isMovementDisabled {
        var rotated := Rotate(c, s);
        if rotated.isDashing {
          TiltStaysBounded(c, rotated, e.dt);
        } else {
          var moved := Movement(c, rotated, e.grounded, e.dt);
          var (bobbed, bob) := HeadBob(c, moved.state, e.groundedAfterMove, e.dt);
          TiltStaysBounded(c, bobbed, e.dt);
        }
      }
      TiltStaysWithinAmount(c, Apply(c, s, e).state, events[1..]);
    }
  }

  // ---------------------------------------------------------------------------
  // The controller object
  // ---------------------------------------------------------------------------

  /** The MonoBehaviour: its fields, updated in place by the callbacks and by Update. */
  class PlayerMovement {
    const settings: Settings
    var moveInput: Vec2
    var lookInput: Vec2
    var velocityY: real
    var verticalRotation: real
    var isSprinting: bool
    var isCrouching: bool
    var isMovementDisabled: bool
    var isDashing: bool
    var nextDashTime: real
    var dashStartTime: real
    var dashDirection: Vec2
    var timer: real
    var currentTilt: real
    var height: real

    /** The fields as a State value. */
    function Snapshot(): State
      reads this
    {
      State(moveInput, lookInput, velocityY, verticalRotation, isSprinting, isCrouching, isMovementDisabled,
            isDashing, nextDashTime, dashStartTime, dashDirection, timer, currentTilt, height)
    }

    ghost predicate Valid()
      reads this
    {
      WellFormed(settings) && PitchInRange(Snapshot())
    }

    constructor (settings: Settings)
      requires WellFormed(settings)
      ensures Valid() && this.settings == settings && Snapshot() == Spawn
    {
      this.settings := settings;
      moveInput, lookInput := Zero2, Zero2;
      velocityY, verticalRotation := 0.0, 0.0;
      isSprinting, isCrouching, isMovementDisabled, isDashing := false, false, false, false;
      nextDashTime, dashStartTime, dashDirection := 0.0, 0.0, Zero2;
      timer, currentTilt, height := 0.0, 0.0, StandingHeight;
    }

    method OnMove(move: Vec2)
      requires Valid()
      modifies this
      ensures Valid() && Snapshot() == old(Snapshot()).(moveInput := move)
    {
      moveInput := move;
    }

    method OnLook(look: Vec2)
      requires Valid()
      modifies this
      ensures Valid() && Snapshot() == old(Snapshot()).(lookInput := look)
    {
      lookInput := look;
    }

    method OnJump(phase: InputPhase, grounded: bool)
      requires Valid()
      modifies this
      ensures Valid() && Snapshot() == Jump(settings, old(Snapshot()), phase, grounded)
    {
      if isMovementDisabled || isDashing {
        return;
      }
      if phase == Started && grounded {
        velocityY := settings.jumpVelocity;
      }
    }

    method OnSprint(pressed: bool)
      requires Valid()
      modifies this
      ensures Valid() && Snapshot() == Sprint(old(Snapshot()), pressed)
    {
      isSprinting := pressed;
    }

    method OnCrouch(phase: InputPhase)
      requires Valid()
      modifies this
      ensures Valid() && Snapshot() == Crouch(old(Snapshot()), phase)
    {
      if phase == Started {
        isCrouching := true;
        height := CrouchingHeight;
      } else if phase == Canceled {
        isCrouching := false;
        height := StandingHeight;
      }
    }

    method OnDash(phase: InputPhase, now: real, dt: real) returns (moves: seq<Vec3>)
      requires Valid()
      modifies this
      ensures Valid()
      ensures Snapshot() == StartDash(settings, old(Snapshot()), phase, now, dt).state
      ensures moves == StartDash(settings, old(Snapshot()), phase, now, dt).moves
    {
      if isMovementDisabled || phase != Started || isDashing || now < nextDashTime {
        return [];
      }
      isDashing := true;
      nextDashTime := now + settings.dashCooldown;
      dashStartTime := now;
      dashDirection := DashDirection(moveInput);
      moves := ResumeDash(now, dt);
    }

    /** One resumption of the dash coroutine: one loop test and, while the dash lasts, one dash move. */
    method ResumeDash(now: real, dt: real) returns (moves: seq<Vec3>)
      requires Valid() && isDashing && dashStartTime <= now
      modifies this
      ensures Valid()
      ensures Snapshot() == DashTick(settings, old(Snapshot()), now, dt).state
      ensures moves == DashTick(settings, old(Snapshot()), now, dt).moves
    {
      if now < dashStartTime + settings.dashDuration {
        var lerpVal := (now - dashStartTime) / settings.dashDuration;
        var currentDashSpeed := Lerp(settings.dashSpeed, settings.dashSpeed * DashEndFraction, lerpVal);
        moves := [Planar(dashDirection, currentDashSpeed, dt)];
      } else {
        isDashing := false;
        moves := [];
      }
    }

    method Update(grounded: bool, groundedAfterMove: bool, dt: real) returns (moves: seq<Vec3>, bob: BobAction)
      requires Valid()
      modifies this
      ensures Valid()
      ensures Frame(Snapshot(), moves, bob) == UpdateFrame(settings, old(Snapshot()), grounded, groundedAfterMove, dt)
    {
      moves, bob := [], Unchanged;
      if isMovementDisabled {
        return;
      }
      HandleRotation();
      if !isDashing {
        moves := HandleMovement(grounded, dt);
        bob := HandleHeadBob(groundedAfterMove, dt);
      }
      HandleTilt(dt);
    }

    method HandleMovement(grounded: bool, dt: real) returns (moves: seq<Vec3>)
      requires Valid()
      modifies this
      ensures Valid()
      ensures Snapshot() == Movement(settings, old(Snapshot()), grounded, dt).state
      ensures moves == Movement(settings, old(Snapshot()), grounded, dt).moves
    {
      if grounded && velocityY < 0.0 {
        velocityY := StickVelocity;
      }
      var currentSpeed := if isCrouching then settings.crouchSpeed
                          else if isSprinting then settings.sprintSpeed
                          else settings.walkSpeed;
      var step := Planar(moveInput, currentSpeed, dt);
      velocityY := velocityY + settings.gravity * dt;
      moves := [step, Vertical(velocityY, dt)];
    }

    method HandleRotation()
      requires Valid()
      modifies this
      ensures Valid() && Snapshot() == Rotate(settings, old(Snapshot()))
    {
      if !settings.hasCamera {
        return;
      }
      verticalRotation := verticalRotation - lookInput.y * settings.sensitivity;
      verticalRotation := Clamp(verticalRotation, -PitchLimit, PitchLimit);
    }

    method HandleHeadBob(grounded: bool, dt: real) returns (bob: BobAction)
      requires Valid()
      modifies this
      ensures Valid()
      ensures Snapshot() == HeadBob(settings, old(Snapshot()), grounded, dt).0
      ensures bob == HeadBob(settings, old(Snapshot()), grounded, dt).1
    {
      if !settings.hasCamera || !grounded {
        return Unchanged;
      }
      if Abs(moveInput.x) > BobDeadzone || Abs(moveInput.y) > BobDeadzone {
        var currentBobAmount := settings.walkingBobAmount;
        if isCrouching {
          currentBobAmount := settings.crouchingBobAmount;
        } else if isSprinting {
          currentBobAmount := settings.sprintingBobAmount;
        }
        timer := timer + dt * settings.bobFrequency;
        bob := Bobbing(timer, currentBobAmount);
      } else {
        timer := 0.0;
        bob := Settling(dt * settings.bobFrequency);
      }
    }

    method HandleTilt(dt: real)
      requires Valid()
      modifies this
      ensures Valid() && Snapshot() == Tilt(settings, old(Snapshot()), dt)
    {
      if !settings.hasCamera {
        return;
      }
      var targetTilt := TiltTarget(settings, moveInput);
      currentTilt := Lerp(currentTilt, targetTilt, dt * settings.tiltSpeed);
    }

    method DisableMovement()
      requires Valid()
      modifies this
      ensures Valid() && Snapshot() == Disable(old(Snapshot()))
    {
      isMovementDisabled := true;
      moveInput := Zero2;
      lookInput := Zero2;
    }
  }
}
