/**
 * The simpler first-person controller of Assets/PlayerMovement.cs: walking and
 * sprinting, a grounded jump on the `performed` edge, camera pitch, and gravity
 * with ground snapping. Each frame's Update runs look, then horizontal
 * movement, then gravity.
 *
 * As in PlayerController, the fields are gathered in `State`, the callbacks
 * and the parts of Update are functions on it, and the class `PlayerMovement`
 * updates the same fields in place and is proved to follow those functions.
 */
module BasicPlayerController {
  import opened Numerics
  import opened Locomotion

  /**
   * The serialized tuning fields. `jumpVelocity` is the value of
   * Mathf.Sqrt(jumpHeight * -2 * gravity); `hasCamera` says whether
   * cameraTransform is assigned.
   */
  datatype Settings = Settings(
    walkSpeed: real, sprintSpeed: real, mouseSensitivity: real, hasCamera: bool,
    jumpHeight: real, gravity: real, jumpVelocity: real)

  predicate WellFormed(c: Settings) {
    IsJumpVelocity(c.jumpVelocity, c.jumpHeight, c.gravity)
  }

  /** The controller's mutable fields. */
  datatype State = State(inputVector: Vec2, lookInput: Vec2, velocityY: real, isSprinting: bool, xRotation: real)

  const Spawn: State := State(Zero2, Zero2, 0.0, false, 0.0)

  predicate PitchInRange(s: State) { -PitchLimit <= s.xRotation <= PitchLimit }

  /** A new state and the displacements requested from the character controller on the way, in order. */
  datatype Outcome = Outcome(state: State, moves: seq<Vec3>)

  /** OnJump: only a `performed` edge while grounded jumps, setting the vertical velocity to the jump impulse; anything else is a no-op. */
  function Jump(c: Settings, s: State, phase: InputPhase, grounded: bool): (r: State)
    requires WellFormed(c)
    ensures phase == Performed && grounded ==>
      r == s.(velocityY := r.velocityY) && IsJumpVelocity(r.velocityY, c.jumpHeight, c.gravity)
    ensures !(phase == Performed && grounded) ==> r == s
  {
    if phase == Performed && grounded then s.(velocityY := c.jumpVelocity) else s
  }

  /** OnSprint: `started` or `performed` turns sprinting on, `canceled` turns it off, any other phase changes nothing. */
  function Sprint(s: State, phase: InputPhase): (r: State)
    ensures phase == Started || phase == Performed ==> r == s.(isSprinting := true)
    ensures phase == Canceled ==> r == s.(isSprinting := false)
    ensures phase !in {Started, Performed, Canceled} ==> r == s
  {
    if phase == Started || phase == Performed then s.(isSprinting := true)
    else if phase == Canceled then s.(isSprinting := false)
    else s
  }

  /**
   * HandleLook (pitch only): with a camera, lower the pitch by
   * lookInput.y * mouseSensitivity * dt and clamp it to plus or minus 90
   * degrees, whatever the look input. Only xRotation changes.
   */
  function Look(c: Settings, s: State, dt: real): (r: State)
    ensures r == s.(xRotation := r.xRotation)
    ensures c.hasCamera ==> PitchInRange(r)
    ensures PitchInRange(s) ==> PitchInRange(r)
    ensures c.hasCamera && -PitchLimit <= s.xRotation - s.lookInput.y * c.mouseSensitivity * dt <= PitchLimit ==>
      r.xRotation == s.xRotation - s.lookInput.y * c.mouseSensitivity * dt
    ensures c.hasCamera && s.xRotation - s.lookInput.y * c.mouseSensitivity * dt < -PitchLimit ==>
      r.xRotation == -PitchLimit
    ensures c.hasCamera && s.xRotation - s.lookInput.y * c.mouseSensitivity * dt > PitchLimit ==>
      r.xRotation == PitchLimit
    ensures !c.hasCamera ==> r == s
  {
    if !c.hasCamera then s
    else s.(xRotation := Pitch(s.xRotation, s.lookInput.y * c.mouseSensitivity * dt))
  }

  /** The movement speed: sprinting beats walking. */
  function MoveSpeed(c: Settings, s: State): (speed: real)
    ensures s.isSprinting ==> speed == c.sprintSpeed
    ensures !s.isSprinting ==> speed == c.walkSpeed
  {
    if s.isSprinting then c.sprintSpeed else c.walkSpeed
  }

  /** HandleMovement: the one horizontal move, along the input at the selected speed; it never leaves the ground plane. */
  function Walk(c: Settings, s: State, dt: real): (step: Vec3)
    ensures step.y == 0.0
    ensures s.inputVector == Zero2 ==> step == Vec3(0.0, 0.0, 0.0)
  {
    Planar(s.inputVector, MoveSpeed(c, s), dt)
  }

  /** Walking forward at the default walk speed of 5 for one second moves 5 units along forward and nothing sideways or up. */
  lemma ForwardWalkScenario(c: Settings, s: State)
    requires c.walkSpeed == 5.0 && s.inputVector == Forward && !s.isSprinting
    ensures Walk(c, s, 1.0) == Vec3(0.0, 0.0, 5.0)
  {
  }

  /**
   * ApplyGravity: snap-then-gravity on the vertical velocity, then one
   * vertical move with the new vertical velocity. Only velocityY changes.
   */
  function Gravity(c: Settings, s: State, grounded: bool, dt: real): (r: Outcome)
    ensures r.state == s.(velocityY := Fall(s.velocityY, grounded, c.gravity, dt))
    ensures r.moves == [Vertical(r.state.velocityY, dt)]
  {
    var velocityY := Fall(s.velocityY, grounded, c.gravity, dt);
    Outcome(s.(velocityY := velocityY), [Vertical(velocityY, dt)])
  }

  /**
   * Update: look, then the horizontal move, then gravity and the vertical move,
   * in that order. `grounded` is the character controller's answer after the
   * horizontal move, which is what ApplyGravity reads.
   */
  function UpdateFrame(c: Settings, s: State, grounded: bool, dt: real): (r: Outcome)
    ensures r.moves == [Planar(s.inputVector, MoveSpeed(c, s), dt), Vertical(r.state.velocityY, dt)]
    ensures r.state.velocityY == Fall(s.velocityY, grounded, c.gravity, dt)
    ensures r.state.xRotation == Look(c, s, dt).xRotation
    ensures c.hasCamera ==> PitchInRange(r.state)
    ensures PitchInRange(s) ==> PitchInRange(r.state)
    ensures r.state.inputVector == s.inputVector && r.state.lookInput == s.lookInput
    ensures r.state.isSprinting == s.isSprinting
  {
    var looked := Look(c, s, dt);
    var step := Walk(c, looked, dt);
    var fell := Gravity(c, looked, grounded, dt);
    Outcome(fell.state, [step] + fell.moves)
  }

  /** A callback or a frame of this controller. */
  datatype Event =
    | MoveEvent(move: Vec2)
    | LookEvent(look: Vec2)
    | JumpEvent(phase: InputPhase, grounded: bool)
    | SprintEvent(phase: InputPhase)
    | UpdateEvent(grounded: bool, dt: real)

  function Apply(c: Settings, s: State, e: Event): (r: Outcome)
    requires WellFormed(c)
  {
    match e
    case MoveEvent(move) => Outcome(s.(inputVector := move), [])
    case LookEvent(look) => Outcome(s.(lookInput := look), [])
    case JumpEvent(phase, grounded) => Outcome(Jump(c, s, phase, grounded), [])
    case SprintEvent(phase) => Outcome(Sprint(s, phase), [])
    case UpdateEvent(grounded, dt) => UpdateFrame(c, s, grounded, dt)
  }

  /** Play the events in order; the result holds the final state and every requested move, in order. */
  function Run(c: Settings, s: State, events: seq<Event>): (r: Outcome)
    requires WellFormed(c)
    decreases |events|
  {
    if events == [] then Outcome(s, [])
    else
      var first := Apply(c, s, events[0]);
      var rest := Run(c, first.state, events[1..]);
      Outcome(rest.state, first.moves + rest.moves)
  }

  /** The pitch never leaves plus or minus 90 degrees, whatever the look input. */
  lemma {:induction false} PitchStaysInRange(c: Settings, s: State, events: seq<Event>)
    requires WellFormed(c) && PitchInRange(s)
    ensures PitchInRange(Run(c, s, events).state)
    decreases |events|
  {
    if events != [] {
      PitchStaysInRange(c, Apply(c, s, events[0]).state, events[1..]);
    }
  }

  /** Every frame requests exactly two moves, horizontal then vertical, so n frames request 2n moves. */
  function CountUpdates(events: seq<Event>): (n: nat)
    ensures n <= |events|
    ensures (forall i :: 0 <= i < |events| ==> events[i].UpdateEvent?) ==> n == |events|
    ensures (forall i :: 0 <= i < |events| ==> !events[i].UpdateEvent?) ==> n == 0
  {
    if events == [] then 0 else (if events[0].UpdateEvent? then 1 else 0) + CountUpdates(events[1..])
  }

  lemma {:induction false} TwoMovesPerFrame(c: Settings, s: State, events: seq<Event>)
    requires WellFormed(c)
    ensures |Run(c, s, events).moves| == 2 * CountUpdates(events)
    decreases |events|
  {
    if events != [] {
      TwoMovesPerFrame(c, Apply(c, s, events[0]).state, events[1..]);
    }
  }

  /** Between frames, the vertical velocity changes only through an accepted jump, which sets it to the jump impulse. */
  lemma {:induction false} OnlyJumpsSetVelocityBetweenFrames(c: Settings, s: State, events: seq<Event>)
    requires WellFormed(c)
    requires forall i :: 0 <= i < |events| ==> !events[i].UpdateEvent?
    ensures var v := Run(c, s, events).state.velocityY;
      v == s.velocityY || IsJumpVelocity(v, c.jumpHeight, c.gravity)
    decreases |events|
  {
    if events != [] {
      OnlyJumpsSetVelocityBetweenFrames(c, Apply(c, s, events[0]).state, events[1..]);
    }
  }

  /** Frames of lengths `dts` during which the character controller reports no ground contact. */
  function AirborneFrames(dts: seq<real>): (events: seq<Event>)
    ensures |events| == |dts|
    ensures forall i :: 0 <= i < |dts| ==> events[i] == UpdateEvent(false, dts[i])
    decreases |dts|
  {
    if dts == [] then [] else [UpdateEvent(false, dts[0])] + AirborneFrames(dts[1..])
  }

  /** Over airborne frames, the requested moves climb by exactly the Rise of the starting vertical velocity. */
  lemma {:induction false} AirborneHeight(c: Settings, s: State, dts: seq<real>)
    requires WellFormed(c)
    ensures Height(Run(c, s, AirborneFrames(dts)).moves) == Rise(s.velocityY, c.gravity, dts)
    decreases |dts|
  {
    if dts != [] {
      var events := AirborneFrames(dts);
      assert events[1..] == AirborneFrames(dts[1..]);
      var first := UpdateFrame(c, s, false, dts[0]);
      AirborneHeight(c, first.state, dts[1..]);
      HeightOfStep(first.moves[0], first.moves[1]);
      HeightOfConcat(first.moves, Run(c, first.state, events[1..]).moves);
    }
  }

  /** After a grounded jump, no number of airborne frames, of any lengths, carries the player above jumpHeight. */
  lemma JumpApexBounded(c: Settings, s: State, dts: seq<real>)
    requires WellFormed(c) && c.gravity < 0.0
    ensures Height(Run(c, s, [JumpEvent(Performed, true)] + AirborneFrames(dts)).moves) <= c.jumpHeight
  {
    var events := [JumpEvent(Performed, true)] + AirborneFrames(dts);
    var jumped := Jump(c, s, Performed, true);
    assert events[0] == JumpEvent(Performed, true) && events[1..] == AirborneFrames(dts);
    AirborneHeight(c, jumped, dts);
    assert Run(c, s, events).moves == [] + Run(c, jumped, events[1..]).moves;
    assert [] + Run(c, jumped, events[1..]).moves == Run(c, jumped, events[1..]).moves;
    JumpStaysBelowJumpHeight(jumped.velocityY, c.jumpHeight, c.gravity, dts);
  }

  /** With jumpHeight 2 and gravity -15, the take-off speed is the square root of 60, about 7.746. */
  lemma JumpVelocityScenario(v: real)
    requires IsJumpVelocity(v, 2.0, -15.0)
    ensures v * v == 60.0 && 7.745 < v < 7.746
  {
    SquaresOrderRoots(7.745, v);
    SquaresOrderRoots(v, 7.746);
  }

  /** The MonoBehaviour: its fields, updated in place by the callbacks and by Update. */
  class PlayerMovement {
    const settings: Settings
    var inputVector: Vec2
    var lookInput: Vec2
    var velocityY: real
    var isSprinting: bool
    var xRotation: real

    /** The fields as a State value. */
    function Snapshot(): State
      reads this
    {
      State(inputVector, lookInput, velocityY, isSprinting, xRotation)
    }

    ghost predicate Valid()
      reads this
    {
      WellFormed(settings) && PitchInRange(Snapshot())
    }

    constructor (settings: Settings)
      requires WellFormed(settings)
      ensures Valid() && this.settings == settings && Snapshot() == Spawn
    {
      this.settings := settings;
      inputVector, lookInput, velocityY, isSprinting, xRotation := Zero2, Zero2, 0.0, false, 0.0;
    }

    method OnMove(move: Vec2)
      requires Valid()
      modifies this
      ensures Valid() && Snapshot() == old(Snapshot()).(inputVector := move)
    {
      inputVector := move;
    }

    method OnLook(look: Vec2)
      requires Valid()
      modifies this
      ensures Valid() && Snapshot() == old(Snapshot()).(lookInput := look)
    {
      lookInput := look;
    }

    method OnJump(phase: InputPhase, grounded: bool)
      requires Valid()
      modifies this
      ensures Valid() && Snapshot() == Jump(settings, old(Snapshot()), phase, grounded)
    {
      if phase == Performed && grounded {
        velocityY := settings.jumpVelocity;
      }
    }

    method OnSprint(phase: InputPhase)
      requires Valid()
      modifies this
      ensures Valid() && Snapshot() == Sprint(old(Snapshot()), phase)
    {
      if phase == Started || phase == Performed {
        isSprinting := true;
      } else if phase == Canceled {
        isSprinting := false;
      }
    }

    method Update(grounded: bool, dt: real) returns (moves: seq<Vec3>)
      requires Valid()
      modifies this
      ensures Valid()
      ensures Snapshot() == UpdateFrame(settings, old(Snapshot()), grounded, dt).state
      ensures moves == UpdateFrame(settings, old(Snapshot()), grounded, dt).moves
    {
      HandleLook(dt);
      var step := HandleMovement(dt);
      var fall := ApplyGravity(grounded, dt);
      moves := [step, fall];
    }

    method HandleLook(dt: real)
      requires Valid()
      modifies this
      ensures Valid() && Snapshot() == Look(settings, old(Snapshot()), dt)
    {
      if !settings.hasCamera {
        return;
      }
      var mouseY := lookInput.y * settings.mouseSensitivity * dt;
      xRotation := xRotation - mouseY;
      xRotation := Clamp(xRotation, -PitchLimit, PitchLimit);
    }

    method HandleMovement(dt: real) returns (step: Vec3)
      requires Valid()
      ensures step == Walk(settings, Snapshot(), dt)
    {
      var speed := if isSprinting then settings.sprintSpeed else settings.walkSpeed;
      step := Planar(inputVector, speed, dt);
    }

    method ApplyGravity(grounded: bool, dt: real) returns (fall: Vec3)
      requires Valid()
      modifies this
      ensures Valid()
      ensures Snapshot() == Gravity(settings, old(Snapshot()), grounded, dt).state
      ensures [fall] == Gravity(settings, old(Snapshot()), grounded, dt).moves
    {
      if grounded && velocityY < 0.0 {
        velocityY := StickVelocity;
      }
      velocityY := velocityY + settings.gravity * dt;
      fall := Vertical(velocityY, dt);
    }
  }
}
