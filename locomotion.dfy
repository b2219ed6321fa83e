/**
 * Vocabulary shared by both player controllers: input axes, displacement
 * requests handed to the character controller, input-action phases, and the
 * two rules both controllers apply in the same way (pitch clamping and the
 * gravity step with ground snapping).
 */
module Locomotion {
  import opened Numerics

  /** A 2-D axis value (move or look input) or a direction in the player's horizontal plane: x = right, y = forward. */
  datatype Vec2 = Vec2(x: real, y: real)

  /** A displacement requested from the character controller, in the player's local frame: x = right, y = up, z = forward. */
  datatype Vec3 = Vec3(x: real, y: real, z: real)

  const Zero2: Vec2 := Vec2(0.0, 0.0)

  /** The player's own forward axis, in the local frame of Vec2. */
  const Forward: Vec2 := Vec2(0.0, 1.0)

  /** The phase an input-action callback reports (`context.started`, `context.performed`, `context.canceled`). */
  datatype InputPhase = Disabled | Waiting | Started | Performed | Canceled

  /** Camera pitch is kept within plus or minus this many degrees. */
  const PitchLimit: real := 90.0

  /** The vertical velocity a grounded, falling player is snapped to before gravity is added. */
  const StickVelocity: real := -2.0

  /** The horizontal displacement `(right * d.x + forward * d.y) * speed * dt` of moving along `d` at `speed` for `dt` seconds. */
  function Planar(d: Vec2, speed: real, dt: real): (v: Vec3)
    ensures v.y == 0.0
    ensures d == Zero2 ==> v == Vec3(0.0, 0.0, 0.0)
  {
    Vec3(d.x * speed * dt, 0.0, d.y * speed * dt)
  }

  /**
   * The vertical displacement `velocity * dt` of a velocity whose only non-zero
   * component is `velocityY`: straight up or down, and over a positive frame
   * time it goes up exactly when the velocity points up.
   */
  function Vertical(velocityY: real, dt: real): (v: Vec3)
    ensures v.x == 0.0 && v.z == 0.0
    ensures dt > 0.0 ==> (v.y > 0.0 <==> velocityY > 0.0) && (v.y < 0.0 <==> velocityY < 0.0)
  {
    SignOfProduct(velocityY, dt);
    Vec3(0.0, velocityY * dt, 0.0)
  }

  lemma SignOfProduct(x: real, d: real)
    ensures d > 0.0 ==> (x * d > 0.0 <==> x > 0.0) && (x * d < 0.0 <==> x < 0.0)
  {
    if d > 0.0 {
      if x > 0.0 {
        assert x * d > 0.0 * d;
      } else if x < 0.0 {
        assert x * d < 0.0 * d;
      }
    }
  }

  /** `v` is the jump impulse Mathf.Sqrt(jumpHeight * -2 * gravity): the take-off speed whose apex under `gravity` is `jumpHeight`. */
  predicate IsJumpVelocity(v: real, jumpHeight: real, gravity: real) {
    IsSquareRoot(v, jumpHeight * -2.0 * gravity)
  }

  /** The pitch after turning by `delta` degrees: lowered by `delta`, then clamped to the pitch limit. */
  function Pitch(rotation: real, delta: real): (r: real)
    ensures -PitchLimit <= r <= PitchLimit
    ensures -PitchLimit <= rotation - delta <= PitchLimit ==> r == rotation - delta
    ensures rotation - delta < -PitchLimit ==> r == -PitchLimit
    ensures rotation - delta > PitchLimit ==> r == PitchLimit
  {
    Clamp(rotation - delta, -PitchLimit, PitchLimit)
  }

  /**
   * One frame of gravity. A grounded player that is moving down is first
   * snapped to StickVelocity; every other vertical velocity is kept. Then
   * `gravity * dt` is added.
   */
  function Fall(velocityY: real, grounded: bool, gravity: real, dt: real): (r: real)
    ensures grounded && velocityY < 0.0 ==> r == StickVelocity + gravity * dt
    ensures !(grounded && velocityY < 0.0) ==> r == velocityY + gravity * dt
  {
    (if grounded && velocityY < 0.0 then StickVelocity else velocityY) + gravity * dt
  }

  /**
   * Standing on the ground frame after frame, the vertical velocity settles:
   * once a grounded frame leaves it negative, the next grounded frame gives the
   * same value, StickVelocity + gravity * dt, whatever the velocity was before.
   */
  lemma GroundedFallSettles(velocityY: real, gravity: real, dt: real)
    requires Fall(velocityY, true, gravity, dt) < 0.0
    ensures Fall(Fall(velocityY, true, gravity, dt), true, gravity, dt) == StickVelocity + gravity * dt
  {
  }

  /** The net height of a sequence of displacement requests: the sum of their vertical parts. */
  function Height(moves: seq<Vec3>): real
    decreases |moves|
  {
    if moves == [] then 0.0 else moves[0].y + Height(moves[1..])
  }

  lemma {:induction false} HeightOfConcat(a: seq<Vec3>, b: seq<Vec3>)
    ensures Height(a + b) == Height(a) + Height(b)
    decreases |a|
  {
    if a == [] {
      assert a + b == b;
    } else {
      assert (a + b)[0] == a[0] && (a + b)[1..] == a[1..] + b;
      HeightOfConcat(a[1..], b);
    }
  }

  /** A frame's two requests, horizontal then vertical, climb by the sum of their vertical parts. */
  lemma HeightOfStep(p: Vec3, q: Vec3)
    ensures Height([p, q]) == p.y + q.y
  {
    assert [q][1..] == [];
    assert Height([q]) == q.y + Height([]);
    assert [p, q][1..] == [q];
    assert Height([p, q]) == p.y + Height([q]);
  }

  /**
   * The net height gained over airborne frames of lengths `dts`, starting at
   * vertical velocity `velocityY`: each frame adds gravity * dt to the
   * velocity and then moves by Vertical(velocity, dt), as both controllers do.
   */
  function Rise(velocityY: real, gravity: real, dts: seq<real>): real
    decreases |dts|
  {
    if dts == [] then 0.0
    else
      var v := Fall(velocityY, false, gravity, dts[0]);
      Vertical(v, dts[0]).y + Rise(v, gravity, dts[1..])
  }

  /**
   * One airborne frame loses height-plus-kinetic-energy: with w the velocity
   * after the frame, w * dt + w^2 / (-2 g) <= v^2 / (-2 g), the difference
   * being g^2 dt^2 / (-2 g).
   */
  lemma EnergyStep(v: real, gravity: real, dt: real)
    requires gravity < 0.0
    ensures var w := v + gravity * dt;
      w * dt + w * w / (-2.0 * gravity) <= v * v / (-2.0 * gravity)
  {
    var h := -2.0 * gravity;
    var w := v + gravity * dt;
    var e := gravity * dt;
    assert v == w - e;
    assert v * v == w * w + h * (w * dt) + e * e;
    assert (w * w + h * (w * dt) + e * e) / h == w * w / h + w * dt + e * e / h;
    assert e * e >= 0.0;
    ProductNonNegative(e * e, 1.0 / h);
    assert e * e / h == (e * e) * (1.0 / h);
  }

  /**
   * Over any number of airborne frames, of any lengths, the height gained plus
   * the kinetic-energy height of the final velocity never exceeds the
   * kinetic-energy height v^2 / (-2 g) of the starting velocity.
   */
  lemma {:induction false} RiseBelowApex(velocityY: real, gravity: real, dts: seq<real>)
    requires gravity < 0.0
    ensures Rise(velocityY, gravity, dts) <= velocityY * velocityY / (-2.0 * gravity)
    decreases |dts|
  {
    if dts != [] {
      var w := Fall(velocityY, false, gravity, dts[0]);
      EnergyStep(velocityY, gravity, dts[0]);
      RiseBelowApex(w, gravity, dts[1..]);
    }
  }

  /**
   * A jump launched at the impulse Mathf.Sqrt(jumpHeight * -2 * gravity)
   * never climbs above jumpHeight, however many airborne frames follow and
   * whatever their lengths.
   */
  lemma JumpStaysBelowJumpHeight(v: real, jumpHeight: real, gravity: real, dts: seq<real>)
    requires gravity < 0.0 && IsJumpVelocity(v, jumpHeight, gravity)
    ensures Rise(v, gravity, dts) <= jumpHeight
  {
    RiseBelowApex(v, gravity, dts);
    var h := -2.0 * gravity;
    assert v * v == jumpHeight * h;
    assert (jumpHeight * h) / h == jumpHeight;
  }
}
