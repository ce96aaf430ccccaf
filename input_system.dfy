/**
 * The first-person player controller of the game client: the `FPSCamera`
 * component, mouse look, keyboard acceleration, the speed rule and jump
 * that `player_dynamics` writes into the player's rigid body, the
 * Escape toggle of mouse and keyboard control, and the cube spawned for
 * each left-button press.
 *
 * Host resources become parameters: the keyboard state is a `KeyInput`
 * value, the two event readers of `MouseState` hold the events they have
 * not yet read, the body set is the engine's `RigidBodySet`, and spawning
 * returns the projectiles to create instead of queuing engine commands.
 */
module InputSystem {
  import opened Wrappers
  import opened Geometry
  import opened Rapier

  /** Degrees of turn per second per unit of mouse motion. */
  const Sensitivity: real := 20.0

  /** The angle, in degrees, that `motion` units of mouse motion turn over `dt` seconds. */
  function Swing(motion: real, dt: real): real {
    motion * Sensitivity * dt
  }

  /** Pitch is kept within `[-PitchLimit, PitchLimit]` degrees. */
  const PitchLimit: real := 89.99

  /** Launch speed of a spawned cube along the forward vector. */
  const MuzzleSpeed: real := 15.0

  datatype KeyCode = W | A | S | D | Space | Escape | OtherKey(code: nat)

  /** `Input<KeyCode>`: the keys held this frame and those whose press began this frame. */
  datatype KeyInput = KeyInput(pressed: set<KeyCode>, justPressed: set<KeyCode>)

  /** A mouse motion delta; a delta with a NaN component is `NaN`. */
  datatype Delta = Finite(x: real, y: real) | NaN

  /** Yaw and pitch of the camera, in degrees. */
  datatype Orientation = Orientation(yaw: real, pitch: real)

  datatype MouseButton = Left | Right | Middle | OtherButton(code: nat)

  datatype ButtonState = Pressed | Released

  datatype MouseButtonInput = MouseButtonInput(button: MouseButton, state: ButtonState)

  /** The pose and velocity a spawned cube starts with. */
  datatype Projectile = Projectile(translation: Vec3, linvel: Vec3)

  /** The player's camera component. */
  class FPSCamera {
    var yaw: real
    var pitch: real
    var enableMouse: bool
    var enableKeyboard: bool
    var targetSpeed: real
    var acceleration: real
    var jumpPower: real

    /** Pitch stays clamped, the two controls are toggled together, and the speed cap is a speed. */
    ghost predicate Valid()
      reads this
    {
      && -PitchLimit <= pitch <= PitchLimit
      && enableMouse == enableKeyboard
      && targetSpeed >= 0.0
    }

    function Look(): Orientation
      reads this
    {
      Orientation(yaw, pitch)
    }

    /** `FPSCamera::default()`. */
    constructor ()
      ensures Valid()
      ensures yaw == 0.0 && pitch == 0.0
      ensures enableMouse && enableKeyboard
      ensures targetSpeed == 6.0 && acceleration == 1.0 && jumpPower == 1.0
    {
      yaw, pitch := 0.0, 0.0;
      enableMouse, enableKeyboard := true, true;
      targetSpeed, acceleration, jumpPower := 6.0, 1.0, 1.0;
    }
  }

  /** The two event readers: the motion and button events each has not read yet. */
  class MouseState {
    var motion: seq<Delta>
    var buttons: seq<MouseButtonInput>

    /** `MouseState::default()`: no event waits on either reader. */
    constructor ()
      ensures motion == [] && buttons == []
    {
      motion, buttons := [], [];
    }
  }

  // ---------------------------------------------------------------------
  // Mouse look (`pitch_yaw`).

  /** `f32::clamp`. */
  function Clamp(x: real, lo: real, hi: real): (r: real)
    requires lo <= hi
    ensures lo <= r <= hi
    ensures lo <= x <= hi ==> r == x
    ensures x < lo ==> r == lo
    ensures hi < x ==> r == hi
  {
    if x < lo then lo else if hi < x then hi else x
  }

  /** `delta += event.delta`: component-wise sum, where NaN absorbs. */
  function Accumulate(a: Delta, b: Delta): (r: Delta)
    ensures r.NaN? <==> a.NaN? || b.NaN?
    ensures r.Finite? ==> r.x == a.x + b.x && r.y == a.y + b.y
  {
    if a.NaN? || b.NaN? then NaN else Finite(a.x + b.x, a.y + b.y)
  }

  /** The motion summed over `events` in arrival order, starting from zero. */
  function SumMotion(events: seq<Delta>): (r: Delta)
    ensures (forall i :: 0 <= i < |events| ==> events[i].Finite?) ==> r.Finite?
  {
    if events == [] then Finite(0.0, 0.0)
    else Accumulate(SumMotion(events[..|events| - 1]), events[|events| - 1])
  }

  /** The x component of the finite deltas, summed (a reference definition). */
  function TotalX(events: seq<Delta>): real {
    if events == [] then 0.0 else (if events[0].Finite? then events[0].x else 0.0) + TotalX(events[1..])
  }

  /** The y component of the finite deltas, summed (a reference definition). */
  function TotalY(events: seq<Delta>): real {
    if events == [] then 0.0 else (if events[0].Finite? then events[0].y else 0.0) + TotalY(events[1..])
  }

  /** Turning the camera by one summed delta over `dt` seconds. */
  function Turn(o: Orientation, delta: Delta, dt: real): (r: Option<Orientation>)
    ensures r.None? <==> delta.NaN?
    ensures r.Some? ==> -PitchLimit <= r.value.pitch <= PitchLimit
    ensures r.Some? ==> r.value.yaw == o.yaw - Swing(delta.x, dt)
    ensures r.Some? && -PitchLimit <= o.pitch + Swing(delta.y, dt) <= PitchLimit ==>
              r.value.pitch == o.pitch + Swing(delta.y, dt)
    ensures r.Some? && o.pitch + Swing(delta.y, dt) > PitchLimit ==> r.value.pitch == PitchLimit
    ensures r.Some? && o.pitch + Swing(delta.y, dt) < -PitchLimit ==> r.value.pitch == -PitchLimit
  {
    if delta.NaN? then None
    else
      var yaw := o.yaw - Swing(delta.x, dt);
      var pitch := o.pitch + Swing(delta.y, dt);
      Some(Orientation(yaw, Clamp(pitch, -PitchLimit, PitchLimit)))
  }

  /**
   * The new orientation `pitch_yaw` produces, or `None` when mouse look is
   * disabled or the queued motion sums to NaN.
   */
  function LookUpdate(enabled: bool, o: Orientation, events: seq<Delta>, dt: real): (r: Option<Orientation>)
    ensures !enabled ==> r.None?
    ensures enabled ==> (r.None? <==> exists i :: 0 <= i < |events| && events[i].NaN?)
    ensures r.Some? ==> -PitchLimit <= r.value.pitch <= PitchLimit
  {
    SumMotionIsNaN(events);
    if !enabled then None else Turn(o, SumMotion(events), dt)
  }

  /**
   * The closure `player_dynamics` maps over the result of `pitch_yaw`, as
   * written: it names the pair `(pitch, yaw)` although `pitch_yaw` returns
   * `(yaw, pitch)`.
   */
  function EulerClosure(p: Primitives, angles: (real, real)): Quat {
    var (pitch, yaw) := angles;
    p.fromEulerAngles(-yaw, pitch, 0.0)
  }

  /**
   * The body rotation built from an orientation: because of the swapped
   * names, the roll angle is minus the pitch and the pitch angle is the yaw.
   */
  function LookRotation(p: Primitives, o: Orientation): (r: Quat)
    ensures r == EulerClosure(p, (p.toRadians(o.yaw), p.toRadians(o.pitch)))
  {
    p.fromEulerAngles(-p.toRadians(o.pitch), p.toRadians(o.yaw), 0.0)
  }

  /** The NaN flag of the sum is set exactly when some queued delta is NaN. */
  lemma {:induction false} SumMotionIsNaN(events: seq<Delta>)
    ensures SumMotion(events).NaN? <==> exists i :: 0 <= i < |events| && events[i].NaN?
  {
    if events != [] {
      var init := events[..|events| - 1];
      SumMotionIsNaN(init);
      if SumMotion(init).NaN? {
        var i :| 0 <= i < |init| && init[i].NaN?;
        assert events[i].NaN?;
      }
      forall i | 0 <= i < |events| - 1
        ensures events[i] == init[i]
      {
      }
    }
  }

  lemma AccumulateAssociative(a: Delta, b: Delta, c: Delta)
    ensures Accumulate(Accumulate(a, b), c) == Accumulate(a, Accumulate(b, c))
  {
  }

  /** Reading the queue in two batches sums to the same motion as reading it in one. */
  lemma {:induction false} SumMotionSplit(a: seq<Delta>, b: seq<Delta>)
    ensures SumMotion(a + b) == Accumulate(SumMotion(a), SumMotion(b))
  {
    if b == [] {
      assert a + b == a;
    } else {
      var init, last := b[..|b| - 1], b[|b| - 1];
      assert (a + b)[..|a + b| - 1] == a + init;
      assert (a + b)[|a + b| - 1] == last;
      calc {
        SumMotion(a + b);
        Accumulate(SumMotion(a + init), last);
        { SumMotionSplit(a, init); }
        Accumulate(Accumulate(SumMotion(a), SumMotion(init)), last);
        { AccumulateAssociative(SumMotion(a), SumMotion(init), last); }
        Accumulate(SumMotion(a), Accumulate(SumMotion(init), last));
        Accumulate(SumMotion(a), SumMotion(b));
      }
    }
  }

  /** Without NaN, the accumulated delta is the plain sum of the queued deltas. */
  lemma {:induction false} SumMotionOfFinite(events: seq<Delta>)
    requires forall i :: 0 <= i < |events| ==> events[i].Finite?
    ensures SumMotion(events) == Finite(TotalX(events), TotalY(events))
  {
    if events != [] {
      var rest := events[1..];
      SumMotionOfFinite(rest);
      assert events == [events[0]] + rest;
      SumMotionSplit([events[0]], rest);
      assert [events[0]][..0] == [];
    }
  }

  /**
   * With no NaN queued, the look update is the turn by the component-wise
   * totals: yaw decreases by the swing of the total horizontal motion, and
   * pitch is the old pitch plus the swing of the total vertical motion,
   * clamped to the pitch limit.
   */
  lemma LookFollowsTotalMotion(o: Orientation, events: seq<Delta>, dt: real)
    requires forall i :: 0 <= i < |events| ==> events[i].Finite?
    ensures LookUpdate(true, o, events, dt) == Turn(o, Finite(TotalX(events), TotalY(events)), dt)
    ensures LookUpdate(true, o, events, dt).Some?
    ensures LookUpdate(true, o, events, dt).value.yaw == o.yaw - Swing(TotalX(events), dt)
    ensures LookUpdate(true, o, events, dt).value.pitch ==
              Clamp(o.pitch + Swing(TotalY(events), dt), -PitchLimit, PitchLimit)
    ensures -PitchLimit <= LookUpdate(true, o, events, dt).value.pitch <= PitchLimit
  {
    SumMotionOfFinite(events);
    TurnOfFinite(o, TotalX(events), TotalY(events), dt);
  }

  /** A finite turn, component by component. */
  lemma TurnOfFinite(o: Orientation, x: real, y: real, dt: real)
    ensures Turn(o, Finite(x, y), dt) ==
              Some(Orientation(o.yaw - Swing(x, dt), Clamp(o.pitch + Swing(y, dt), -PitchLimit, PitchLimit)))
  {
    var yaw, pitch := o.yaw - Swing(x, dt), o.pitch + Swing(y, dt);
    var t := Turn(o, Finite(x, y), dt);
    assert t.Some?;
    assert t.value.yaw == yaw;
    assert t.value.pitch == Clamp(pitch, -PitchLimit, PitchLimit);
  }

  /** A NaN anywhere in the queue leaves the orientation to the caller unchanged. */
  lemma NaNMotionIsIgnored(o: Orientation, events: seq<Delta>, dt: real, i: nat)
    requires i < |events| && events[i].NaN?
    ensures LookUpdate(true, o, events, dt) == None
  {
    SumMotionIsNaN(events);
  }

  /** Zero motion leaves a clamped orientation exactly as it was. */
  lemma ZeroMotionKeepsLook(o: Orientation, dt: real)
    requires -PitchLimit <= o.pitch <= PitchLimit
    ensures Turn(o, Finite(0.0, 0.0), dt) == Some(o)
  {
  }

  /** Sums the queued motion as `pitch_yaw`'s loop does. */
  method AccumulateMotion(events: seq<Delta>) returns (delta: Delta)
    ensures delta == SumMotion(events)
  {
    delta := Finite(0.0, 0.0);
    for i := 0 to |events|
      invariant delta == SumMotion(events[..i])
    {
      assert events[..i + 1][..i] == events[..i];
      delta := Accumulate(delta, events[i]);
    }
    assert events[..|events|] == events;
  }

  /**
   * `pitch_yaw`: when mouse look is enabled, reads every queued motion
   * event, and unless the sum is NaN turns the camera and returns its yaw
   * and pitch in radians. When disabled it reads nothing.
   */
  method PitchYaw(p: Primitives, camera: FPSCamera, state: MouseState, dt: real) returns (r: Option<(real, real)>)
    requires camera.Valid()
    modifies camera`yaw, camera`pitch, state`motion
    ensures camera.Valid()
    ensures var look := LookUpdate(old(camera.enableMouse), old(camera.Look()), old(state.motion), dt);
            && camera.Look() == look.UnwrapOr(old(camera.Look()))
            && r == (if look.Some? then Some((p.toRadians(camera.yaw), p.toRadians(camera.pitch))) else None)
    ensures state.motion == if old(camera.enableMouse) then [] else old(state.motion)
  {
    if !camera.enableMouse {
      return None;
    }
    var delta := AccumulateMotion(state.motion);
    state.motion := [];
    if delta.NaN? {
      return None;
    }
    camera.yaw := camera.yaw - delta.x * Sensitivity * dt;
    camera.pitch := camera.pitch + delta.y * Sensitivity * dt;
    camera.pitch := Clamp(camera.pitch, -PitchLimit, PitchLimit);
    r := Some((p.toRadians(camera.yaw), p.toRadians(camera.pitch)));
  }

  // ---------------------------------------------------------------------
  // Keyboard acceleration (`movement_axis`, `strafe_vector`, `accel_from_player`).

  /** `movement_axis`: start at zero, add one if `plus` is held, subtract one if `minus` is held. */
  function MovementAxis(input: KeyInput, plus: KeyCode, minus: KeyCode): (r: real)
    ensures r == 1.0 <==> plus in input.pressed && minus !in input.pressed
    ensures r == -1.0 <==> minus in input.pressed && plus !in input.pressed
    ensures r == 0.0 <==> (plus in input.pressed <==> minus in input.pressed)
    ensures r == -1.0 || r == 0.0 || r == 1.0
  {
    var axis := 0.0;
    var axis := if plus in input.pressed then axis + 1.0 else axis;
    var axis := if minus in input.pressed then axis - 1.0 else axis;
    axis
  }

  /** `strafe_vector`: the forward vector crossed with the down axis. */
  function StrafeVector(forward: Vec3): (r: Vec3)
    ensures r.y == 0.0
    ensures Dot(r, forward) == 0.0
  {
    var r := Cross(forward, Vec3(0.0, -1.0, 0.0));
    assert r == Vec3(forward.z, 0.0, -forward.x);
    PerpendicularTurn(forward.x, forward.z);
    r
  }

  lemma PerpendicularTurn(a: real, b: real)
    ensures b * a + (-a) * b == 0.0
  {
  }

  /** The forward vector has a horizontal part, so horizontal input can be followed. */
  predicate NotVertical(f: Vec3) {
    f.x != 0.0 || f.z != 0.0
  }

  /** Some movement key asks for motion: one of the two axes is not zero. */
  predicate Steering(input: KeyInput) {
    MovementAxis(input, W, S) != 0.0 || MovementAxis(input, A, D) != 0.0
  }

  /** `strafe_vector * axis_s + forward_vector * axis_f`. */
  function WishDirection(p: Primitives, rotation: Quat, input: KeyInput): Vec3 {
    var forward := p.forwardVector(rotation);
    Add(Scale(StrafeVector(forward), MovementAxis(input, A, D)), Scale(forward, MovementAxis(input, W, S)))
  }

  /** `strafe * a + forward * b` for a strafe vector with no height. */
  lemma CombineAxes(strafe: Vec3, forward: Vec3, a: real, b: real)
    requires strafe.y == 0.0
    ensures Add(Scale(strafe, a), Scale(forward, b)).y == forward.y * b
    ensures a == 0.0 ==> Add(Scale(strafe, a), Scale(forward, b)) == Scale(forward, b)
    ensures a == 0.0 && b == 0.0 ==> Add(Scale(strafe, a), Scale(forward, b)) == Zero
  {
  }

  /**
   * What the wished direction is made of: strafing never moves it up or
   * down, with no strafe key it lies along the forward vector, and with no
   * movement key at all it is zero.
   */
  lemma WishDirectionOfKeys(p: Primitives, rotation: Quat, input: KeyInput)
    ensures WishDirection(p, rotation, input).y == p.forwardVector(rotation).y * MovementAxis(input, W, S)
    ensures MovementAxis(input, A, D) == 0.0 ==>
              WishDirection(p, rotation, input) == Scale(p.forwardVector(rotation), MovementAxis(input, W, S))
    ensures !Steering(input) ==> WishDirection(p, rotation, input) == Zero
  {
    var f := p.forwardVector(rotation);
    CombineAxes(StrafeVector(f), f, MovementAxis(input, A, D), MovementAxis(input, W, S));
  }

  /**
   * A quarter-turned copy of a non-zero plane vector `(c, s)`, combined with
   * a pair of movement axes that are not both zero, is not zero.
   */
  lemma RotatedNonZero(c: real, s: real, a: real, b: real)
    requires c != 0.0 || s != 0.0
    requires a == -1.0 || a == 0.0 || a == 1.0
    requires b == -1.0 || b == 0.0 || b == 1.0
    requires a != 0.0 || b != 0.0
    ensures c * a + s * b != 0.0 || c * b - s * a != 0.0
  {
    if a == 0.0 {
      assert c * a == 0.0 && s * a == 0.0;
    } else if b == 0.0 {
      assert s * b == 0.0 && c * b == 0.0;
    }
  }

  /** With a forward vector that is not vertical, the wish has a horizontal part exactly when steering. */
  lemma WishIsHorizontalWhenSteering(p: Primitives, rotation: Quat, input: KeyInput)
    requires NotVertical(p.forwardVector(rotation))
    ensures Steering(input) ==> Horizontal(WishDirection(p, rotation, input)) != Zero
    ensures !Steering(input) ==> WishDirection(p, rotation, input) == Zero
  {
    var f := p.forwardVector(rotation);
    var axisF, axisS := MovementAxis(input, W, S), MovementAxis(input, A, D);
    var h := Horizontal(WishDirection(p, rotation, input));
    assert h == Vec3(f.z * axisS + f.x * axisF, 0.0, f.z * axisF - f.x * axisS);
    if Steering(input) {
      RotatedNonZero(f.z, f.x, axisS, axisF);
    }
  }

  /**
   * `accel_from_player`: `None` when keyboard control is off; otherwise the
   * horizontal part of the wished direction, normalized and scaled by
   * `acceleration`, or zero when no movement key is effectively held.
   */
  function AccelFromPlayer(p: Primitives, enableKeyboard: bool, acceleration: real, rotation: Quat, input: KeyInput)
    : (r: Option<Vec3>)
    requires p.Lawful() && NotVertical(p.forwardVector(rotation))
    ensures r.None? <==> !enableKeyboard
    ensures r.Some? && !Steering(input) ==> r.value == Zero
    ensures r.Some? && Steering(input) ==> r.value.y == 0.0 && p.magnitude(r.value) == Abs(acceleration)
    ensures r.Some? && Steering(input) ==>
              Dot(r.value, WishDirection(p, rotation, input)) ==
              acceleration * p.magnitude(Horizontal(WishDirection(p, rotation, input)))
  {
    WishLength(p, rotation, input);
    AccelFromWish(p, enableKeyboard, acceleration, WishDirection(p, rotation, input), Steering(input))
  }

  /** The body of `accel_from_player` once the wished direction `accel` is known. */
  function AccelFromWish(p: Primitives, enableKeyboard: bool, acceleration: real, accel: Vec3, steering: bool)
    : (r: Option<Vec3>)
    requires p.Lawful()
    requires p.magnitude(accel) != 0.0 <==> steering
    requires steering ==> Horizontal(accel) != Zero
    ensures r.None? <==> !enableKeyboard
    ensures r.Some? && !steering ==> r.value == Zero
    ensures r.Some? && steering ==> r.value.y == 0.0 && p.magnitude(r.value) == Abs(acceleration)
    ensures r.Some? && steering ==> Dot(r.value, accel) == acceleration * p.magnitude(Horizontal(accel))
  {
    if !enableKeyboard then None
    else if p.magnitude(accel) != 0.0 then Some(ThrustAlong(p, Horizontal(accel), accel, acceleration))
    else Some(Zero)
  }

  /** The wish has non-zero length exactly when steering, and then a horizontal part. */
  lemma WishLength(p: Primitives, rotation: Quat, input: KeyInput)
    requires p.Lawful() && NotVertical(p.forwardVector(rotation))
    ensures p.magnitude(WishDirection(p, rotation, input)) != 0.0 <==> Steering(input)
    ensures Steering(input) ==> Horizontal(WishDirection(p, rotation, input)) != Zero
  {
    var accel := WishDirection(p, rotation, input);
    WishIsHorizontalWhenSteering(p, rotation, input);
    if Steering(input) {
      assert accel != Zero;
      MagnitudePositive(p, accel);
    } else {
      MagnitudeOfZero(p);
    }
  }

  /** `h.normalize() * acceleration`, and what it is as a horizontal push along `wish`. */
  function ThrustAlong(p: Primitives, h: Vec3, wish: Vec3, acceleration: real): (r: Vec3)
    requires p.Lawful() && h != Zero && h == Horizontal(wish)
    ensures r.y == 0.0
    ensures p.magnitude(r) == Abs(acceleration)
    ensures Dot(r, wish) == acceleration * p.magnitude(h)
  {
    var n := Normalize(p, h);
    NormalizeIsUnit(p, h);
    MagnitudeScale(p, n, acceleration);
    DotScale(n, wish, acceleration);
    assert Dot(n, wish) == Dot(n, h);
    Scale(n, acceleration)
  }

  // ---------------------------------------------------------------------
  // Velocity (`player_dynamics`).

  /**
   * The speed rule of `player_dynamics`, before the jump: the player's
   * acceleration is added to the body's velocity; if the sum is faster
   * than `targetSpeed`, it keeps its direction but takes the speed the
   * body had BEFORE the addition (not `targetSpeed`).
   */
  function CombinedVelocity(p: Primitives, current: Vec3, accel: Vec3, targetSpeed: real): (r: Vec3)
    requires p.Lawful() && targetSpeed >= 0.0
    ensures p.magnitude(Add(accel, current)) <= targetSpeed ==> r == Add(accel, current)
    ensures p.magnitude(Add(accel, current)) > targetSpeed ==>
              && p.magnitude(r) == p.magnitude(current)
              && Dot(r, Add(accel, current)) == p.magnitude(r) * p.magnitude(Add(accel, current))
    ensures p.magnitude(current) <= targetSpeed ==> p.magnitude(r) <= targetSpeed
  {
    var combined := Add(accel, current);
    if p.magnitude(combined) > targetSpeed then
      MagnitudeOfZero(p);
      MagnitudeOf(p, current);
      RescaledKeepsDirection(p, combined, p.magnitude(current));
      Scale(Normalize(p, combined), p.magnitude(current))
    else
      combined
  }

  /** `v.normalize() * speed` has length `speed` and points along `v`. */
  lemma RescaledKeepsDirection(p: Primitives, v: Vec3, speed: real)
    requires p.Lawful() && v != Zero && speed >= 0.0
    ensures p.magnitude(Scale(Normalize(p, v), speed)) == speed
    ensures Dot(Scale(Normalize(p, v), speed), v) == speed * p.magnitude(v)
  {
    var n := Normalize(p, v);
    NormalizeIsUnit(p, v);
    MagnitudeScale(p, n, speed);
    DotScale(n, v, speed);
  }

  /**
   * With no acceleration the velocity is kept as it is, even above the
   * speed cap: rescaling a vector to its own length leaves it unchanged.
   */
  lemma NoThrustKeepsVelocity(p: Primitives, current: Vec3, targetSpeed: real)
    requires p.Lawful() && targetSpeed >= 0.0
    ensures CombinedVelocity(p, current, Zero, targetSpeed) == current
  {
    assert Add(Zero, current) == current;
    if p.magnitude(current) > targetSpeed {
      MagnitudeOfZero(p);
      var m := p.magnitude(current);
      MagnitudePositive(p, current);
      UndoScale(current.x, m);
      UndoScale(current.y, m);
      UndoScale(current.z, m);
    }
  }

  /**
   * From rest, one tick with a movement key held and no jump gives a
   * horizontal velocity whose speed is the acceleration, when that is
   * within the speed cap.
   */
  lemma FirstTickFromRest(
    p: Primitives, rotation: Quat, acceleration: real, targetSpeed: real, jumpPower: real, input: KeyInput)
    requires p.Lawful() && NotVertical(p.forwardVector(rotation)) && targetSpeed >= 0.0
    requires Steering(input) && Space !in input.pressed && Abs(acceleration) <= targetSpeed
    ensures var v := WithJump(
              CombinedVelocity(p, Zero, AccelFromPlayer(p, true, acceleration, rotation, input).value, targetSpeed),
              input, jumpPower);
            v.y == 0.0 && p.magnitude(v) == Abs(acceleration)
  {
    var accel := AccelFromPlayer(p, true, acceleration, rotation, input).value;
    PushFromRest(p, accel, targetSpeed, jumpPower, input);
  }

  /** From rest, a push within the cap and no jump is the new velocity. */
  lemma PushFromRest(p: Primitives, accel: Vec3, targetSpeed: real, jumpPower: real, input: KeyInput)
    requires p.Lawful() && targetSpeed >= 0.0 && p.magnitude(accel) <= targetSpeed && Space !in input.pressed
    ensures WithJump(CombinedVelocity(p, Zero, accel, targetSpeed), input, jumpPower) == accel
  {
    MagnitudeOf(p, accel);
    assert Add(accel, Zero) == accel;
  }

  lemma UndoScale(x: real, m: real)
    requires m != 0.0
    ensures x * (1.0 / m) * m == x
  {
  }

  /** The jump: `jumpPower` is added along the up axis while Space is held. */
  function WithJump(v: Vec3, input: KeyInput, jumpPower: real): (r: Vec3)
    ensures r.x == v.x && r.z == v.z
    ensures Space in input.pressed ==> r.y == v.y + jumpPower
    ensures Space !in input.pressed ==> r == v
  {
    if Space in input.pressed then Add(v, Scale(Vec3(0.0, 1.0, 0.0), jumpPower)) else v
  }

  /** The player's body with its rotation locked to the look, when the look update produced one. */
  function Turned(p: Primitives, body: RigidBody, look: Option<Orientation>): (r: RigidBody)
    ensures r.position.translation == body.position.translation
    ensures r.linvel == body.linvel && r.angvel == body.angvel && r.status == body.status
    ensures look.None? ==> r == body
    ensures look.Some? ==> r.position.rotation == LookRotation(p, look.value)
  {
    match look
    case Some(o) => body.(position := Isometry(body.position.translation, LookRotation(p, o)))
    case None => body
  }

  /** The player's body with the new velocity and no spin. */
  function Driven(p: Primitives, body: RigidBody, accel: Option<Vec3>, targetSpeed: real, jumpPower: real, input: KeyInput)
    : (r: RigidBody)
    requires p.Lawful() && targetSpeed >= 0.0
    ensures r.position == body.position && r.status == body.status
    ensures r.linvel == WithJump(CombinedVelocity(p, body.linvel, accel.UnwrapOr(Zero), targetSpeed), input, jumpPower)
    ensures r.angvel == Zero
  {
    body.(linvel := WithJump(CombinedVelocity(p, body.linvel, accel.UnwrapOr(Zero), targetSpeed), input, jumpPower), angvel := Zero)
  }

  /**
   * The player's body after `player_dynamics`: same translation, the look
   * rotation when the look update produced one, the new velocity, and no
   * spin.
   */
  function BodyAfterTick(
    p: Primitives, body: RigidBody, look: Option<Orientation>, accel: Option<Vec3>,
    targetSpeed: real, jumpPower: real, input: KeyInput): (r: RigidBody)
    requires p.Lawful() && targetSpeed >= 0.0
    ensures r.position.translation == body.position.translation
    ensures look.None? ==> r.position.rotation == body.position.rotation
    ensures look.Some? ==> r.position.rotation == LookRotation(p, look.value)
    ensures r.linvel == WithJump(CombinedVelocity(p, body.linvel, accel.UnwrapOr(Zero), targetSpeed), input, jumpPower)
    ensures r.angvel == Zero
    ensures r.status == body.status
  {
    Driven(p, Turned(p, body, look), accel, targetSpeed, jumpPower, input)
  }

  /**
   * The velocity steps of `player_dynamics`: the keyboard acceleration (zero
   * when keyboard control is off) is added to the current velocity, an
   * over-speed sum is rescaled to the current speed, and the jump is added.
   */
  method TickVelocity(p: Primitives, currentVelocity: Vec3, camera: FPSCamera, transform: Transform, input: KeyInput)
    returns (combined: Vec3)
    requires p.Lawful() && camera.Valid()
    requires NotVertical(p.forwardVector(transform.rotation))
    ensures combined == WithJump(
              CombinedVelocity(
                p, currentVelocity,
                AccelFromPlayer(p, camera.enableKeyboard, camera.acceleration, transform.rotation, input).UnwrapOr(Zero),
                camera.targetSpeed),
              input, camera.jumpPower)
  {
    var currentSpeed := p.magnitude(currentVelocity);
    var accel := AccelFromPlayer(p, camera.enableKeyboard, camera.acceleration, transform.rotation, input).UnwrapOr(Zero);
    combined := Add(accel, currentVelocity);
    var newSpeed := p.magnitude(combined);
    if newSpeed > camera.targetSpeed {
      MagnitudeOfZero(p);
      combined := Scale(Normalize(p, combined), currentSpeed);
    }
    if Space in input.pressed {
      combined := Add(combined, Scale(Vec3(0.0, 1.0, 0.0), camera.jumpPower));
    }
  }

  /**
   * The first half of `player_dynamics`: the look update, then the
   * player's body takes the look rotation and keeps its translation.
   */
  method LockRotation(p: Primitives, camera: FPSCamera, state: MouseState, dt: real, handle: BodyHandle, bodySet: RigidBodySet)
    requires camera.Valid() && handle in bodySet.bodies
    modifies camera`yaw, camera`pitch, state`motion, bodySet
    ensures camera.Valid()
    ensures var look := LookUpdate(old(camera.enableMouse), old(camera.Look()), old(state.motion), dt);
            && camera.Look() == look.UnwrapOr(old(camera.Look()))
            && bodySet.bodies == old(bodySet.bodies)[handle := Turned(p, old(bodySet.bodies[handle]), look)]
    ensures state.motion == if old(camera.enableMouse) then [] else old(state.motion)
  {
    var body := bodySet.bodies[handle];
    var look := PitchYaw(p, camera, state, dt);
    var rotation := match look
      case Some(angles) => EulerClosure(p, angles)
      case None => body.position.rotation;
    bodySet.bodies := bodySet.bodies[handle := body.(position := Isometry(body.position.translation, rotation))];
  }

  /**
   * The second half of `player_dynamics`: the player's body takes the new
   * velocity, then loses any spin.
   */
  method DriveBody(p: Primitives, camera: FPSCamera, transform: Transform, handle: BodyHandle, bodySet: RigidBodySet, input: KeyInput)
    requires p.Lawful() && camera.Valid() && handle in bodySet.bodies
    requires NotVertical(p.forwardVector(transform.rotation))
    modifies bodySet
    ensures bodySet.bodies == old(bodySet.bodies)[handle := Driven(
              p, old(bodySet.bodies[handle]),
              AccelFromPlayer(p, camera.enableKeyboard, camera.acceleration, transform.rotation, input),
              camera.targetSpeed, camera.jumpPower, input)]
  {
    var body := bodySet.bodies[handle];
    var combined := TickVelocity(p, body.linvel, camera, transform, input);
    body := body.(linvel := combined);
    bodySet.bodies := bodySet.bodies[handle := body];
    body := body.(angvel := Zero);
    bodySet.bodies := bodySet.bodies[handle := body];
  }

  /**
   * `player_dynamics`: the look update, then the player's body is given the
   * look rotation (keeping its translation), the new velocity and zero
   * angular velocity. No other body changes.
   */
  method PlayerDynamics(
    p: Primitives, camera: FPSCamera, transform: Transform, handle: BodyHandle,
    bodySet: RigidBodySet, state: MouseState, input: KeyInput, dt: real)
    requires p.Lawful() && camera.Valid()
    requires handle in bodySet.bodies
    requires NotVertical(p.forwardVector(transform.rotation))
    modifies camera`yaw, camera`pitch, bodySet, state`motion
    ensures camera.Valid()
    ensures var look := LookUpdate(old(camera.enableMouse), old(camera.Look()), old(state.motion), dt);
            && camera.Look() == look.UnwrapOr(old(camera.Look()))
            && bodySet.bodies == old(bodySet.bodies)[handle := BodyAfterTick(
                 p, old(bodySet.bodies[handle]), look,
                 AccelFromPlayer(p, camera.enableKeyboard, camera.acceleration, transform.rotation, input),
                 camera.targetSpeed, camera.jumpPower, input)]
    ensures state.motion == if old(camera.enableMouse) then [] else old(state.motion)
  {
    LockRotation(p, camera, state, dt, handle, bodySet);
    DriveBody(p, camera, transform, handle, bodySet, input);
  }

  // ---------------------------------------------------------------------
  // Cursor capture (`toggle_cursor`).

  /** Whether mouse look and keyboard movement are enabled. */
  datatype Controls = Controls(mouse: bool, keyboard: bool)

  /** Both flags flip when Escape was just pressed, and nothing changes otherwise. */
  function Toggle(c: Controls, escapeJustPressed: bool): (r: Controls)
    ensures escapeJustPressed ==> r.mouse != c.mouse && r.keyboard != c.keyboard
    ensures !escapeJustPressed ==> r == c
  {
    if escapeJustPressed then Controls(!c.mouse, !c.keyboard) else c
  }

  /** The controls after one `toggle_cursor` call per frame, `presses[i]` telling whether Escape was just pressed. */
  function ToggleFrames(c: Controls, presses: seq<bool>): Controls
    decreases |presses|
  {
    if presses == [] then c else ToggleFrames(Toggle(c, presses[0]), presses[1..])
  }

  function PressCount(presses: seq<bool>): nat
    decreases |presses|
  {
    if presses == [] then 0 else (if presses[0] then 1 else 0) + PressCount(presses[1..])
  }

  /** Two presses restore both flags. */
  lemma ToggleTwiceRestores(c: Controls)
    ensures Toggle(Toggle(c, true), true) == c
  {
  }

  /**
   * Over any run of frames the controls are flipped exactly when Escape was
   * pressed an odd number of times, and the two flags stay equal if they
   * started equal.
   */
  lemma {:induction false} ToggleParity(c: Controls, presses: seq<bool>)
    ensures ToggleFrames(c, presses) == if PressCount(presses) % 2 == 0 then c else Controls(!c.mouse, !c.keyboard)
    decreases |presses|
  {
    if presses != [] {
      ToggleParity(Toggle(c, presses[0]), presses[1..]);
    }
  }

  /** `toggle_cursor` (the window's cursor lock and visibility are not modelled). */
  method ToggleCursor(input: KeyInput, camera: FPSCamera)
    requires camera.Valid()
    modifies camera`enableMouse, camera`enableKeyboard
    ensures camera.Valid()
    ensures Controls(camera.enableMouse, camera.enableKeyboard) ==
            Toggle(Controls(old(camera.enableMouse), old(camera.enableKeyboard)), Escape in input.justPressed)
  {
    if Escape in input.justPressed {
      camera.enableMouse := !camera.enableMouse;
      camera.enableKeyboard := !camera.enableKeyboard;
    }
  }

  // ---------------------------------------------------------------------
  // Spawning (`mouse_click_system`).

  const LeftPress: MouseButtonInput := MouseButtonInput(Left, Pressed)

  /**
   * The cube one left press spawns: one unit ahead of the camera along its
   * forward vector, moving along it at `MuzzleSpeed`.
   */
  function Launch(p: Primitives, transform: Transform): (r: Projectile)
    requires p.Lawful()
    ensures r.linvel == Scale(p.forwardVector(transform.rotation), MuzzleSpeed)
    ensures r.translation == Add(transform.translation, p.forwardVector(transform.rotation))
  {
    var forward := Scale(p.forwardVector(transform.rotation), MuzzleSpeed);
    ForwardIsUnit(p, transform.rotation);
    NormalizeMuzzle(p, p.forwardVector(transform.rotation));
    Projectile(Add(transform.translation, Normalize(p, forward)), forward)
  }

  /** Normalizing a scaled unit vector gives the unit vector back. */
  lemma NormalizeMuzzle(p: Primitives, u: Vec3)
    requires p.Lawful() && p.magnitude(u) == 1.0
    ensures Scale(u, MuzzleSpeed) != Zero
    ensures Normalize(p, Scale(u, MuzzleSpeed)) == u
  {
    MagnitudeScale(p, u, MuzzleSpeed);
    if Scale(u, MuzzleSpeed) == Zero {
      MagnitudeOfZero(p);
    }
  }

  /**
   * The loop of `mouse_click_system`: one cube per left-button press event,
   * and none for any other event. Whether mouse look is enabled plays no part.
   */
  method SpawnProjectiles(p: Primitives, events: seq<MouseButtonInput>, transform: Transform)
    returns (spawned: seq<Projectile>)
    requires p.Lawful()
    ensures |spawned| == multiset(events)[LeftPress]
    ensures forall i :: 0 <= i < |spawned| ==> spawned[i] == Launch(p, transform)
  {
    spawned := [];
    for i := 0 to |events|
      invariant |spawned| == multiset(events[..i])[LeftPress]
      invariant forall k :: 0 <= k < |spawned| ==> spawned[k] == Launch(p, transform)
    {
      assert events[..i + 1] == events[..i] + [events[i]];
      if events[i].state == Pressed && events[i].button == Left {
        spawned := spawned + [Launch(p, transform)];
      }
    }
    assert events[..|events|] == events;
  }

  /** `mouse_click_system`: reads every queued button event and spawns for the left presses. */
  method MouseClickSystem(p: Primitives, state: MouseState, transform: Transform) returns (spawned: seq<Projectile>)
    requires p.Lawful()
    modifies state`buttons
    ensures state.buttons == []
    ensures |spawned| == multiset(old(state.buttons))[LeftPress]
    ensures forall i :: 0 <= i < |spawned| ==> spawned[i] == Launch(p, transform)
  {
    spawned := SpawnProjectiles(p, state.buttons, transform);
    state.buttons := [];
  }
}
