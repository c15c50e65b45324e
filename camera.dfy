/** The camera positioners (struct Camera): a damped orbit/fly camera driven by mouse look and
    movement flags, a UI camera that chases a desired position and Euler orientation, and the
    camera_t handle that forwards queries to one of them. */
module Camera {
  import opened GlmModel
  import opened AngleProcUtils

  /** std::min(a, b): `b` when `b < a`, otherwise `a`. */
  function Min(a: real, b: real): (r: real)
    ensures r <= a && r <= b
    ensures r == a || r == b
  {
    if b < a then b else a
  }

  // ---------------------------------------------------------------------------------------------
  // UI camera: exponential smoothing of position and Euler angles

  /** One smoothing step of the position: `p + rate * dt * (desired - p)`. */
  function SmoothStep(p: Vec3, desired: Vec3, rate: real, dt: real): Vec3 {
    Add(p, Scale(rate * dt, Sub(desired, p)))
  }

  /** What remains to travel after a step is the old remainder scaled by `1 - rate * dt`. */
  lemma SmoothStepRemainder(p: Vec3, desired: Vec3, rate: real, dt: real)
    ensures Sub(desired, SmoothStep(p, desired, rate, dt)) == Scale(1.0 - rate * dt, Sub(desired, p))
  {
  }

  /** A camera already at its desired position stays there. */
  lemma SmoothStepAtRest(p: Vec3, rate: real, dt: real)
    ensures SmoothStep(p, p, rate, dt) == p
  {
  }

  /** With `0 < rate * dt < 1` the distance to the desired position strictly decreases, and the
      step does not overshoot: the new remainder points the same way as the old one. */
  lemma SmoothStepApproaches(p: Vec3, desired: Vec3, rate: real, dt: real)
    requires 0.0 < rate * dt < 1.0
    requires p != desired
    ensures NormSq(Sub(desired, SmoothStep(p, desired, rate, dt))) < NormSq(Sub(desired, p))
    ensures exists s: real :: 0.0 < s < 1.0 &&
              Sub(desired, SmoothStep(p, desired, rate, dt)) == Scale(s, Sub(desired, p))
  {
    var s := 1.0 - rate * dt;
    SmoothStepRemainder(p, desired, rate, dt);
    assert Sub(desired, p) != Zero;
    ScaleShrinks(s, Sub(desired, p));
  }

  /** The angle part of UICameraPositioner::update: fold both triples, move the current one
      against `angle_delta` scaled per axis by the damping and by `dt`, fold again. */
  function AngleStep(current: Vec3, desired: Vec3, damping: Vec3, dt: real): Vec3 {
    var c := ClipAngles(current);
    var d := ClipAngles(desired);
    ClipAngles(Sub(c, Scale(dt, Hadamard(AngleDelta(c, d), damping))))
  }

  /** When the current angles already equal the desired ones, a step leaves them folded but
      otherwise in place. */
  lemma AngleStepAtRest(angles: Vec3, damping: Vec3, dt: real)
    ensures AngleStep(angles, angles, damping, dt) == ClipAngles(angles)
  {
    var c := ClipAngles(angles);
    assert AngleDelta(c, c) == Zero;
    assert Sub(c, Scale(dt, Hadamard(Zero, damping))) == c;
  }

  /** The view transform the UI camera caches: yawPitchRoll(pan, pitch, roll) translated by
      minus the position. The stored triple is (pitch, pan, roll), so pan supplies the yaw. */
  function UIViewTransform(angles: Vec3, position: Vec3): Mat4 {
    Translate(YawPitchRoll(angles.y, angles.x, angles.z), Neg(position))
  }

  class UICameraPositioner {
    var dampingLinear: real
    var dampingEulerAngles: Vec3
    var positionCurrent: Vec3
    var positionDesired: Vec3
    var anglesCurrent: Vec3   // pitch, pan, roll
    var anglesDesired: Vec3
    var currentTransform: Mat4

    constructor (cameraPos: Vec3, angles: Vec3)
      ensures positionCurrent == cameraPos && positionDesired == cameraPos
      ensures anglesCurrent == angles && anglesDesired == angles
      ensures dampingLinear == 10.0 && dampingEulerAngles == Vec3(5.0, 5.0, 5.0)
      ensures GetViewMatrix() == Identity
    {
      dampingLinear := 10.0;
      dampingEulerAngles := Vec3(5.0, 5.0, 5.0);
      positionCurrent := cameraPos;
      positionDesired := cameraPos;
      anglesCurrent := angles;
      anglesDesired := angles;
      currentTransform := Identity;
    }

    function GetPosition(): Vec3
      reads this
    {
      positionCurrent
    }

    /** The transform cached by the latest update, not recomputed from the current state. */
    function GetViewMatrix(): Mat4
      reads this
    {
      currentTransform
    }

    /** One frame. The mouse arguments are accepted and ignored. */
    method Update(deltaSec: real, mousePos: Vec2, mousePressed: bool)
      modifies this
      ensures positionCurrent == SmoothStep(old(positionCurrent), old(positionDesired), dampingLinear, deltaSec)
      ensures positionDesired == old(positionDesired)
      ensures anglesDesired == ClipAngles(old(anglesDesired))
      ensures anglesCurrent == AngleStep(old(anglesCurrent), old(anglesDesired), dampingEulerAngles, deltaSec)
      ensures Folded(anglesCurrent) && Folded(anglesDesired)
      ensures GetViewMatrix() == UIViewTransform(anglesCurrent, positionCurrent)
      ensures dampingLinear == old(dampingLinear) && dampingEulerAngles == old(dampingEulerAngles)
    {
      StepPosition(deltaSec);
      StepAngles(deltaSec);
      currentTransform := Translate(YawPitchRoll(anglesCurrent.y, anglesCurrent.x, anglesCurrent.z), Neg(positionCurrent));
    }

    /** The position part of update: move a `damping_linear_ * dt` share of the way to the
        desired position. */
    method StepPosition(deltaSec: real)
      modifies this`positionCurrent
      ensures positionCurrent == SmoothStep(old(positionCurrent), positionDesired, dampingLinear, deltaSec)
    {
      positionCurrent := Add(positionCurrent, Scale(dampingLinear * deltaSec, Sub(positionDesired, positionCurrent)));
    }

    /** The angle part of update: fold both triples, step the current one against the delta,
        fold it again. */
    method StepAngles(deltaSec: real)
      modifies this`anglesCurrent, this`anglesDesired
      ensures anglesDesired == ClipAngles(old(anglesDesired))
      ensures anglesCurrent == AngleStep(old(anglesCurrent), old(anglesDesired), dampingEulerAngles, deltaSec)
      ensures Folded(anglesCurrent) && Folded(anglesDesired)
    {
      anglesCurrent := ClipAngles(anglesCurrent);
      anglesDesired := ClipAngles(anglesDesired);
      anglesCurrent := Sub(anglesCurrent, Scale(deltaSec, Hadamard(AngleDelta(anglesCurrent, anglesDesired), dampingEulerAngles)));
      anglesCurrent := ClipAngles(anglesCurrent);
    }

    method SetPosition(cameraPos: Vec3)
      modifies this`positionCurrent
      ensures positionCurrent == cameraPos
    {
      positionCurrent := cameraPos;
    }

    method SetAngles(pitch: real, pan: real, roll: real)
      modifies this`anglesCurrent
      ensures anglesCurrent == Vec3(pitch, pan, roll)
    {
      anglesCurrent := Vec3(pitch, pan, roll);
    }

    method SetAnglesVec(angles: Vec3)
      modifies this`anglesCurrent
      ensures anglesCurrent == angles
    {
      anglesCurrent := angles;
    }

    method SetDesiredPosition(cameraPos: Vec3)
      modifies this`positionDesired
      ensures positionDesired == cameraPos
    {
      positionDesired := cameraPos;
    }

    method SetDesiredAngles(pitch: real, pan: real, roll: real)
      modifies this`anglesDesired
      ensures anglesDesired == Vec3(pitch, pan, roll)
    {
      anglesDesired := Vec3(pitch, pan, roll);
    }

    method SetDesiredAnglesVec(angles: Vec3)
      modifies this`anglesDesired
      ensures anglesDesired == angles
    {
      anglesDesired := angles;
    }
  }

  // ---------------------------------------------------------------------------------------------
  // Orbit camera: mouse look, movement flags, damped and clamped velocity

  /** The held movement keys (movement_t). */
  datatype Movement = Movement(
    forward: bool, backward: bool, left: bool, right: bool, up: bool, down: bool, fastSpeed: bool)

  const NoMovement: Movement := Movement(false, false, false, false, false, false, false)

  /** The forward axis of an orientation: minus the third row of its rotation matrix. */
  function Forward(glm: Glm, q: Quat): Vec3 { Neg(glm.row(FromQuat(q), 2)) }

  /** The right axis of an orientation: the first row of its rotation matrix. */
  function Right(glm: Glm, q: Quat): Vec3 { glm.row(FromQuat(q), 0) }

  /** The acceleration summed from the held keys, in the order the source adds them,
      then scaled by the fast coefficient when the fast key is held. */
  function AccelOf(mv: Movement, forward: Vec3, right: Vec3, up: Vec3, fastCoef: real): Vec3 {
    var a1 := if mv.forward then Add(Zero, forward) else Zero;
    var a2 := if mv.backward then Sub(a1, forward) else a1;
    var a3 := if mv.left then Sub(a2, right) else a2;
    var a4 := if mv.right then Add(a3, right) else a3;
    var a5 := if mv.up then Add(a4, up) else a4;
    var a6 := if mv.down then Sub(a5, up) else a5;
    if mv.fastSpeed then Scale(fastCoef, a6) else a6
  }

  /** Keys held in opposing pairs (or not at all) cancel exactly, whatever the basis. */
  lemma AccelOfCancels(mv: Movement, forward: Vec3, right: Vec3, up: Vec3, fastCoef: real)
    requires mv.forward == mv.backward && mv.left == mv.right && mv.up == mv.down
    ensures AccelOf(mv, forward, right, up, fastCoef) == Zero
  {
  }

  /** A single held direction key accelerates along that axis (scaled when fast). */
  lemma AccelOfForward(mv: Movement, forward: Vec3, right: Vec3, up: Vec3, fastCoef: real)
    requires mv.forward && !mv.backward && !mv.left && !mv.right && !mv.up && !mv.down
    ensures AccelOf(mv, forward, right, up, fastCoef) == (if mv.fastSpeed then Scale(fastCoef, forward) else forward)
  {
  }

  /** The fraction of the velocity removed by one deceleration step: `min((1 / damping) * dt, 1)`. */
  function DecayFraction(dt: real, damping: real): real
    requires damping != 0.0
  {
    Min((1.0 / damping) * dt, 1.0)
  }

  /** With a positive damping and a non-negative step the fraction lies in [0, 1], and it is
      exactly 1 once the step lasts at least `damping` seconds. */
  lemma DecayFractionRange(dt: real, damping: real)
    requires 0.0 < damping
    ensures 0.0 <= dt ==> 0.0 <= DecayFraction(dt, damping) <= 1.0
    ensures damping <= dt ==> DecayFraction(dt, damping) == 1.0
  {
    var inv := 1.0 / damping;
    assert 0.0 < inv;
    if 0.0 <= dt {
      calc { inv * dt; >= inv * 0.0; 0.0; }
    }
    if damping <= dt {
      calc { inv * dt; >= inv * damping; == 1.0; }
    }
  }

  /** The deceleration branch: `v -= v * min((1 / damping) * dt, 1)`. */
  function Decelerated(v: Vec3, dt: real, damping: real): Vec3
    requires damping != 0.0
  {
    Sub(v, Scale(DecayFraction(dt, damping), v))
  }

  /** Decelerating scales the velocity by `1 - min(dt / damping, 1)`; with a positive damping
      and a non-negative step that factor is within [0, 1], so the speed never grows and the
      velocity never reverses, and a step of at least `damping` seconds stops the camera. */
  lemma DeceleratedScales(v: Vec3, dt: real, damping: real)
    requires damping != 0.0
    ensures Decelerated(v, dt, damping) == Scale(1.0 - DecayFraction(dt, damping), v)
    ensures 0.0 < damping <= dt ==> Decelerated(v, dt, damping) == Zero
    ensures 0.0 < damping && 0.0 <= dt ==> NormSq(Decelerated(v, dt, damping)) <= NormSq(v)
  {
    var f := DecayFraction(dt, damping);
    SubScaled(f, v);
    if 0.0 < damping {
      DecayFractionRange(dt, damping);
      if 0.0 <= dt {
        ScaleShrinks(1.0 - f, v);
      }
    }
  }

  /** `glm::length(v) > m`, stated without a square root. */
  predicate LongerThan(v: Vec3, m: real) {
    m < 0.0 || NormSq(v) > Sq(m)
  }

  /** The speed limit in force: scaled up by the fast coefficient while the fast key is held. */
  function SpeedLimit(mv: Movement, maxSpeed: real, fastCoef: real): real {
    if mv.fastSpeed then maxSpeed * fastCoef else maxSpeed
  }

  /** The clamp of the acceleration branch: a velocity longer than the limit is replaced by
      one of the limit's length along the same direction (`normalize(v) * limit`). */
  function Clamped(glm: Glm, v: Vec3, limit: real): Vec3 {
    if LongerThan(v, limit) then Scale(limit, glm.normalize(v)) else v
  }

  /** After clamping the speed is at most the limit. */
  lemma ClampedBounded(glm: Glm, v: Vec3, limit: real)
    requires Lawful(glm)
    requires 0.0 <= limit
    ensures NormSq(Clamped(glm, v, limit)) <= Sq(limit)
    ensures !LongerThan(v, limit) ==> Clamped(glm, v, limit) == v
  {
    if LongerThan(v, limit) {
      SquarePositive(limit);
      NormSqZero(v);
      assert v != Zero;
      ScaleUnit(limit, glm.normalize(v));
    }
  }

  /** The acceleration branch: integrate `accel * rate * dt` into the velocity, then clamp. */
  function Accelerated(glm: Glm, v: Vec3, accel: Vec3, rate: real, dt: real, limit: real): Vec3 {
    Clamped(glm, Integrated(v, accel, rate, dt), limit)
  }

  /** `v + accel * rate * dt`, before the clamp. */
  function Integrated(v: Vec3, accel: Vec3, rate: real, dt: real): Vec3 {
    Add(v, Scale(rate * dt, accel))
  }

  /** After the acceleration branch the speed is at most the limit. */
  lemma AcceleratedBounded(glm: Glm, v: Vec3, accel: Vec3, rate: real, dt: real, limit: real)
    requires Lawful(glm)
    requires 0.0 <= limit
    ensures NormSq(Accelerated(glm, v, accel, rate, dt, limit)) <= Sq(limit)
  {
    ClampedBounded(glm, Integrated(v, accel, rate, dt), limit);
  }

  /** The orientation after a pressed-mouse frame: rotate by the mouse delta, renormalize,
      then re-derive a look-at orientation with the stored up vector (set_up_vector). */
  function MouseLook(glm: Glm, q: Quat, delta: Vec2, mouseSpeed: real, position: Vec3, up: Vec3): Quat {
    var deltaQuat := glm.eulerQuat(MouseEuler(delta, mouseSpeed));
    var rotated := glm.normalizeQuat(QuatMul(deltaQuat, q));
    UpRighted(glm, OrbViewMatrix(rotated, position), position, up)
  }

  /** The Euler angles of the incremental mouse rotation: pitch from the vertical motion,
      yaw from the horizontal motion, no roll. */
  function MouseEuler(delta: Vec2, mouseSpeed: real): Vec3 {
    Vec3(mouseSpeed * delta.y, mouseSpeed * delta.x, 0.0)
  }

  /** set_up_vector: look from `position` along the forward axis of `view`, with `up` as up. */
  function UpRighted(glm: Glm, view: Mat4, position: Vec3, up: Vec3): Quat {
    var dir := Neg(glm.row(view, 2));
    glm.quatOf(LookAt(position, Add(position, dir), up))
  }

  /** The orbit camera's view matrix: its rotation times a translation by minus its position. */
  function OrbViewMatrix(q: Quat, position: Vec3): Mat4 {
    Product(FromQuat(q), Translate(Identity, Neg(position)))
  }

  class OrbCameraPositioner {
    const glm: Glm
    var movement: Movement
    var mouseSpeed: real
    var acceleration: real
    var damping: real
    var maxSpeed: real
    var fastCoef: real
    var mousePosition: Vec2
    var cameraPosition: Vec3
    var cameraOrientation: Quat
    var moveSpeed: Vec3
    var up: Vec3

    /** Every tuning value and every piece of state at its declared default. */
    constructor Default(glm: Glm)
      ensures this.glm == glm && movement == NoMovement
      ensures mouseSpeed == 4.0 && acceleration == 150.0 && damping == 0.2
      ensures maxSpeed == 10.0 && fastCoef == 10.0
      ensures mousePosition == Vec2(0.0, 0.0) && cameraPosition == Vec3(0.0, 10.0, 10.0)
      ensures cameraOrientation == glm.eulerQuat(Zero) && moveSpeed == Zero
      ensures up == Vec3(0.0, 0.0, 1.0)
    {
      this.glm := glm;
      movement := NoMovement;
      mouseSpeed, acceleration, damping, maxSpeed, fastCoef := 4.0, 150.0, 0.2, 10.0, 10.0;
      mousePosition := Vec2(0.0, 0.0);
      cameraPosition := Vec3(0.0, 10.0, 10.0);
      cameraOrientation := glm.eulerQuat(Zero);
      moveSpeed := Zero;
      up := Vec3(0.0, 0.0, 1.0);
    }

    /** Placed at `cameraPos`, looking at `target`, with `upDir` kept as the up vector. */
    constructor (glm: Glm, cameraPos: Vec3, target: Vec3, upDir: Vec3)
      ensures this.glm == glm && movement == NoMovement
      ensures mouseSpeed == 4.0 && acceleration == 150.0 && damping == 0.2
      ensures maxSpeed == 10.0 && fastCoef == 10.0
      ensures mousePosition == Vec2(0.0, 0.0) && cameraPosition == cameraPos
      ensures cameraOrientation == glm.quatOf(LookAt(cameraPos, target, upDir)) && moveSpeed == Zero
      ensures up == upDir
    {
      this.glm := glm;
      movement := NoMovement;
      mouseSpeed, acceleration, damping, maxSpeed, fastCoef := 4.0, 150.0, 0.2, 10.0, 10.0;
      mousePosition := Vec2(0.0, 0.0);
      cameraPosition := cameraPos;
      cameraOrientation := glm.quatOf(LookAt(cameraPos, target, upDir));
      moveSpeed := Zero;
      up := upDir;
    }

    function GetPosition(): Vec3
      reads this
    {
      cameraPosition
    }

    function GetViewMatrix(): Mat4
      reads this
    {
      OrbViewMatrix(cameraOrientation, cameraPosition)
    }

    /** One frame: mouse look when pressed, then velocity and position integration. */
    method Update(deltaSec: real, mousePos: Vec2, mousePressed: bool)
      requires damping != 0.0
      modifies this
      ensures movement == old(movement) && up == old(up)
      ensures mouseSpeed == old(mouseSpeed) && acceleration == old(acceleration) && damping == old(damping)
      ensures maxSpeed == old(maxSpeed) && fastCoef == old(fastCoef)
      ensures mousePosition == mousePos
      ensures cameraOrientation ==
                if mousePressed
                then MouseLook(glm, old(cameraOrientation), Sub2(mousePos, old(mousePosition)), mouseSpeed, old(cameraPosition), up)
                else old(cameraOrientation)
      ensures var forward := Forward(glm, cameraOrientation);
              var right := Right(glm, cameraOrientation);
              var accel := AccelOf(movement, forward, right, Cross(right, forward), fastCoef);
              moveSpeed == if accel == Zero then Decelerated(old(moveSpeed), deltaSec, damping)
                           else Accelerated(glm, old(moveSpeed), accel, acceleration, deltaSec, SpeedLimit(movement, maxSpeed, fastCoef))
      ensures cameraPosition == Add(old(cameraPosition), Scale(deltaSec, moveSpeed))
    {
      Look(mousePos, mousePressed);

      var v := FromQuat(cameraOrientation);
      var forward := Neg(glm.row(v, 2));
      var right := glm.row(v, 0);
      var upAxis := Cross(right, forward);

      var accel := SumAcceleration(forward, right, upAxis);
      ChangeSpeed(accel, deltaSec);

      cameraPosition := Add(cameraPosition, Scale(deltaSec, moveSpeed));
    }

    /** The mouse part of update: rotate only while the button is pressed, but record the
        mouse position on every call so the next press starts from a fresh sample. */
    method Look(mousePos: Vec2, mousePressed: bool)
      modifies this`cameraOrientation, this`mousePosition
      ensures mousePosition == mousePos
      ensures cameraOrientation ==
                if mousePressed
                then MouseLook(glm, old(cameraOrientation), Sub2(mousePos, old(mousePosition)), mouseSpeed, cameraPosition, up)
                else old(cameraOrientation)
    {
      if mousePressed {
        var delta := Sub2(mousePos, mousePosition);
        var deltaQuat := glm.eulerQuat(MouseEuler(delta, mouseSpeed));
        cameraOrientation := QuatMul(deltaQuat, cameraOrientation);
        cameraOrientation := glm.normalizeQuat(cameraOrientation);
        assert GetViewMatrix() == OrbViewMatrix(cameraOrientation, cameraPosition);
        SetUpVector(up);
      }
      mousePosition := mousePos;
    }

    /** The velocity part of update: decelerate when the summed acceleration is exactly zero,
        otherwise integrate it and clamp to the speed limit in force. */
    method ChangeSpeed(accel: Vec3, deltaSec: real)
      requires damping != 0.0
      modifies this`moveSpeed
      ensures moveSpeed == if accel == Zero then Decelerated(old(moveSpeed), deltaSec, damping)
                           else Accelerated(glm, old(moveSpeed), accel, acceleration, deltaSec, SpeedLimit(movement, maxSpeed, fastCoef))
    {
      if accel == Zero {
        Decelerate(deltaSec);
      } else {
        Accelerate(accel, deltaSec);
      }
    }

    /** Natural deceleration according to the damping value. */
    method Decelerate(deltaSec: real)
      requires damping != 0.0
      modifies this`moveSpeed
      ensures moveSpeed == Decelerated(old(moveSpeed), deltaSec, damping)
    {
      moveSpeed := Sub(moveSpeed, Scale(Min((1.0 / damping) * deltaSec, 1.0), moveSpeed));
    }

    /** Acceleration, then the clamp to the speed limit in force. */
    method Accelerate(accel: Vec3, deltaSec: real)
      modifies this`moveSpeed
      ensures moveSpeed == Accelerated(glm, old(moveSpeed), accel, acceleration, deltaSec, SpeedLimit(movement, maxSpeed, fastCoef))
    {
      var v := Integrated(moveSpeed, accel, acceleration, deltaSec);
      var limit := SpeedLimit(movement, maxSpeed, fastCoef);
      if LongerThan(v, limit) {
        v := Scale(limit, glm.normalize(v));
      }
      moveSpeed := v;
    }

    /** The local `accel` of update, built by the source's sequence of conditional `+=`. */
    method SumAcceleration(forward: Vec3, right: Vec3, upAxis: Vec3) returns (accel: Vec3)
      ensures accel == AccelOf(movement, forward, right, upAxis, fastCoef)
    {
      accel := Zero;
      if movement.forward { accel := Add(accel, forward); }
      if movement.backward { accel := Sub(accel, forward); }
      if movement.left { accel := Sub(accel, right); }
      if movement.right { accel := Add(accel, right); }
      if movement.up { accel := Add(accel, upAxis); }
      if movement.down { accel := Sub(accel, upAxis); }
      if movement.fastSpeed { accel := Scale(fastCoef, accel); }
    }

    method SetPosition(cameraPos: Vec3)
      modifies this`cameraPosition
      ensures cameraPosition == cameraPos
    {
      cameraPosition := cameraPos;
    }

    method ResetMousePosition(mousePos: Vec2)
      modifies this`mousePosition
      ensures mousePosition == mousePos
    {
      mousePosition := mousePos;
    }

    /** Re-derives the orientation as a look-at along the current forward axis with `upDir`
        as up; the stored up vector is not changed. */
    method SetUpVector(upDir: Vec3)
      modifies this`cameraOrientation
      ensures cameraOrientation == UpRighted(glm, old(GetViewMatrix()), cameraPosition, upDir)
    {
      var view := GetViewMatrix();
      var dir := Neg(glm.row(view, 2));
      cameraOrientation := glm.quatOf(LookAt(cameraPosition, Add(cameraPosition, dir), upDir));
    }

    method LookAtTarget(cameraPos: Vec3, target: Vec3, upDir: Vec3)
      modifies this`cameraPosition, this`cameraOrientation
      ensures cameraPosition == cameraPos
      ensures cameraOrientation == glm.quatOf(LookAt(cameraPos, target, upDir))
    {
      cameraPosition := cameraPos;
      cameraOrientation := glm.quatOf(LookAt(cameraPos, target, upDir));
    }
  }

  // ---------------------------------------------------------------------------------------------
  // Properties of one orbit-camera frame, stated over the functions Update is specified by

  /** A frame with no keys held (or only opposing ones) takes the deceleration branch; a camera
      at rest then stays exactly where it is, whatever the step. */
  lemma IdleFrameAtRest(glm: Glm, mv: Movement, q: Quat, fastCoef: real, dt: real, damping: real, p: Vec3)
    requires mv.forward == mv.backward && mv.left == mv.right && mv.up == mv.down
    requires damping != 0.0
    ensures AccelOf(mv, Forward(glm, q), Right(glm, q), Cross(Right(glm, q), Forward(glm, q)), fastCoef) == Zero
    ensures Decelerated(Zero, dt, damping) == Zero
    ensures Add(p, Scale(dt, Decelerated(Zero, dt, damping))) == p
  {
    AccelOfCancels(mv, Forward(glm, q), Right(glm, q), Cross(Right(glm, q), Forward(glm, q)), fastCoef);
  }

  /** On the acceleration branch the new velocity respects the speed limit in force. */
  lemma AcceleratingFrameBounded(glm: Glm, mv: Movement, v: Vec3, accel: Vec3, rate: real, dt: real,
                                 maxSpeed: real, fastCoef: real)
    requires Lawful(glm)
    requires 0.0 <= SpeedLimit(mv, maxSpeed, fastCoef)
    ensures NormSq(Accelerated(glm, v, accel, rate, dt, SpeedLimit(mv, maxSpeed, fastCoef)))
            <= Sq(SpeedLimit(mv, maxSpeed, fastCoef))
    ensures mv.fastSpeed ==> SpeedLimit(mv, maxSpeed, fastCoef) == maxSpeed * fastCoef
    ensures !mv.fastSpeed ==> SpeedLimit(mv, maxSpeed, fastCoef) == maxSpeed
  {
    AcceleratedBounded(glm, v, accel, rate, dt, SpeedLimit(mv, maxSpeed, fastCoef));
  }

  // ---------------------------------------------------------------------------------------------
  // camera_t: a copyable handle that forwards to the positioner chosen at construction

  datatype Positioner = Orb(orb: OrbCameraPositioner) | UI(ui: UICameraPositioner)

  datatype CameraHandle = CameraHandle(positioner: Positioner) {
    function Target(): object {
      match positioner
      case Orb(o) => o
      case UI(u) => u
    }

    function GetViewMatrix(): (m: Mat4)
      reads Target()
      ensures positioner.Orb? ==> m == OrbViewMatrix(positioner.orb.cameraOrientation, positioner.orb.cameraPosition)
      ensures positioner.UI? ==> m == positioner.ui.currentTransform
    {
      match positioner
      case Orb(o) => o.GetViewMatrix()
      case UI(u) => u.GetViewMatrix()
    }

    function GetPosition(): (p: Vec3)
      reads Target()
      ensures positioner.Orb? ==> p == positioner.orb.cameraPosition
      ensures positioner.UI? ==> p == positioner.ui.positionCurrent
    {
      match positioner
      case Orb(o) => o.GetPosition()
      case UI(u) => u.GetPosition()
    }
  }
}
