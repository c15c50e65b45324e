/** Angle folding used by the UI camera (struct AngleProcUtils). Angles are in degrees. */
module AngleProcUtils {
  import opened GlmModel

  /** Conversion of a quotient to an integer toward zero, as C's fmod does. */
  function Trunc(x: real): (t: int)
    ensures 0.0 <= x ==> 0 <= t && t as real <= x < t as real + 1.0
    ensures x < 0.0 ==> t <= 0 && t as real - 1.0 < x <= t as real
  {
    if x >= 0.0 then x.Floor else -((-x).Floor)
  }

  /** `d` is a whole number of turns (a multiple of 360 degrees). */
  predicate WholeTurns(d: real) {
    (d / 360.0).Floor as real == d / 360.0
  }

  lemma WholeTurnsOf(k: int)
    ensures WholeTurns(360.0 * k as real)
  {
    assert (360.0 * k as real) / 360.0 == k as real;
  }

  lemma WholeTurnsSum(a: real, b: real)
    requires WholeTurns(a) && WholeTurns(b)
    ensures WholeTurns(a + b) && WholeTurns(a - b)
  {
    var ka, kb := (a / 360.0).Floor, (b / 360.0).Floor;
    assert a == 360.0 * ka as real && b == 360.0 * kb as real;
    WholeTurnsOf(ka + kb);
    WholeTurnsOf(ka - kb);
  }

  /** std::fmod(x, 360.0f): the remainder of a division truncated toward zero. */
  function Fmod360(x: real): (r: real)
    ensures -360.0 < r < 360.0
    ensures 0.0 <= x ==> 0.0 <= r
    ensures x <= 0.0 ==> r <= 0.0
    ensures WholeTurns(x - r)
    ensures -360.0 < x < 360.0 ==> r == x
  {
    var t := Trunc(x / 360.0);
    WholeTurnsOf(t);
    x - 360.0 * t as real
  }

  /** A component that folding leaves alone is exactly one strictly inside (-360, 360). */
  lemma Fmod360FixedIff(x: real)
    ensures Fmod360(x) == x <==> -360.0 < x < 360.0
  {
  }

  lemma Fmod360Idempotent(x: real)
    ensures Fmod360(Fmod360(x)) == Fmod360(x)
  {
  }

  /** AngleProcUtils::clip_angle: a single correction by one turn, not a full modulo. */
  function ClipAngle(d: real): (r: real)
    ensures WholeTurns(r - d)
    ensures -180.0 <= d <= 180.0 ==> r == d
    ensures -540.0 <= d <= 540.0 ==> -180.0 <= r <= 180.0
    ensures -720.0 < d < 720.0 ==> -360.0 < r < 360.0
  {
    if d < -180.0 then
      WholeTurnsOf(1);
      d + 360.0
    else if d > 180.0 then
      WholeTurnsOf(-1);
      d - 360.0
    else
      WholeTurnsOf(0);
      d
  }

  lemma ClipAngleExamples()
    ensures ClipAngle(190.0) == -170.0
    ensures ClipAngle(-190.0) == 170.0
    ensures ClipAngle(-180.0) == -180.0 && ClipAngle(180.0) == 180.0
    ensures ClipAngle(0.0) == 0.0
  {
  }

  /** Every component of `v` lies strictly inside (-360, 360), which is what fmod by 360 yields. */
  predicate Folded(v: Vec3) {
    -360.0 < v.x < 360.0 && -360.0 < v.y < 360.0 && -360.0 < v.z < 360.0
  }

  /** Each component of `r` differs from the same component of `v` by whole turns. */
  predicate SameTurns(r: Vec3, v: Vec3) {
    WholeTurns(r.x - v.x) && WholeTurns(r.y - v.y) && WholeTurns(r.z - v.z)
  }

  /** AngleProcUtils::clip_angles: fmod by 360 component by component. */
  function ClipAngles(angles: Vec3): (r: Vec3)
    ensures Folded(r)
    ensures SameTurns(angles, r)
    ensures Folded(angles) ==> r == angles
  {
    Vec3(Fmod360(angles.x), Fmod360(angles.y), Fmod360(angles.z))
  }

  lemma ClipAnglesIdempotent(angles: Vec3)
    ensures ClipAngles(ClipAngles(angles)) == ClipAngles(angles)
  {
  }

  /** One correction by a turn brings `d` into [-180, 180]. */
  predicate WithinHalfTurn(d: real) {
    -540.0 <= d <= 540.0
  }

  /** AngleProcUtils::angle_delta: current minus desired after folding both, each
      component then corrected once by clip_angle. */
  function AngleDelta(current: Vec3, desired: Vec3): (r: Vec3)
    ensures Folded(r)
    ensures SameTurns(r, Sub(current, desired))
  {
    var c, d := ClipAngles(current), ClipAngles(desired);
    var r := Vec3(ClipAngle(c.x - d.x), ClipAngle(c.y - d.y), ClipAngle(c.z - d.z));
    WholeTurnsSum(current.x - c.x, desired.x - d.x);
    WholeTurnsSum(r.x - (c.x - d.x), (current.x - c.x) - (desired.x - d.x));
    WholeTurnsSum(current.y - c.y, desired.y - d.y);
    WholeTurnsSum(r.y - (c.y - d.y), (current.y - c.y) - (desired.y - d.y));
    WholeTurnsSum(current.z - c.z, desired.z - d.z);
    WholeTurnsSum(r.z - (c.z - d.z), (current.z - c.z) - (desired.z - d.z));
    r
  }

  /** A component whose folded difference is within 540 degrees comes out in [-180, 180];
      the shortest-turn reading of the delta holds only then. */
  lemma AngleDeltaHalfTurn(current: Vec3, desired: Vec3)
    ensures WithinHalfTurn(Fmod360(current.x) - Fmod360(desired.x)) ==> -180.0 <= AngleDelta(current, desired).x <= 180.0
    ensures WithinHalfTurn(Fmod360(current.y) - Fmod360(desired.y)) ==> -180.0 <= AngleDelta(current, desired).y <= 180.0
    ensures WithinHalfTurn(Fmod360(current.z) - Fmod360(desired.z)) ==> -180.0 <= AngleDelta(current, desired).z <= 180.0
  {
  }

  /** On angles already folded, the delta is clip_angle of the plain difference. */
  lemma AngleDeltaFolded(current: Vec3, desired: Vec3)
    requires Folded(current) && Folded(desired)
    ensures AngleDelta(current, desired) == Vec3(ClipAngle(current.x - desired.x),
                                                 ClipAngle(current.y - desired.y),
                                                 ClipAngle(current.z - desired.z))
  {
  }

  /** No difference between an orientation and itself. */
  lemma AngleDeltaSelf(v: Vec3)
    ensures AngleDelta(v, v) == Zero
  {
  }

  /** Going from 10 to 350 degrees is a turn of -20 degrees, not 340. */
  lemma AngleDeltaShortWay()
    ensures AngleDelta(Vec3(350.0, 0.0, 0.0), Vec3(10.0, 0.0, 0.0)) == Vec3(-20.0, 0.0, 0.0)
  {
    AngleDeltaFolded(Vec3(350.0, 0.0, 0.0), Vec3(10.0, 0.0, 0.0));
    assert ClipAngle(340.0) == -20.0;
  }

  /** Angles that differ by a whole turn have no delta: -170 and 190 are the same heading. */
  lemma AngleDeltaCongruent()
    ensures AngleDelta(Vec3(-170.0, 0.0, 0.0), Vec3(190.0, 0.0, 0.0)) == Zero
  {
    AngleDeltaFolded(Vec3(-170.0, 0.0, 0.0), Vec3(190.0, 0.0, 0.0));
    assert ClipAngle(-360.0) == 0.0;
  }

  /** Folding each side into (-360, 360) before subtracting leaves differences anywhere in
      (-720, 720),
      which one correction cannot bring below 180: 359 against -359 gives 358, the long
      way round. */
  lemma AngleDeltaLongArc()
    ensures AngleDelta(Vec3(359.0, 0.0, 0.0), Vec3(-359.0, 0.0, 0.0)) == Vec3(358.0, 0.0, 0.0)
  {
    AngleDeltaFolded(Vec3(359.0, 0.0, 0.0), Vec3(-359.0, 0.0, 0.0));
    assert ClipAngle(718.0) == 358.0;
  }
}
