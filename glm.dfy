/** The part of glm the camera code relies on, over mathematical reals.
    Vector arithmetic is interpreted exactly. Matrices are kept as symbolic terms
    (a free datatype: two matrices are equal only when they were built the same way),
    and every glm builder that needs sin, cos or sqrt is an uninterpreted function value
    held in a `Glm` record, constrained only by `Lawful`. */
module GlmModel {

  datatype Vec2 = Vec2(x: real, y: real)

  datatype Vec3 = Vec3(x: real, y: real, z: real)

  const Zero: Vec3 := Vec3(0.0, 0.0, 0.0)

  function Sub2(a: Vec2, b: Vec2): Vec2 { Vec2(a.x - b.x, a.y - b.y) }

  function Add(a: Vec3, b: Vec3): Vec3 { Vec3(a.x + b.x, a.y + b.y, a.z + b.z) }

  function Sub(a: Vec3, b: Vec3): Vec3 { Vec3(a.x - b.x, a.y - b.y, a.z - b.z) }

  function Neg(a: Vec3): Vec3 { Vec3(-a.x, -a.y, -a.z) }

  /** `v * s` for a scalar `s`. */
  function Scale(s: real, v: Vec3): Vec3 { Vec3(s * v.x, s * v.y, s * v.z) }

  /** `a * b` between two vectors: glm multiplies component by component. */
  function Hadamard(a: Vec3, b: Vec3): Vec3 { Vec3(a.x * b.x, a.y * b.y, a.z * b.z) }

  function Cross(a: Vec3, b: Vec3): Vec3 {
    Vec3(a.y * b.z - a.z * b.y, a.z * b.x - a.x * b.z, a.x * b.y - a.y * b.x)
  }

  function Sq(a: real): real { a * a }

  /** The squared Euclidean length; `length(v) > m` is `m < 0 || NormSq(v) > m * m`. */
  function NormSq(v: Vec3): real { Sq(v.x) + Sq(v.y) + Sq(v.z) }

  lemma SquarePositive(a: real)
    ensures Sq(a) >= 0.0
    ensures a != 0.0 ==> Sq(a) > 0.0
  {
    if a > 0.0 {
      calc { Sq(a); a * a; > 0.0; }
    } else if a < 0.0 {
      calc { Sq(a); a * a; (-a) * (-a); > 0.0; }
    }
  }

  lemma NormSqZero(v: Vec3)
    ensures NormSq(v) >= 0.0
    ensures NormSq(v) == 0.0 <==> v == Zero
  {
    SquarePositive(v.x);
    SquarePositive(v.y);
    SquarePositive(v.z);
  }

  /** `normalize(v) * m` has length `|m|`, given that `normalize(v)` has unit length. */
  lemma ScaleUnit(s: real, n: Vec3)
    requires NormSq(n) == 1.0
    ensures NormSq(Scale(s, n)) == Sq(s)
  {
    calc {
      NormSq(Scale(s, n));
    == { NormSqScale(s, n); }
      Sq(s) * NormSq(n);
      Sq(s) * 1.0;
    }
  }

  /** `v - v * m` is `v * (1 - m)`. */
  lemma SubScaled(m: real, v: Vec3)
    ensures Sub(v, Scale(m, v)) == Scale(1.0 - m, v)
  {
    assert v.x - m * v.x == (1.0 - m) * v.x;
    assert v.y - m * v.y == (1.0 - m) * v.y;
    assert v.z - m * v.z == (1.0 - m) * v.z;
  }

  /** Scaling by a factor in [0, 1] never lengthens a vector, and a factor in [0, 1) strictly
      shortens a nonzero one. */
  lemma ScaleShrinks(s: real, v: Vec3)
    requires 0.0 <= s <= 1.0
    ensures NormSq(Scale(s, v)) <= NormSq(v)
    ensures s < 1.0 && v != Zero ==> NormSq(Scale(s, v)) < NormSq(v)
  {
    NormSqZero(v);
    UnitProduct(s, NormSq(v));
    calc {
      NormSq(Scale(s, v));
    == { NormSqScale(s, v); }
      Sq(s) * NormSq(v);
    <=
      NormSq(v);
    }
    if s < 1.0 && v != Zero {
      calc {
        NormSq(Scale(s, v));
      == { NormSqScale(s, v); }
        Sq(s) * NormSq(v);
      <
        NormSq(v);
      }
    }
  }

  lemma UnitProduct(s: real, n: real)
    requires 0.0 <= s <= 1.0 && 0.0 <= n
    ensures Sq(s) * n <= n
    ensures s < 1.0 && 0.0 < n ==> Sq(s) * n < n
  {
    calc { Sq(s); s * s; <= { assert s * s <= s * 1.0; } s; }
    assert Sq(s) >= 0.0 by { SquarePositive(s); }
    calc { Sq(s) * n; <= { assert Sq(s) <= 1.0; } 1.0 * n; }
    if s < 1.0 && 0.0 < n {
      calc { Sq(s) * n; < { assert Sq(s) < 1.0; } 1.0 * n; }
    }
  }

  lemma SqMul(s: real, a: real)
    ensures Sq(s * a) == Sq(s) * Sq(a)
  {
    calc { Sq(s * a); (s * a) * (s * a); (s * s) * (a * a); Sq(s) * Sq(a); }
  }

  lemma NormSqScale(s: real, v: Vec3)
    ensures NormSq(Scale(s, v)) == Sq(s) * NormSq(v)
  {
    SqMul(s, v.x);
    SqMul(s, v.y);
    SqMul(s, v.z);
    calc {
      NormSq(Scale(s, v));
      Sq(s * v.x) + Sq(s * v.y) + Sq(s * v.z);
      Sq(s) * Sq(v.x) + Sq(s) * Sq(v.y) + Sq(s) * Sq(v.z);
      Sq(s) * (Sq(v.x) + Sq(v.y) + Sq(v.z));
    }
  }

  /** glm::quat, stored (w, x, y, z). */
  datatype Quat = Quat(w: real, x: real, y: real, z: real)

  /** The quaternion product `p * q` (Hamilton product), as glm computes it. */
  function QuatMul(p: Quat, q: Quat): Quat {
    Quat(p.w * q.w - p.x * q.x - p.y * q.y - p.z * q.z,
         p.w * q.x + p.x * q.w + p.y * q.z - p.z * q.y,
         p.w * q.y + p.y * q.w + p.z * q.x - p.x * q.z,
         p.w * q.z + p.z * q.w + p.x * q.y - p.y * q.x)
  }

  /** A 4x4 matrix as the glm expression that built it. YawPitchRoll takes its
      angles in degrees: the `glm::radians` conversion is folded into the term. */
  datatype Mat4 =
    | Identity
    | Translate(base: Mat4, offset: Vec3)
    | YawPitchRoll(yaw: real, pitch: real, roll: real)
    | FromQuat(q: Quat)
    | LookAt(eye: Vec3, center: Vec3, up: Vec3)
    | Product(left: Mat4, right: Mat4)

  /** The glm functions that need trigonometry or square roots, left uninterpreted. */
  datatype Glm = Glm(
    eulerQuat: Vec3 -> Quat,        // glm::quat(vec3 euler)
    normalizeQuat: Quat -> Quat,    // glm::normalize on a quaternion
    quatOf: Mat4 -> Quat,           // glm::quat(mat4): the rotation of a matrix
    row: (Mat4, nat) -> Vec3,       // vec3(m[0][i], m[1][i], m[2][i])
    normalize: Vec3 -> Vec3         // glm::normalize on a vec3
  )

  /** The one law the model needs: normalizing a nonzero vector yields unit length. */
  ghost predicate Lawful(g: Glm) {
    forall v: Vec3 :: v != Zero ==> NormSq(g.normalize(v)) == 1.0
  }
}
