/**
 * Vectors, quaternions and the functions the filter imports from Python's
 * `math` module.  The transcendental functions are left uninterpreted: they
 * are fields of a `Math` record, and the only facts assumed of them are the
 * facts of the exact non-negative square root, stated by `Math.Sound`.
 */
module Maths {

  datatype Vec3 = Vec3(x: real, y: real, z: real)

  /** A quaternion `(q1, q2, q3, q4)`; `q1` is the scalar part. */
  datatype Quat = Quat(q1: real, q2: real, q3: real, q4: real)

  const Zero3 := Vec3(0.0, 0.0, 0.0)
  const ZeroQ := Quat(0.0, 0.0, 0.0, 0.0)
  const Identity := Quat(1.0, 0.0, 0.0, 0.0)

  /** `sqrt`, `asin`, `atan2`, `degrees` and `radians`, as the caller's platform provides them. */
  datatype Math = Math(
    sqrt: real -> real,
    asin: real -> real,
    atan2: (real, real) -> real,
    degrees: real -> real,
    radians: real -> real)
  {
    /**
     * `sqrt` is the exact square root on the non-negative reals: it squares
     * back to its argument, vanishes at zero and is positive elsewhere.
     * Nothing is assumed of the other functions.
     */
    ghost predicate Sound() {
      && sqrt(0.0) == 0.0
      && (forall x: real :: 0.0 < x ==> 0.0 < sqrt(x))
      && (forall x: real :: 0.0 <= x ==> sqrt(x) * sqrt(x) == x)
    }
  }

  function NormSq3(v: Vec3): real {
    v.x * v.x + v.y * v.y + v.z * v.z
  }

  function NormSq(q: Quat): real {
    q.q1 * q.q1 + q.q2 * q.q2 + q.q3 * q.q3 + q.q4 * q.q4
  }

  function Dot3(a: Vec3, b: Vec3): real {
    a.x * b.x + a.y * b.y + a.z * b.z
  }

  function Dot(p: Quat, q: Quat): real {
    p.q1 * q.q1 + p.q2 * q.q2 + p.q3 * q.q3 + p.q4 * q.q4
  }

  function Scale3(v: Vec3, k: real): Vec3 {
    Vec3(v.x * k, v.y * k, v.z * k)
  }

  function Add3(a: Vec3, b: Vec3): Vec3 {
    Vec3(a.x + b.x, a.y + b.y, a.z + b.z)
  }

  function Sub3(a: Vec3, b: Vec3): Vec3 {
    Vec3(a.x - b.x, a.y - b.y, a.z - b.z)
  }

  function Scale(q: Quat, k: real): Quat {
    Quat(q.q1 * k, q.q2 * k, q.q3 * k, q.q4 * k)
  }

  function Add(p: Quat, q: Quat): Quat {
    Quat(p.q1 + q.q1, p.q2 + q.q2, p.q3 + q.q3, p.q4 + q.q4)
  }

  function Sub(p: Quat, q: Quat): Quat {
    Quat(p.q1 - q.q1, p.q2 - q.q2, p.q3 - q.q3, p.q4 - q.q4)
  }

  /** The Hamilton product `p ⊗ q`. */
  function Mul(p: Quat, q: Quat): Quat {
    Quat(p.q1 * q.q1 - p.q2 * q.q2 - p.q3 * q.q3 - p.q4 * q.q4,
         p.q1 * q.q2 + p.q2 * q.q1 + p.q3 * q.q4 - p.q4 * q.q3,
         p.q1 * q.q3 - p.q2 * q.q4 + p.q3 * q.q1 + p.q4 * q.q2,
         p.q1 * q.q4 + p.q2 * q.q3 - p.q3 * q.q2 + p.q4 * q.q1)
  }

  function Conj(q: Quat): Quat {
    Quat(q.q1, -q.q2, -q.q3, -q.q4)
  }

  /** The pure quaternion `(0, v)`. */
  function Pure(v: Vec3): Quat {
    Quat(0.0, v.x, v.y, v.z)
  }

  function VectorPart(q: Quat): Vec3 {
    Vec3(q.q2, q.q3, q.q4)
  }

  /** `v` turned by `q`: the vector part of `q ⊗ (0, v) ⊗ q*`. */
  function Rotate(q: Quat, v: Vec3): Vec3 {
    VectorPart(Mul(Mul(q, Pure(v)), Conj(q)))
  }

  /** `x * x`, kept behind a name so that a square stays one term in a proof. */
  function Sq(x: real): real {
    x * x
  }

  lemma SqSumNonNegative(a: real, b: real)
    ensures 0.0 <= Sq(a) + Sq(b)
  {
  }

  lemma NormSq3NonNegative(v: Vec3)
    ensures 0.0 <= NormSq3(v)
  {
  }

  lemma NormSqNonNegative(q: Quat)
    ensures 0.0 <= NormSq(q)
  {
  }

  lemma SumOfSquares3Positive(a: real, b: real, c: real)
    ensures (a != 0.0 || b != 0.0 || c != 0.0) ==> a * a + b * b + c * c > 0.0
  {
  }

  lemma SumOfSquares4Positive(a: real, b: real, c: real, d: real)
    ensures (a != 0.0 || b != 0.0 || c != 0.0 || d != 0.0) ==> a * a + b * b + c * c + d * d > 0.0
  {
  }

  lemma {:induction false} SqrtOfSum3Zero(m: Math, v: Vec3)
    requires m.Sound()
    ensures m.sqrt(v.x * v.x + v.y * v.y + v.z * v.z) == 0.0 <==> v == Zero3
  {
    SumOfSquares3Positive(v.x, v.y, v.z);
  }

  lemma {:induction false} SqrtOfSum4Zero(m: Math, q: Quat)
    requires m.Sound()
    ensures m.sqrt(q.q1 * q.q1 + q.q2 * q.q2 + q.q3 * q.q3 + q.q4 * q.q4) == 0.0 <==> q == ZeroQ
  {
    SumOfSquares4Positive(q.q1, q.q2, q.q3, q.q4);
  }

  lemma NormSq3Unfold(v: Vec3)
    ensures NormSq3(v) == v.x * v.x + v.y * v.y + v.z * v.z
  {
  }

  lemma NormSqUnfold(q: Quat)
    ensures NormSq(q) == q.q1 * q.q1 + q.q2 * q.q2 + q.q3 * q.q3 + q.q4 * q.q4
  {
  }

  /** The filter's zero-norm test on a vector fires exactly on the zero vector. */
  lemma {:induction false} SqrtNormSq3Zero(m: Math, v: Vec3)
    requires m.Sound()
    ensures m.sqrt(NormSq3(v)) == 0.0 <==> v == Zero3
  {
    SqrtOfSum3Zero(m, v);
    NormSq3Unfold(v);
  }

  /** The norm of a quaternion vanishes exactly on the zero quaternion. */
  lemma {:induction false} SqrtNormSqZero(m: Math, q: Quat)
    requires m.Sound()
    ensures m.sqrt(NormSq(q)) == 0.0 <==> q == ZeroQ
  {
    SqrtOfSum4Zero(m, q);
    NormSqUnfold(q);
  }

  lemma ScaleNormSq(q: Quat, k: real)
    ensures NormSq(Scale(q, k)) == k * k * NormSq(q)
  {
  }

  lemma ScaleNormSq3(v: Vec3, k: real)
    ensures NormSq3(Scale3(v, k)) == k * k * NormSq3(v)
  {
  }

  /** Multiplying by the reciprocal of the norm, as the filter does, gives a unit quaternion. */
  lemma {:induction false} ReciprocalNormIsUnit(m: Math, q: Quat)
    requires m.Sound() && m.sqrt(NormSq(q)) != 0.0
    ensures NormSq(Scale(q, 1.0 / m.sqrt(NormSq(q)))) == 1.0
  {
    var n := NormSq(q);
    var s := m.sqrt(n);
    NormSqNonNegative(q);
    assert s * s == n;
    ScaleNormSq(q, 1.0 / s);
    assert (1.0 / s) * (1.0 / s) * (s * s) == 1.0;
  }

  /** The same for a three-vector: the filter's normalised accelerometer and magnetometer readings are unit vectors. */
  lemma {:induction false} ReciprocalNormIsUnit3(m: Math, v: Vec3)
    requires m.Sound() && m.sqrt(NormSq3(v)) != 0.0
    ensures NormSq3(Scale3(v, 1.0 / m.sqrt(NormSq3(v)))) == 1.0
  {
    var n := NormSq3(v);
    var s := m.sqrt(n);
    NormSq3NonNegative(v);
    assert s * s == n;
    ScaleNormSq3(v, 1.0 / s);
    assert (1.0 / s) * (1.0 / s) * (s * s) == 1.0;
  }

  /*
   * The rotation in closed form, one component at a time: `Rotate(q, v)`
   * is the rotation matrix of `q` applied to `v`, and `Rotate(Conj(q), v)`
   * its transpose.  The matrix entries are written in the homogeneous form
   * that holds for every quaternion, unit or not.
   */

  lemma RotateX(q: Quat, v: Vec3)
    ensures Rotate(q, v).x == (q.q1 * q.q1 + q.q2 * q.q2 - q.q3 * q.q3 - q.q4 * q.q4) * v.x + 2.0 * (q.q2 * q.q3 - q.q1 * q.q4) * v.y + 2.0 * (q.q2 * q.q4 + q.q1 * q.q3) * v.z
  {
  }

  lemma RotateY(q: Quat, v: Vec3)
    ensures Rotate(q, v).y == 2.0 * (q.q2 * q.q3 + q.q1 * q.q4) * v.x + (q.q1 * q.q1 - q.q2 * q.q2 + q.q3 * q.q3 - q.q4 * q.q4) * v.y + 2.0 * (q.q3 * q.q4 - q.q1 * q.q2) * v.z
  {
  }

  lemma RotateZ(q: Quat, v: Vec3)
    ensures Rotate(q, v).z == 2.0 * (q.q2 * q.q4 - q.q1 * q.q3) * v.x + 2.0 * (q.q3 * q.q4 + q.q1 * q.q2) * v.y + (q.q1 * q.q1 - q.q2 * q.q2 - q.q3 * q.q3 + q.q4 * q.q4) * v.z
  {
  }

  lemma RotateBackX(q: Quat, v: Vec3)
    ensures Rotate(Conj(q), v).x == (q.q1 * q.q1 + q.q2 * q.q2 - q.q3 * q.q3 - q.q4 * q.q4) * v.x + 2.0 * (q.q2 * q.q3 + q.q1 * q.q4) * v.y + 2.0 * (q.q2 * q.q4 - q.q1 * q.q3) * v.z
  {
  }

  lemma RotateBackY(q: Quat, v: Vec3)
    ensures Rotate(Conj(q), v).y == 2.0 * (q.q2 * q.q3 - q.q1 * q.q4) * v.x + (q.q1 * q.q1 - q.q2 * q.q2 + q.q3 * q.q3 - q.q4 * q.q4) * v.y + 2.0 * (q.q3 * q.q4 + q.q1 * q.q2) * v.z
  {
  }

  lemma RotateBackZ(q: Quat, v: Vec3)
    ensures Rotate(Conj(q), v).z == 2.0 * (q.q2 * q.q4 + q.q1 * q.q3) * v.x + 2.0 * (q.q3 * q.q4 - q.q1 * q.q2) * v.y + (q.q1 * q.q1 - q.q2 * q.q2 - q.q3 * q.q3 + q.q4 * q.q4) * v.z
  {
  }
}
