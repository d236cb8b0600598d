/**
 * The arithmetic of one Madgwick filter update, shared by the synchronous
 * and the asynchronous `Fusion` classes: the gradient-descent corrective
 * step for the accelerometer alone (`update_nomag`) and for accelerometer
 * and magnetometer together (`update`), the reference direction of the
 * Earth's field, the rate of change of the quaternion, and the angles read
 * off the quaternion.  Each straight-line formula of the source is written
 * as it stands; the lemmas relate it to what it computes (a Jacobian
 * transposed times an error, a rotation, a quaternion product).
 */
module Madgwick {
  import opened Wrappers
  import opened Maths

  /* ---------------------------------------------------------------- *
   *  Gravity: the 6-axis corrective step                              *
   * ---------------------------------------------------------------- */

  /** The corrective step `(s1, s2, s3, s4)` of `update_nomag`, before normalisation, for a normalised accelerometer reading `a`. */
  function GravityStep(q: Quat, a: Vec3): Quat {
    var q1, q2, q3, q4 := q.q1, q.q2, q.q3, q.q4;
    var ax, ay, az := a.x, a.y, a.z;
    var q1q1, q2q2, q3q3, q4q4 := q1 * q1, q2 * q2, q3 * q3, q4 * q4;
    Quat(4.0 * q1 * q3q3 + 2.0 * q3 * ax + 4.0 * q1 * q2q2 - 2.0 * q2 * ay,
         4.0 * q2 * q4q4 - 2.0 * q4 * ax + 4.0 * q1q1 * q2 - 2.0 * q1 * ay - 4.0 * q2 + 8.0 * q2 * q2q2 + 8.0 * q2 * q3q3 + 4.0 * q2 * az,
         4.0 * q1q1 * q3 + 2.0 * q1 * ax + 4.0 * q3 * q4q4 - 2.0 * q4 * ay - 4.0 * q3 + 8.0 * q3 * q2q2 + 8.0 * q3 * q3q3 + 4.0 * q3 * az,
         4.0 * q2q2 * q4 - 2.0 * q2 * ax + 4.0 * q3q3 * q4 - 2.0 * q3 * ay)
  }

  /** The gravity objective `f_g(q) = (direction of gravity predicted by q) - a`. */
  function GravityError(q: Quat, a: Vec3): Vec3 {
    Vec3(2.0 * q.q2 * q.q4 - 2.0 * q.q1 * q.q3 - a.x,
         2.0 * q.q1 * q.q2 + 2.0 * q.q3 * q.q4 - a.y,
         1.0 - 2.0 * q.q2 * q.q2 - 2.0 * q.q3 * q.q3 - a.z)
  }

  /** The Jacobian of `f_g` at `q` applied to a direction `d`. */
  function GravityJacobian(q: Quat, d: Quat): Vec3 {
    Vec3(-2.0 * q.q3 * d.q1 + 2.0 * q.q4 * d.q2 - 2.0 * q.q1 * d.q3 + 2.0 * q.q2 * d.q4,
         2.0 * q.q2 * d.q1 + 2.0 * q.q1 * d.q2 + 2.0 * q.q4 * d.q3 + 2.0 * q.q3 * d.q4,
         -4.0 * q.q2 * d.q2 - 4.0 * q.q3 * d.q3)
  }

  /** The transposed Jacobian of `f_g` at `q` applied to an error `f`. */
  function GravityJacobianT(q: Quat, f: Vec3): Quat {
    Quat(-2.0 * q.q3 * f.x + 2.0 * q.q2 * f.y,
         2.0 * q.q4 * f.x + 2.0 * q.q1 * f.y - 4.0 * q.q2 * f.z,
         -2.0 * q.q1 * f.x + 2.0 * q.q4 * f.y - 4.0 * q.q3 * f.z,
         2.0 * q.q2 * f.x + 2.0 * q.q3 * f.y)
  }

  /** The code's step is the gradient `J_g(q)ᵀ f_g(q)` of the objective `|f_g|² / 2`. */
  lemma GravityStepIsGradient(q: Quat, a: Vec3)
    ensures GravityStep(q, a) == GravityJacobianT(q, GravityError(q, a))
  {
  }

  /**
   * `GravityJacobian` is the derivative of `f_g`: since `f_g` is quadratic,
   * the central difference through `q` equals twice the Jacobian at `q`
   * applied to the offset, exactly.
   */
  lemma GravityJacobianIsDerivative(q: Quat, d: Quat, a: Vec3)
    ensures Sub3(GravityError(Add(q, d), a), GravityError(Sub(q, d), a)) == Scale3(GravityJacobian(q, d), 2.0)
  {
  }

  /** `GravityJacobianT` is the transpose of `GravityJacobian`. */
  lemma GravityJacobianTransposed(q: Quat, d: Quat, f: Vec3)
    ensures Dot3(GravityJacobian(q, d), f) == Dot(d, GravityJacobianT(q, f))
  {
  }

  /**
   * The predicted direction is the vertical `(0, 0, 1)` turned into the
   * sensor frame, up to a correction that vanishes for a unit quaternion.
   */
  lemma {:induction false} GravityErrorIsRotation(q: Quat, a: Vec3)
    ensures var up := Vec3(0.0, 0.0, 1.0);
      GravityError(q, a) == Sub3(Add3(Rotate(Conj(q), up), Scale3(up, 1.0 - NormSq(q))), a)
    ensures NormSq(q) == 1.0 ==> GravityError(q, a) == Sub3(Rotate(Conj(q), Vec3(0.0, 0.0, 1.0)), a)
  {
    GravityRotationX(q, a);
    GravityRotationY(q, a);
    GravityRotationZ(q, a);
  }

  lemma GravityRotationX(q: Quat, a: Vec3)
    ensures GravityError(q, a).x == Rotate(Conj(q), Vec3(0.0, 0.0, 1.0)).x - a.x
  {
    RotateBackX(q, Vec3(0.0, 0.0, 1.0));
  }

  lemma GravityRotationY(q: Quat, a: Vec3)
    ensures GravityError(q, a).y == Rotate(Conj(q), Vec3(0.0, 0.0, 1.0)).y - a.y
  {
    RotateBackY(q, Vec3(0.0, 0.0, 1.0));
  }

  lemma GravityRotationZ(q: Quat, a: Vec3)
    ensures GravityError(q, a).z == Rotate(Conj(q), Vec3(0.0, 0.0, 1.0)).z + (1.0 - NormSq(q)) - a.z
  {
    RotateBackZ(q, Vec3(0.0, 0.0, 1.0));
  }

  /* ---------------------------------------------------------------- *
   *  Magnetic field: the 9-axis corrective step                       *
   * ---------------------------------------------------------------- */

  /** `(hx, hy, _2bz)` of `update`: the normalised magnetometer reading `m` turned into the Earth frame. */
  function ReferenceField(q: Quat, m: Vec3): Vec3 {
    var q1, q2, q3, q4 := q.q1, q.q2, q.q3, q.q4;
    var mx, my, mz := m.x, m.y, m.z;
    var q1q1, q2q2, q3q3, q4q4 := q1 * q1, q2 * q2, q3 * q3, q4 * q4;
    var q1mx2, q1my2, q1mz2, q2mx2 := 2.0 * q1 * mx, 2.0 * q1 * my, 2.0 * q1 * mz, 2.0 * q2 * mx;
    Vec3(mx * q1q1 - q1my2 * q4 + q1mz2 * q3 + mx * q2q2 + 2.0 * q2 * my * q3 + 2.0 * q2 * mz * q4 - mx * q3q3 - mx * q4q4,
         q1mx2 * q4 + my * q1q1 - q1mz2 * q2 + q2mx2 * q3 - my * q2q2 + my * q3q3 + 2.0 * q3 * mz * q4 - my * q4q4,
         -q1mx2 * q3 + q1my2 * q2 + mz * q1q1 + q2mx2 * q4 - mz * q2q2 + 2.0 * q3 * my * q4 - mz * q3q3 + mz * q4q4)
  }

  /** The code's reference field is exactly `q ⊗ (0, m) ⊗ q*`, for every quaternion. */
  lemma {:induction false} ReferenceFieldIsRotation(q: Quat, m: Vec3)
    ensures ReferenceField(q, m) == Rotate(q, m)
  {
    ReferenceFieldX(q, m);
    ReferenceFieldY(q, m);
    ReferenceFieldZ(q, m);
  }

  lemma ReferenceFieldX(q: Quat, m: Vec3)
    ensures ReferenceField(q, m).x == Rotate(q, m).x
  {
    RotateX(q, m);
  }

  lemma ReferenceFieldY(q: Quat, m: Vec3)
    ensures ReferenceField(q, m).y == Rotate(q, m).y
  {
    RotateY(q, m);
  }

  lemma ReferenceFieldZ(q: Quat, m: Vec3)
    ensures ReferenceField(q, m).z == Rotate(q, m).z
  {
    RotateZ(q, m);
  }

  /**
   * The field objective `f_b(q)` of `update`, with `bx2` and `bz2` the
   * code's `_2bx` and `_2bz`; the residuals are written as in the code.
   */
  function FieldError(q: Quat, bx2: real, bz2: real, m: Vec3): Vec3 {
    Vec3(bx2 * (0.5 - q.q3 * q.q3 - q.q4 * q.q4) + bz2 * (q.q2 * q.q4 - q.q1 * q.q3) - m.x,
         bx2 * (q.q2 * q.q3 - q.q1 * q.q4) + bz2 * (q.q1 * q.q2 + q.q3 * q.q4) - m.y,
         bx2 * (q.q1 * q.q3 + q.q2 * q.q4) + bz2 * (0.5 - q.q2 * q.q2 - q.q3 * q.q3) - m.z)
  }

  /** The Jacobian of `f_b` at `q` applied to a direction `d`, one row per component of the error. */
  function FieldJacobian(q: Quat, bx2: real, bz2: real, d: Quat): Vec3 {
    Vec3(FieldJacobianX(q, bx2, bz2, d), FieldJacobianY(q, bx2, bz2, d), FieldJacobianZ(q, bx2, bz2, d))
  }

  function FieldJacobianX(q: Quat, bx2: real, bz2: real, d: Quat): real {
    -bz2 * q.q3 * d.q1 + bz2 * q.q4 * d.q2 + (-2.0 * bx2 * q.q3 - bz2 * q.q1) * d.q3 + (-2.0 * bx2 * q.q4 + bz2 * q.q2) * d.q4
  }

  function FieldJacobianY(q: Quat, bx2: real, bz2: real, d: Quat): real {
    (-bx2 * q.q4 + bz2 * q.q2) * d.q1 + (bx2 * q.q3 + bz2 * q.q1) * d.q2 + (bx2 * q.q2 + bz2 * q.q4) * d.q3 + (-bx2 * q.q1 + bz2 * q.q3) * d.q4
  }

  function FieldJacobianZ(q: Quat, bx2: real, bz2: real, d: Quat): real {
    bx2 * q.q3 * d.q1 + (bx2 * q.q4 - 2.0 * bz2 * q.q2) * d.q2 + (bx2 * q.q1 - 2.0 * bz2 * q.q3) * d.q3 + bx2 * q.q2 * d.q4
  }

  /** The transposed Jacobian of `f_b` at `q` applied to an error `f`. */
  function FieldJacobianT(q: Quat, bx2: real, bz2: real, f: Vec3): Quat {
    Quat(-bz2 * q.q3 * f.x + (-bx2 * q.q4 + bz2 * q.q2) * f.y + bx2 * q.q3 * f.z,
         bz2 * q.q4 * f.x + (bx2 * q.q3 + bz2 * q.q1) * f.y + (bx2 * q.q4 - 2.0 * bz2 * q.q2) * f.z,
         (-2.0 * bx2 * q.q3 - bz2 * q.q1) * f.x + (bx2 * q.q2 + bz2 * q.q4) * f.y + (bx2 * q.q1 - 2.0 * bz2 * q.q3) * f.z,
         (-2.0 * bx2 * q.q4 + bz2 * q.q2) * f.x + (-bx2 * q.q1 + bz2 * q.q3) * f.y + bx2 * q.q2 * f.z)
  }

  /**
   * The corrective step `(s1, s2, s3, s4)` of `update`, before
   * normalisation, with the code's coefficients, given the residuals `g`
   * of the gravity objective and `b` of the field objective (the code
   * repeats the six residual expressions inside each component).
   */
  function MargCombination(q: Quat, g: Vec3, b: Vec3, bx2: real, bz2: real): Quat {
    var q1, q2, q3, q4 := q.q1, q.q2, q.q3, q.q4;
    var bx4, bz4 := 2.0 * bx2, 2.0 * bz2;
    Quat(-2.0 * q3 * g.x + 2.0 * q2 * g.y - bz2 * q3 * b.x + (-bx2 * q4 + bz2 * q2) * b.y + bx2 * q3 * b.z,
         2.0 * q4 * g.x + 2.0 * q1 * g.y - 4.0 * q2 * g.z + bz2 * q4 * b.x + (bx2 * q3 + bz2 * q1) * b.y + (bx2 * q4 - bz4 * q2) * b.z,
         -2.0 * q1 * g.x + 2.0 * q4 * g.y - 4.0 * q3 * g.z + (-bx4 * q3 - bz2 * q1) * b.x + (bx2 * q2 + bz2 * q4) * b.y + (bx2 * q1 - bz4 * q3) * b.z,
         2.0 * q2 * g.x + 2.0 * q3 * g.y + (-bx4 * q4 + bz2 * q2) * b.x + (-bx2 * q1 + bz2 * q3) * b.y + bx2 * q2 * b.z)
  }

  /** The corrective step of `update`, at the residuals of the normalised readings `a` and `m`. */
  function MargStep(q: Quat, a: Vec3, m: Vec3, bx2: real, bz2: real): Quat {
    MargCombination(q, GravityError(q, a), FieldError(q, bx2, bz2, m), bx2, bz2)
  }

  /** The code's coefficients are those of the two transposed Jacobians, whatever the residuals. */
  lemma MargCombinationIsTransposed(q: Quat, g: Vec3, b: Vec3, bx2: real, bz2: real)
    ensures MargCombination(q, g, b, bx2, bz2) == Add(GravityJacobianT(q, g), FieldJacobianT(q, bx2, bz2, b))
  {
  }

  /** The code's 9-axis step is the gradient `J_gᵀ f_g + J_bᵀ f_b` of the combined objective. */
  lemma {:induction false} MargStepIsGradient(q: Quat, a: Vec3, m: Vec3, bx2: real, bz2: real)
    ensures MargStep(q, a, m, bx2, bz2) ==
      Add(GravityJacobianT(q, GravityError(q, a)), FieldJacobianT(q, bx2, bz2, FieldError(q, bx2, bz2, m)))
  {
    MargCombinationIsTransposed(q, GravityError(q, a), FieldError(q, bx2, bz2, m), bx2, bz2);
  }

  /**
   * `FieldJacobian` is the derivative of `f_b`: `f_b` is quadratic in `q`,
   * so the central difference through `q` equals twice the Jacobian at `q`
   * applied to the offset, exactly.
   */
  lemma {:induction false} FieldJacobianIsDerivative(q: Quat, bx2: real, bz2: real, d: Quat, m: Vec3)
    ensures Sub3(FieldError(Add(q, d), bx2, bz2, m), FieldError(Sub(q, d), bx2, bz2, m)) == Scale3(FieldJacobian(q, bx2, bz2, d), 2.0)
  {
    FieldDerivativeX(q, bx2, bz2, d, m);
    FieldDerivativeY(q, bx2, bz2, d, m);
    FieldDerivativeZ(q, bx2, bz2, d, m);
  }

  /*
   * The proof, one row at a time.  Each row unfolds `f_b` at `q + d` and
   * `q - d` and the Jacobian at `q` into polynomials in the components,
   * then states the polynomial identity between them, so that each step
   * stays small.
   */

  lemma FieldDerivativeX(q: Quat, bx2: real, bz2: real, d: Quat, m: Vec3)
    ensures FieldError(Add(q, d), bx2, bz2, m).x - FieldError(Sub(q, d), bx2, bz2, m).x == 2.0 * FieldJacobian(q, bx2, bz2, d).x
  {
    FieldErrorAtSumX(q, d, bx2, bz2, m);
    FieldErrorAtDifferenceX(q, d, bx2, bz2, m);
    FieldJacobianRowX(q, bx2, bz2, d);
    FieldPolynomialX(q, d, bx2, bz2, m);
  }

  lemma FieldErrorAtSumX(q: Quat, d: Quat, bx2: real, bz2: real, m: Vec3)
    ensures FieldError(Add(q, d), bx2, bz2, m).x ==
      bx2 * (0.5 - (q.q3 + d.q3) * (q.q3 + d.q3) - (q.q4 + d.q4) * (q.q4 + d.q4)) + bz2 * ((q.q2 + d.q2) * (q.q4 + d.q4) - (q.q1 + d.q1) * (q.q3 + d.q3)) - m.x
  {
  }

  lemma FieldErrorAtDifferenceX(q: Quat, d: Quat, bx2: real, bz2: real, m: Vec3)
    ensures FieldError(Sub(q, d), bx2, bz2, m).x ==
      bx2 * (0.5 - (q.q3 - d.q3) * (q.q3 - d.q3) - (q.q4 - d.q4) * (q.q4 - d.q4)) + bz2 * ((q.q2 - d.q2) * (q.q4 - d.q4) - (q.q1 - d.q1) * (q.q3 - d.q3)) - m.x
  {
  }

  lemma FieldJacobianRowX(q: Quat, bx2: real, bz2: real, d: Quat)
    ensures FieldJacobian(q, bx2, bz2, d).x ==
      -bz2 * q.q3 * d.q1 + bz2 * q.q4 * d.q2 + (-2.0 * bx2 * q.q3 - bz2 * q.q1) * d.q3 + (-2.0 * bx2 * q.q4 + bz2 * q.q2) * d.q4
  {
  }

  lemma FieldPolynomialX(q: Quat, d: Quat, bx2: real, bz2: real, m: Vec3)
    ensures (bx2 * (0.5 - (q.q3 + d.q3) * (q.q3 + d.q3) - (q.q4 + d.q4) * (q.q4 + d.q4)) + bz2 * ((q.q2 + d.q2) * (q.q4 + d.q4) - (q.q1 + d.q1) * (q.q3 + d.q3)) - m.x)
          - (bx2 * (0.5 - (q.q3 - d.q3) * (q.q3 - d.q3) - (q.q4 - d.q4) * (q.q4 - d.q4)) + bz2 * ((q.q2 - d.q2) * (q.q4 - d.q4) - (q.q1 - d.q1) * (q.q3 - d.q3)) - m.x)
      == 2.0 * (-bz2 * q.q3 * d.q1 + bz2 * q.q4 * d.q2 + (-2.0 * bx2 * q.q3 - bz2 * q.q1) * d.q3 + (-2.0 * bx2 * q.q4 + bz2 * q.q2) * d.q4)
  {
  }

  lemma FieldDerivativeY(q: Quat, bx2: real, bz2: real, d: Quat, m: Vec3)
    ensures FieldError(Add(q, d), bx2, bz2, m).y - FieldError(Sub(q, d), bx2, bz2, m).y == 2.0 * FieldJacobian(q, bx2, bz2, d).y
  {
    FieldErrorAtSumY(q, d, bx2, bz2, m);
    FieldErrorAtDifferenceY(q, d, bx2, bz2, m);
    FieldJacobianRowY(q, bx2, bz2, d);
    FieldPolynomialY(q, d, bx2, bz2, m);
  }

  lemma FieldErrorAtSumY(q: Quat, d: Quat, bx2: real, bz2: real, m: Vec3)
    ensures FieldError(Add(q, d), bx2, bz2, m).y ==
      bx2 * ((q.q2 + d.q2) * (q.q3 + d.q3) - (q.q1 + d.q1) * (q.q4 + d.q4)) + bz2 * ((q.q1 + d.q1) * (q.q2 + d.q2) + (q.q3 + d.q3) * (q.q4 + d.q4)) - m.y
  {
  }

  lemma FieldErrorAtDifferenceY(q: Quat, d: Quat, bx2: real, bz2: real, m: Vec3)
    ensures FieldError(Sub(q, d), bx2, bz2, m).y ==
      bx2 * ((q.q2 - d.q2) * (q.q3 - d.q3) - (q.q1 - d.q1) * (q.q4 - d.q4)) + bz2 * ((q.q1 - d.q1) * (q.q2 - d.q2) + (q.q3 - d.q3) * (q.q4 - d.q4)) - m.y
  {
  }

  lemma FieldJacobianRowY(q: Quat, bx2: real, bz2: real, d: Quat)
    ensures FieldJacobian(q, bx2, bz2, d).y ==
      (-bx2 * q.q4 + bz2 * q.q2) * d.q1 + (bx2 * q.q3 + bz2 * q.q1) * d.q2 + (bx2 * q.q2 + bz2 * q.q4) * d.q3 + (-bx2 * q.q1 + bz2 * q.q3) * d.q4
  {
  }

  lemma FieldPolynomialY(q: Quat, d: Quat, bx2: real, bz2: real, m: Vec3)
    ensures (bx2 * ((q.q2 + d.q2) * (q.q3 + d.q3) - (q.q1 + d.q1) * (q.q4 + d.q4)) + bz2 * ((q.q1 + d.q1) * (q.q2 + d.q2) + (q.q3 + d.q3) * (q.q4 + d.q4)) - m.y)
          - (bx2 * ((q.q2 - d.q2) * (q.q3 - d.q3) - (q.q1 - d.q1) * (q.q4 - d.q4)) + bz2 * ((q.q1 - d.q1) * (q.q2 - d.q2) + (q.q3 - d.q3) * (q.q4 - d.q4)) - m.y)
      == 2.0 * ((-bx2 * q.q4 + bz2 * q.q2) * d.q1 + (bx2 * q.q3 + bz2 * q.q1) * d.q2 + (bx2 * q.q2 + bz2 * q.q4) * d.q3 + (-bx2 * q.q1 + bz2 * q.q3) * d.q4)
  {
  }

  lemma FieldDerivativeZ(q: Quat, bx2: real, bz2: real, d: Quat, m: Vec3)
    ensures FieldError(Add(q, d), bx2, bz2, m).z - FieldError(Sub(q, d), bx2, bz2, m).z == 2.0 * FieldJacobian(q, bx2, bz2, d).z
  {
    FieldErrorAtSumZ(q, d, bx2, bz2, m);
    FieldErrorAtDifferenceZ(q, d, bx2, bz2, m);
    FieldJacobianRowZ(q, bx2, bz2, d);
    FieldPolynomialZ(q, d, bx2, bz2, m);
  }

  lemma FieldErrorAtSumZ(q: Quat, d: Quat, bx2: real, bz2: real, m: Vec3)
    ensures FieldError(Add(q, d), bx2, bz2, m).z ==
      bx2 * ((q.q1 + d.q1) * (q.q3 + d.q3) + (q.q2 + d.q2) * (q.q4 + d.q4)) + bz2 * (0.5 - (q.q2 + d.q2) * (q.q2 + d.q2) - (q.q3 + d.q3) * (q.q3 + d.q3)) - m.z
  {
  }

  lemma FieldErrorAtDifferenceZ(q: Quat, d: Quat, bx2: real, bz2: real, m: Vec3)
    ensures FieldError(Sub(q, d), bx2, bz2, m).z ==
      bx2 * ((q.q1 - d.q1) * (q.q3 - d.q3) + (q.q2 - d.q2) * (q.q4 - d.q4)) + bz2 * (0.5 - (q.q2 - d.q2) * (q.q2 - d.q2) - (q.q3 - d.q3) * (q.q3 - d.q3)) - m.z
  {
  }

  lemma FieldJacobianRowZ(q: Quat, bx2: real, bz2: real, d: Quat)
    ensures FieldJacobian(q, bx2, bz2, d).z ==
      bx2 * q.q3 * d.q1 + (bx2 * q.q4 - 2.0 * bz2 * q.q2) * d.q2 + (bx2 * q.q1 - 2.0 * bz2 * q.q3) * d.q3 + bx2 * q.q2 * d.q4
  {
  }

  lemma FieldPolynomialZ(q: Quat, d: Quat, bx2: real, bz2: real, m: Vec3)
    ensures (bx2 * ((q.q1 + d.q1) * (q.q3 + d.q3) + (q.q2 + d.q2) * (q.q4 + d.q4)) + bz2 * (0.5 - (q.q2 + d.q2) * (q.q2 + d.q2) - (q.q3 + d.q3) * (q.q3 + d.q3)) - m.z)
          - (bx2 * ((q.q1 - d.q1) * (q.q3 - d.q3) + (q.q2 - d.q2) * (q.q4 - d.q4)) + bz2 * (0.5 - (q.q2 - d.q2) * (q.q2 - d.q2) - (q.q3 - d.q3) * (q.q3 - d.q3)) - m.z)
      == 2.0 * (bx2 * q.q3 * d.q1 + (bx2 * q.q4 - 2.0 * bz2 * q.q2) * d.q2 + (bx2 * q.q1 - 2.0 * bz2 * q.q3) * d.q3 + bx2 * q.q2 * d.q4)
  {
  }

  /** `FieldJacobianT` is the transpose of `FieldJacobian`. */
  lemma FieldJacobianTransposed(q: Quat, bx2: real, bz2: real, d: Quat, f: Vec3)
    ensures Dot3(FieldJacobian(q, bx2, bz2, d), f) == Dot(d, FieldJacobianT(q, bx2, bz2, f))
  {
  }

  lemma FieldRotationX(q: Quat, bx2: real, bz2: real, m: Vec3)
    ensures FieldError(q, bx2, bz2, m).x == Rotate(Conj(q), Vec3(bx2 / 2.0, 0.0, bz2 / 2.0)).x + bx2 / 2.0 * (1.0 - NormSq(q)) - m.x
  {
    RotateBackX(q, Vec3(bx2 / 2.0, 0.0, bz2 / 2.0));
  }

  lemma FieldRotationY(q: Quat, bx2: real, bz2: real, m: Vec3)
    ensures FieldError(q, bx2, bz2, m).y == Rotate(Conj(q), Vec3(bx2 / 2.0, 0.0, bz2 / 2.0)).y - m.y
  {
    RotateBackY(q, Vec3(bx2 / 2.0, 0.0, bz2 / 2.0));
  }

  lemma FieldRotationZ(q: Quat, bx2: real, bz2: real, m: Vec3)
    ensures FieldError(q, bx2, bz2, m).z == Rotate(Conj(q), Vec3(bx2 / 2.0, 0.0, bz2 / 2.0)).z + bz2 / 2.0 * (1.0 - NormSq(q)) - m.z
  {
    RotateBackZ(q, Vec3(bx2 / 2.0, 0.0, bz2 / 2.0));
  }

  /**
   * `f_b` compares the reading with the reference field
   * `(_2bx / 2, 0, _2bz / 2)` turned into the sensor frame, up to a
   * correction that vanishes for a unit quaternion.
   */
  lemma {:induction false} FieldErrorIsRotation(q: Quat, bx2: real, bz2: real, m: Vec3)
    ensures var b := Vec3(bx2 / 2.0, 0.0, bz2 / 2.0);
      FieldError(q, bx2, bz2, m) == Sub3(Add3(Rotate(Conj(q), b), Scale3(b, 1.0 - NormSq(q))), m)
    ensures NormSq(q) == 1.0 ==> FieldError(q, bx2, bz2, m) == Sub3(Rotate(Conj(q), Vec3(bx2 / 2.0, 0.0, bz2 / 2.0)), m)
  {
    FieldRotationX(q, bx2, bz2, m);
    FieldRotationY(q, bx2, bz2, m);
    FieldRotationZ(q, bx2, bz2, m);
  }

  /* ---------------------------------------------------------------- *
   *  Rate of change and angles                                        *
   * ---------------------------------------------------------------- */

  /** The gyro reading converted from degrees to radians per second. */
  function Radians(math: Math, gyro: Vec3): Vec3 {
    Vec3(math.radians(gyro.x), math.radians(gyro.y), math.radians(gyro.z))
  }

  /** `(qDot1, ..., qDot4)`: the gyro rate `g` less `beta` times the normalised step `s`. */
  function QDot(q: Quat, g: Vec3, beta: real, s: Quat): Quat {
    Quat(0.5 * (-q.q2 * g.x - q.q3 * g.y - q.q4 * g.z) - beta * s.q1,
         0.5 * (q.q1 * g.x + q.q3 * g.z - q.q4 * g.y) - beta * s.q2,
         0.5 * (q.q1 * g.y - q.q2 * g.z + q.q4 * g.x) - beta * s.q3,
         0.5 * (q.q1 * g.z + q.q2 * g.y - q.q3 * g.x) - beta * s.q4)
  }

  /** The gyro term of `QDot` is the quaternion derivative `q ⊗ (0, g) / 2`. */
  lemma QDotIsRate(q: Quat, g: Vec3, beta: real, s: Quat)
    ensures QDot(q, g, beta, s) == Sub(Scale(Mul(q, Pure(g)), 0.5), Scale(s, beta))
  {
  }

  /**
   * The vertical as the sensor sees it, `(2(q2q4 - q1q3), 2(q1q2 + q3q4),
   * q1² - q2² - q3² + q4²)`: the three expressions the pitch and roll
   * formulas are written in.
   */
  function Vertical(q: Quat): Vec3 {
    Vec3(2.0 * (q.q2 * q.q4 - q.q1 * q.q3), 2.0 * (q.q1 * q.q2 + q.q3 * q.q4), q.q1 * q.q1 - q.q2 * q.q2 - q.q3 * q.q3 + q.q4 * q.q4)
  }

  /**
   * The sensor's x axis as the Earth frame sees it, `(q1² + q2² - q3² - q4²,
   * 2(q2q3 + q1q4), 2(q2q4 - q1q3))`: the heading formula is written in its
   * first two components.
   */
  function Forward(q: Quat): Vec3 {
    Vec3(q.q1 * q.q1 + q.q2 * q.q2 - q.q3 * q.q3 - q.q4 * q.q4, 2.0 * (q.q2 * q.q3 + q.q1 * q.q4), 2.0 * (q.q2 * q.q4 - q.q1 * q.q3))
  }

  /** Pitch read off a vertical: minus the arc sine of its x component, in degrees. */
  function PitchOf(math: Math, v: Vec3): real {
    math.degrees(-math.asin(v.x))
  }

  /** Roll read off a vertical: the angle of its (y, z) components, in degrees. */
  function RollOf(math: Math, v: Vec3): real {
    math.degrees(math.atan2(v.y, v.z))
  }

  /** Heading read off a forward axis: the angle of its (x, y) components, in degrees, plus `declination`. */
  function BearingOf(math: Math, declination: real, v: Vec3): real {
    declination + math.degrees(math.atan2(v.y, v.x))
  }

  /** `pitch`: `degrees(-asin(2(q2q4 - q1q3)))`. */
  function Pitch(math: Math, q: Quat): real {
    PitchOf(math, Vertical(q))
  }

  /** `roll`: `degrees(atan2(2(q1q2 + q3q4), q1² - q2² - q3² + q4²))`. */
  function Roll(math: Math, q: Quat): real {
    RollOf(math, Vertical(q))
  }

  /** `heading` of `update`: `declination + degrees(atan2(2(q2q3 + q1q4), q1² + q2² - q3² - q4²))`. */
  function Heading(math: Math, declination: real, q: Quat): real {
    BearingOf(math, declination, Forward(q))
  }

  /** `Vertical(q)` is the Earth's vertical `(0, 0, 1)` turned into the sensor frame, `q* ⊗ (0, 0, 0, 1) ⊗ q`. */
  lemma VerticalInSensorFrame(q: Quat)
    ensures Rotate(Conj(q), Vec3(0.0, 0.0, 1.0)) == Vertical(q)
  {
  }

  /** `Forward(q)` is the sensor's x axis turned into the Earth frame, `q ⊗ (0, 1, 0, 0) ⊗ q*`. */
  lemma ForwardInEarthFrame(q: Quat)
    ensures Rotate(q, Vec3(1.0, 0.0, 0.0)) == Forward(q)
  {
  }

  /** Pitch is read off the vertical as seen from the sensor. */
  lemma {:induction false} PitchFromVertical(math: Math, q: Quat)
    ensures Pitch(math, q) == PitchOf(math, Rotate(Conj(q), Vec3(0.0, 0.0, 1.0)))
  {
    VerticalInSensorFrame(q);
  }

  /** Roll is read off the same vertical. */
  lemma {:induction false} RollFromVertical(math: Math, q: Quat)
    ensures Roll(math, q) == RollOf(math, Rotate(Conj(q), Vec3(0.0, 0.0, 1.0)))
  {
    VerticalInSensorFrame(q);
  }

  /** Heading is read off the sensor's x axis turned into the Earth frame. */
  lemma {:induction false} HeadingFromForward(math: Math, declination: real, q: Quat)
    ensures Heading(math, declination, q) == BearingOf(math, declination, Rotate(q, Vec3(1.0, 0.0, 0.0)))
  {
    ForwardInEarthFrame(q);
  }

  /** For a unit quaternion the argument of `asin` in `Pitch` lies in `[-1, 1]`, so it is in the function's domain. */
  lemma {:induction false} PitchArgumentInDomain(q: Quat)
    requires NormSq(q) == 1.0
    ensures -1.0 <= Vertical(q).x <= 1.0
  {
    SqSumNonNegative(q.q2 - q.q4, q.q1 + q.q3);
    SqSumNonNegative(q.q2 + q.q4, q.q1 - q.q3);
  }
}
