/**
 * One filter update, as both `Fusion` classes perform it: the guards on
 * the readings, the corrective step, the call to `deltat`, the integration
 * `q + qDot * dt`, the renormalisation and the angles.  An update is a
 * function of the attitude before it, the `DeltaT` baseline before it and
 * the readings; it returns how the call ended, the attitude after it and
 * the baseline after it.  The synchronous methods and the asynchronous
 * loops are both proved against these functions.
 */
module Filter {
  import opened Wrappers
  import opened Maths
  import opened Madgwick
  import Deltat

  /** The orientation state of a filter: `q`, `heading`, `pitch` and `roll`. */
  datatype Attitude = Attitude(q: Quat, heading: real, pitch: real, roll: real)

  /** The attitude of a new filter. */
  const Initial := Attitude(Identity, 0.0, 0.0, 0.0)

  /** `beta`: `sqrt(3 / 4)` times the gyro measurement error of 40 degrees, in radians. */
  function Beta(math: Math): real {
    math.sqrt(3.0 / 4.0) * math.radians(40.0)
  }

  /** What a filter is built with: the maths library, `beta`, and the `DeltaT` mode and differencing function. */
  datatype Setting = Setting(math: Math, beta: real, expectTs: bool, timediff: Deltat.TimeDiff)

  /** How an update call ends: it wrote a new attitude, returned early on a zero reading, or raised. */
  datatype Outcome = Updated | Skipped | Raised(error: Error)

  /** An update's outcome, the attitude after it and the `DeltaT` baseline after it. */
  datatype Update = Update(outcome: Outcome, attitude: Attitude, start: Option<int>)

  /** The part of an update before `deltat` is called: the rate of change of `q`, or how the call ends without one. */
  datatype Rate = Rate(qDot: Quat) | Skip | Fail(error: Error)

  /** The heading an update writes: zero without a magnetometer, the magnetic heading plus `declination` with one. */
  datatype HeadingRule = Level | Magnetic(declination: real)

  /** The normalised reading `v * (1 / sqrt(|v|²))`. */
  function Normalised(math: Math, v: Vec3): Vec3
    requires math.sqrt(NormSq3(v)) != 0.0
  {
    Scale3(v, 1.0 / math.sqrt(NormSq3(v)))
  }

  /** The rate of `update_nomag`: skip on a zero accelerometer norm, fail on a zero step norm. */
  function NoMagRate(math: Math, beta: real, q: Quat, accel: Vec3, gyro: Vec3): Rate {
    if math.sqrt(NormSq3(accel)) == 0.0 then
      Skip
    else
      var a := Normalised(math, accel);
      var s := GravityStep(q, a);
      var n := math.sqrt(NormSq(s));
      if n == 0.0 then Fail(ZeroDivision)
      else Rate(QDot(q, Radians(math, gyro), beta, Scale(s, 1.0 / n)))
  }

  /** `(_2bx, _2bz)`: the horizontal and vertical magnitudes of the reference field `h`. */
  function FieldMagnitudes(math: Math, h: Vec3): (real, real) {
    (math.sqrt(h.x * h.x + h.y * h.y), h.z)
  }

  /**
   * The rate of `update`: the bias is taken off the magnetometer reading;
   * skip on a zero accelerometer norm, then on a zero magnetometer norm;
   * fail on a zero step norm.
   */
  function MagRate(math: Math, beta: real, q: Quat, accel: Vec3, gyro: Vec3, mag: Vec3, magbias: Vec3): Rate {
    var m0 := Sub3(mag, magbias);
    if math.sqrt(NormSq3(accel)) == 0.0 then
      Skip
    else if math.sqrt(NormSq3(m0)) == 0.0 then
      Skip
    else
      var a := Normalised(math, accel);
      var m := Normalised(math, m0);
      var b := FieldMagnitudes(math, ReferenceField(q, m));
      var s := MargStep(q, a, m, b.0, b.1);
      var n := math.sqrt(NormSq(s));
      if n == 0.0 then Fail(ZeroDivision)
      else Rate(QDot(q, Radians(math, gyro), beta, Scale(s, 1.0 / n)))
  }

  /** The heading written after an update. */
  function HeadingOf(math: Math, rule: HeadingRule, q: Quat): real {
    match rule
    case Level => 0.0
    case Magnetic(declination) => Heading(math, declination, q)
  }

  /**
   * The rest of an update: call `deltat`, integrate, renormalise (which
   * fails on a zero norm) and write the attitude.  Before `deltat` is
   * called, a skipped or failed rate leaves everything as it was.
   */
  function Integrate(s: Setting, rule: HeadingRule, att: Attitude, start: Option<int>, rate: Rate, ts: Option<int>, clock: int): Update {
    match rate
    case Skip => Update(Skipped, att, start)
    case Fail(e) => Update(Raised(e), att, start)
    case Rate(qDot) =>
      var t := Deltat.Advance(s.expectTs, s.timediff, start, ts, clock);
      if t.dt.Failure? then
        Update(Raised(t.dt.error), att, t.start)
      else
        var p := Add(att.q, Scale(qDot, t.dt.value));
        var n := s.math.sqrt(NormSq(p));
        if n == 0.0 then
          Update(Raised(ZeroDivision), att, t.start)
        else
          var q := Scale(p, 1.0 / n);
          Update(Updated, Attitude(q, HeadingOf(s.math, rule, q), Pitch(s.math, q), Roll(s.math, q)), t.start)
  }

  /** `update_nomag(accel, gyro, ts)`. */
  function UpdateNoMag(s: Setting, att: Attitude, start: Option<int>, accel: Vec3, gyro: Vec3, ts: Option<int>, clock: int): Update {
    Integrate(s, Level, att, start, NoMagRate(s.math, s.beta, att.q, accel, gyro), ts, clock)
  }

  /** `update(accel, gyro, mag, ts)`. */
  function UpdateMag(s: Setting, declination: real, magbias: Vec3, att: Attitude, start: Option<int>,
                     accel: Vec3, gyro: Vec3, mag: Vec3, ts: Option<int>, clock: int): Update {
    Integrate(s, Magnetic(declination), att, start, MagRate(s.math, s.beta, att.q, accel, gyro, mag, magbias), ts, clock)
  }

  /* ---------------------------------------------------------------- *
   *  What an update does                                              *
   * ---------------------------------------------------------------- */

  /**
   * How the tail of an update ends.  Whatever the rate, the attitude is
   * written only on `Updated`; the baseline moves only once `deltat` has
   * been called, and then to the stamp the call used; a skip happens only
   * on a skipped rate.
   */
  lemma IntegrateFrame(s: Setting, rule: HeadingRule, att: Attitude, start: Option<int>, rate: Rate, ts: Option<int>, clock: int)
    ensures var r := Integrate(s, rule, att, start, rate, ts, clock);
      && (r.outcome != Updated ==> r.attitude == att)
      && (r.outcome == Skipped <==> rate.Skip?)
      && (!rate.Rate? ==> r == Update(if rate.Skip? then Skipped else Raised(rate.error), att, start))
      && (rate.Rate? ==> r.start == Deltat.Advance(s.expectTs, s.timediff, start, ts, clock).start)
  {
  }

  /** `update_nomag` returns early exactly on a zero accelerometer reading, and then changes nothing, the baseline included. */
  lemma {:induction false} NoMagSkip(s: Setting, att: Attitude, start: Option<int>, accel: Vec3, gyro: Vec3, ts: Option<int>, clock: int)
    requires s.math.Sound()
    ensures var r := UpdateNoMag(s, att, start, accel, gyro, ts, clock);
      && (r.outcome == Skipped <==> accel == Zero3)
      && (accel == Zero3 ==> r == Update(Skipped, att, start))
  {
    SqrtNormSq3Zero(s.math, accel);
  }

  /**
   * `update` subtracts the bias from the magnetometer reading and returns
   * early exactly when the accelerometer or the corrected magnetometer
   * reading is zero; it then changes nothing, the baseline included.
   */
  lemma {:induction false} MagSkip(s: Setting, declination: real, magbias: Vec3, att: Attitude, start: Option<int>,
                                   accel: Vec3, gyro: Vec3, mag: Vec3, ts: Option<int>, clock: int)
    requires s.math.Sound()
    ensures var r := UpdateMag(s, declination, magbias, att, start, accel, gyro, mag, ts, clock);
      && (r.outcome == Skipped <==> accel == Zero3 || Sub3(mag, magbias) == Zero3)
      && (r.outcome == Skipped ==> r == Update(Skipped, att, start))
  {
    SqrtNormSq3Zero(s.math, accel);
    SqrtNormSq3Zero(s.math, Sub3(mag, magbias));
  }

  /**
   * The written quaternion is the integrated one scaled to unit length,
   * the angles are read off it, and the baseline becomes the stamp the
   * `deltat` call used.
   */
  lemma {:induction false} IntegrateUpdated(s: Setting, rule: HeadingRule, att: Attitude, start: Option<int>, rate: Rate, ts: Option<int>, clock: int)
    requires s.math.Sound()
    ensures var r := Integrate(s, rule, att, start, rate, ts, clock);
      r.outcome == Updated ==>
        && rate.Rate?
        && !(s.expectTs && ts.None?)
        && Deltat.Difference(s.timediff, Deltat.Stamp(s.expectTs, ts, clock), start).Seconds?
        && var dt := Deltat.Difference(s.timediff, Deltat.Stamp(s.expectTs, ts, clock), start).dt;
           var p := Add(att.q, Scale(rate.qDot, dt));
           && s.math.sqrt(NormSq(p)) != 0.0
           && r.attitude.q == Scale(p, 1.0 / s.math.sqrt(NormSq(p)))
           && NormSq(r.attitude.q) == 1.0
           && r.attitude.heading == HeadingOf(s.math, rule, r.attitude.q)
           && r.attitude.pitch == Pitch(s.math, r.attitude.q)
           && r.attitude.roll == Roll(s.math, r.attitude.q)
           && r.start == Some(Deltat.Stamp(s.expectTs, ts, clock))
  {
    var r := Integrate(s, rule, att, start, rate, ts, clock);
    if r.outcome == Updated {
      var dt := Deltat.Difference(s.timediff, Deltat.Stamp(s.expectTs, ts, clock), start).dt;
      var p := Add(att.q, Scale(rate.qDot, dt));
      ReciprocalNormIsUnit(s.math, p);
    }
  }

  /**
   * Once the guards have passed, an update raises for want of a stamp
   * exactly in `expect_ts` mode without one, and otherwise raises from
   * `deltat` exactly when `timediff` does; either way it changes nothing.
   */
  lemma TimestampRule(s: Setting, rule: HeadingRule, att: Attitude, start: Option<int>, rate: Rate, ts: Option<int>, clock: int)
    requires rate.Rate?
    ensures var r := Integrate(s, rule, att, start, rate, ts, clock);
      && (r.outcome == Raised(TimestampMissing) <==> s.expectTs && ts.None?)
      && (s.expectTs && ts.None? ==> r == Update(Raised(TimestampMissing), att, start))
      && (r.outcome == Raised(TimeDiffRaised) <==>
            !(s.expectTs && ts.None?) && Deltat.Difference(s.timediff, Deltat.Stamp(s.expectTs, ts, clock), start).Raises?)
      && (r.outcome == Raised(TimeDiffRaised) ==> r == Update(Raised(TimeDiffRaised), att, start))
  {
  }

  /** Every update keeps the quaternion at unit length. */
  lemma {:induction false} UnitPreserved(s: Setting, rule: HeadingRule, att: Attitude, start: Option<int>, rate: Rate, ts: Option<int>, clock: int)
    requires s.math.Sound() && NormSq(att.q) == 1.0
    ensures NormSq(Integrate(s, rule, att, start, rate, ts, clock).attitude.q) == 1.0
  {
    IntegrateFrame(s, rule, att, start, rate, ts, clock);
    IntegrateUpdated(s, rule, att, start, rate, ts, clock);
  }

  /**
   * The rate of `update_nomag` is the documented one: half the quaternion
   * product of `q` with the gyro rate, less `beta` times the normalised
   * gradient `J_gᵀ f_g` of the gravity objective.
   */
  lemma {:induction false} NoMagRateIsGradientDescent(math: Math, beta: real, q: Quat, accel: Vec3, gyro: Vec3)
    ensures var r := NoMagRate(math, beta, q, accel, gyro);
      r.Rate? ==>
        var a := Normalised(math, accel);
        var g := GravityJacobianT(q, GravityError(q, a));
        && math.sqrt(NormSq(g)) != 0.0
        && r.qDot == Sub(Scale(Mul(q, Pure(Radians(math, gyro))), 0.5), Scale(Scale(g, 1.0 / math.sqrt(NormSq(g))), beta))
  {
    if NoMagRate(math, beta, q, accel, gyro).Rate? {
      var a := Normalised(math, accel);
      var n := math.sqrt(NormSq(GravityStep(q, a)));
      GravityStepIsGradient(q, a);
      QDotIsRate(q, Radians(math, gyro), beta, Scale(GravityStep(q, a), 1.0 / n));
    }
  }

  /**
   * The rate of `update` is the documented one: the normalised gradient of
   * the combined gravity and field objective, where the reference field
   * has the horizontal and vertical magnitudes of the normalised reading
   * turned into the Earth frame, `q ⊗ (0, m) ⊗ q*`.
   */
  lemma {:induction false} MagRateIsGradientDescent(math: Math, beta: real, q: Quat, accel: Vec3, gyro: Vec3, mag: Vec3, magbias: Vec3)
    ensures var r := MagRate(math, beta, q, accel, gyro, mag, magbias);
      r.Rate? ==>
        var a := Normalised(math, accel);
        var m := Normalised(math, Sub3(mag, magbias));
        var b := FieldMagnitudes(math, Rotate(q, m));
        var g := Add(GravityJacobianT(q, GravityError(q, a)), FieldJacobianT(q, b.0, b.1, FieldError(q, b.0, b.1, m)));
        && math.sqrt(NormSq(g)) != 0.0
        && r.qDot == Sub(Scale(Mul(q, Pure(Radians(math, gyro))), 0.5), Scale(Scale(g, 1.0 / math.sqrt(NormSq(g))), beta))
  {
    if MagRate(math, beta, q, accel, gyro, mag, magbias).Rate? {
      var a := Normalised(math, accel);
      var m := Normalised(math, Sub3(mag, magbias));
      ReferenceFieldIsRotation(q, m);
      var b := FieldMagnitudes(math, Rotate(q, m));
      MargStepIsGradient(q, a, m, b.0, b.1);
      var n := math.sqrt(NormSq(MargStep(q, a, m, b.0, b.1)));
      QDotIsRate(q, Radians(math, gyro), beta, Scale(MargStep(q, a, m, b.0, b.1), 1.0 / n));
    }
  }

  /**
   * The step normalisation has no guard: a level reading `(0, 0, c)` taken
   * at the initial quaternion makes the gradient vanish, and
   * `update_nomag` raises a division error before calling `deltat`.
   */
  lemma {:induction false} LevelAtRestRaises(s: Setting, att: Attitude, start: Option<int>, c: real, gyro: Vec3, ts: Option<int>, clock: int)
    requires s.math.Sound() && att.q == Identity && c != 0.0
    ensures UpdateNoMag(s, att, start, Vec3(0.0, 0.0, c), gyro, ts, clock) == Update(Raised(ZeroDivision), att, start)
  {
    var accel := Vec3(0.0, 0.0, c);
    SqrtNormSq3Zero(s.math, accel);
    var a := Normalised(s.math, accel);
    assert a.x == 0.0 && a.y == 0.0;
    assert GravityStep(Identity, a) == ZeroQ;
    SqrtNormSqZero(s.math, ZeroQ);
  }
}
