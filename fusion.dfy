/**
 * The synchronous filter of fusion.py: an object holding the quaternion,
 * the three angles, the magnetometer bias and a `DeltaT`, whose
 * `calibrate`, `update_nomag` and `update` methods change those fields in
 * place.  Each update method is proved to do what `Filter.UpdateNoMag` or
 * `Filter.UpdateMag` says of the state before it; the properties of an
 * update are proved once, about those functions, in module `Filter`.
 */
module Fusion {
  import opened Wrappers
  import opened Maths
  import opened Madgwick
  import Deltat
  import Filter
  import Calibration

  class Fusion {
    const math: Math
    const beta: real
    const deltat: Deltat.DeltaT
    /** Added to the magnetic heading; zero unless the user sets it. */
    var declination: real
    var magbias: Vec3
    var q: Quat
    var heading: real
    var pitch: real
    var roll: real

    /** The attitude fields, as one value. */
    function Attitude(): Filter.Attitude
      reads this
    {
      Filter.Attitude(q, heading, pitch, roll)
    }

    /** What the update functions need to know of this filter and its `DeltaT`. */
    function Setting(): Filter.Setting {
      Filter.Setting(math, beta, deltat.expectTs, deltat.timediff)
    }

    /**
     * `Fusion(timediff)`, with the `DeltaT` mode given explicitly: the
     * identity quaternion, zero angles, zero bias, zero declination, and a
     * `DeltaT` with no baseline.
     */
    constructor(expectTs: bool, timediff: Deltat.TimeDiff, math: Math)
      ensures this.math == math && beta == Filter.Beta(math)
      ensures Attitude() == Filter.Initial && q == Identity
      ensures magbias == Zero3 && declination == 0.0
      ensures fresh(deltat) && deltat.expectTs == expectTs && deltat.timediff == timediff
      ensures deltat.startTime == None
    {
      this.math := math;
      beta := Filter.Beta(math);
      deltat := new Deltat.DeltaT(expectTs, timediff);
      declination := 0.0;
      magbias := Zero3;
      q := Identity;
      heading := 0.0;
      pitch := 0.0;
      roll := 0.0;
    }

    /**
     * `calibrate(getxyz, stopfunc)`: the `i`-th call of `getxyz` returns
     * `getxyz(i)` and the `j`-th call of `stopfunc` returns `stopfunc(j)`.
     * One reading is taken before the first test and one per false test;
     * the bias becomes the per-axis midpoint of all readings taken.  The
     * result is the number of readings.
     */
    method Calibrate(getxyz: nat -> Vec3, stopfunc: nat -> bool) returns (taken: nat)
      requires exists k :: stopfunc(k)
      modifies this
      ensures taken >= 1 && stopfunc(taken - 1)
      ensures forall j :: 0 <= j < taken - 1 ==> !stopfunc(j)
      ensures magbias == Calibration.Bias(Calibration.Readings(getxyz, taken))
      ensures Attitude() == old(Attitude()) && declination == old(declination)
    {
      var magmax, magmin := Calibration.Seed(Calibration.Reading(getxyz, 0));
      taken := 1;
      ghost var stop: nat :| stopfunc(stop);
      while !stopfunc(taken - 1)
        invariant 1 <= taken <= stop + 1
        invariant forall j :: 0 <= j < taken - 1 ==> !stopfunc(j)
        invariant Calibration.Tracks(magmax, magmin, Calibration.Readings(getxyz, taken))
        invariant unchanged(this)
        decreases stop + 1 - taken
      {
        var magxyz := Calibration.Reading(getxyz, taken);
        Calibration.Fold(magmax, magmin, Calibration.Readings(getxyz, taken), magxyz);
        Calibration.ReadingsExtend(getxyz, taken);
        taken := taken + 1;
      }
      magbias := Calibration.Midpoints(magmax, magmin, Calibration.Readings(getxyz, taken));
    }

    /**
     * The common tail of both updates, once the rate is known: call
     * `deltat`, integrate, renormalise and write `q` and the angles.
     */
    method Integrate(rule: Filter.HeadingRule, qDot: Quat, ts: Option<int>, clock: int) returns (outcome: Filter.Outcome)
      modifies this, deltat
      ensures var r := Filter.Integrate(Setting(), rule, old(Attitude()), old(deltat.startTime), Filter.Rate(qDot), ts, clock);
        outcome == r.outcome && Attitude() == r.attitude && deltat.startTime == r.start
      ensures magbias == old(magbias) && declination == old(declination)
    {
      var dt := deltat.Call(ts, clock);
      if dt.Failure? {
        return Filter.Raised(dt.error);
      }
      var p := Add(q, Scale(qDot, dt.value));
      var norm := math.sqrt(NormSq(p));
      if norm == 0.0 {
        return Filter.Raised(ZeroDivision);
      }
      q := Scale(p, 1.0 / norm);
      heading := Filter.HeadingOf(math, rule, q);
      pitch := Pitch(math, q);
      roll := Roll(math, q);
      return Filter.Updated;
    }

    /**
     * `update_nomag(accel, gyro, ts)`, reading the clock as `clock` when no
     * stamp is expected.  A unit quaternion stays a unit quaternion.
     */
    method UpdateNoMag(accel: Vec3, gyro: Vec3, ts: Option<int>, clock: int) returns (outcome: Filter.Outcome)
      modifies this, deltat
      ensures var r := Filter.UpdateNoMag(Setting(), old(Attitude()), old(deltat.startTime), accel, gyro, ts, clock);
        outcome == r.outcome && Attitude() == r.attitude && deltat.startTime == r.start
      ensures magbias == old(magbias) && declination == old(declination)
      ensures math.Sound() && old(NormSq(q)) == 1.0 ==> NormSq(q) == 1.0
    {
      if math.Sound() && NormSq(q) == 1.0 {
        Filter.UnitPreserved(Setting(), Filter.Level, Attitude(), deltat.startTime,
          Filter.NoMagRate(math, beta, q, accel, gyro), ts, clock);
      }
      if math.sqrt(NormSq3(accel)) == 0.0 {
        return Filter.Skipped;
      }
      var a := Filter.Normalised(math, accel);
      var s := GravityStep(q, a);
      var norm := math.sqrt(NormSq(s));
      if norm == 0.0 {
        return Filter.Raised(ZeroDivision);
      }
      var qDot := QDot(q, Radians(math, gyro), beta, Scale(s, 1.0 / norm));
      outcome := Integrate(Filter.Level, qDot, ts, clock);
    }

    /**
     * `update(accel, gyro, mag, ts)`: the bias is taken off the
     * magnetometer reading before anything else.  A unit quaternion stays
     * a unit quaternion.
     */
    method Update(accel: Vec3, gyro: Vec3, mag: Vec3, ts: Option<int>, clock: int) returns (outcome: Filter.Outcome)
      modifies this, deltat
      ensures var r := Filter.UpdateMag(Setting(), old(declination), old(magbias), old(Attitude()), old(deltat.startTime),
                                        accel, gyro, mag, ts, clock);
        outcome == r.outcome && Attitude() == r.attitude && deltat.startTime == r.start
      ensures magbias == old(magbias) && declination == old(declination)
      ensures math.Sound() && old(NormSq(q)) == 1.0 ==> NormSq(q) == 1.0
    {
      if math.Sound() && NormSq(q) == 1.0 {
        Filter.UnitPreserved(Setting(), Filter.Magnetic(declination), Attitude(), deltat.startTime,
          Filter.MagRate(math, beta, q, accel, gyro, mag, magbias), ts, clock);
      }
      var m0 := Sub3(mag, magbias);
      if math.sqrt(NormSq3(accel)) == 0.0 {
        return Filter.Skipped;
      }
      if math.sqrt(NormSq3(m0)) == 0.0 {
        return Filter.Skipped;
      }
      var a := Filter.Normalised(math, accel);
      var m := Filter.Normalised(math, m0);
      var b := Filter.FieldMagnitudes(math, ReferenceField(q, m));
      var s := MargStep(q, a, m, b.0, b.1);
      var norm := math.sqrt(NormSq(s));
      if norm == 0.0 {
        return Filter.Raised(ZeroDivision);
      }
      var qDot := QDot(q, Radians(math, gyro), beta, Scale(s, 1.0 / norm));
      outcome := Integrate(Filter.Magnetic(declination), qDot, ts, clock);
    }
  }
}
