/**
 * What magnetometer calibration computes, over the sequence of readings it
 * took: the per-axis minimum and maximum, seeded by the first reading, and
 * the per-axis midpoint stored as `magbias`.
 */
module Calibration {
  import opened Maths

  /** Component `i` of `v`, the way the calibration loops index the reading. */
  function Axis(v: Vec3, i: nat): real
    requires i < 3
  {
    if i == 0 then v.x else if i == 1 then v.y else v.z
  }

  function Min(a: real, b: real): real {
    if b < a then b else a
  }

  function Max(a: real, b: real): real {
    if b > a then b else a
  }

  /** What the `i`-th call of a reading source returns; every read of a source goes through here, so that all of them are one term. */
  function Reading(source: nat -> Vec3, i: nat): Vec3 {
    source(i)
  }

  /** The first `n` readings of a source whose `i`-th call returns `source(i)`. */
  function Readings(source: nat -> Vec3, n: nat): (r: seq<Vec3>)
    ensures |r| == n
    ensures forall i :: 0 <= i < n ==> r[i] == Reading(source, i)
  {
    if n == 0 then [] else Readings(source, n - 1) + [Reading(source, n - 1)]
  }

  /** One more call of the source extends its readings by what that call returns. */
  lemma ReadingsExtend(source: nat -> Vec3, n: nat)
    ensures Readings(source, n + 1) == Readings(source, n) + [Reading(source, n)]
  {
  }

  /** The per-axis minimum of the readings, folded from the first one. */
  function Lo(samples: seq<Vec3>): Vec3
    requires |samples| > 0
    decreases |samples|
  {
    if |samples| == 1 then samples[0]
    else
      var lo := Lo(samples[..|samples| - 1]);
      var v := samples[|samples| - 1];
      Vec3(Min(lo.x, v.x), Min(lo.y, v.y), Min(lo.z, v.z))
  }

  /** The per-axis maximum of the readings, folded from the first one. */
  function Hi(samples: seq<Vec3>): Vec3
    requires |samples| > 0
    decreases |samples|
  {
    if |samples| == 1 then samples[0]
    else
      var hi := Hi(samples[..|samples| - 1]);
      var v := samples[|samples| - 1];
      Vec3(Max(hi.x, v.x), Max(hi.y, v.y), Max(hi.z, v.z))
  }

  /** The per-axis midpoint of `lo` and `hi`. */
  function Midpoint(lo: Vec3, hi: Vec3): Vec3 {
    Vec3((lo.x + hi.x) / 2.0, (lo.y + hi.y) / 2.0, (lo.z + hi.z) / 2.0)
  }

  /** The bias a calibration over `samples` stores. */
  function Bias(samples: seq<Vec3>): Vec3
    requires |samples| > 0
  {
    Midpoint(Lo(samples), Hi(samples))
  }

  /** Every reading lies between the minimum and the maximum, on every axis. */
  lemma {:induction false} ExtremesBound(samples: seq<Vec3>)
    requires |samples| > 0
    ensures forall i, k :: 0 <= i < |samples| && 0 <= k < 3 ==>
      Axis(Lo(samples), k) <= Axis(samples[i], k) <= Axis(Hi(samples), k)
    decreases |samples|
  {
    if |samples| > 1 {
      var init := samples[..|samples| - 1];
      ExtremesBound(init);
      forall i, k | 0 <= i < |samples| && 0 <= k < 3
        ensures Axis(Lo(samples), k) <= Axis(samples[i], k) <= Axis(Hi(samples), k)
      {
        if i < |samples| - 1 {
          assert samples[i] == init[i];
          assert Axis(Lo(init), k) <= Axis(init[i], k) <= Axis(Hi(init), k);
        }
        // One axis at a time, so that `Axis` meets the componentwise fold.
        if k == 0 {
        } else if k == 1 {
        } else {
        }
      }
    }
  }

  /** The minimum and the maximum on each axis are the values of readings actually taken. */
  lemma {:induction false} ExtremesAttained(samples: seq<Vec3>, k: nat)
    requires |samples| > 0 && k < 3
    ensures exists i :: 0 <= i < |samples| && Axis(Lo(samples), k) == Axis(samples[i], k)
    ensures exists j :: 0 <= j < |samples| && Axis(Hi(samples), k) == Axis(samples[j], k)
    decreases |samples|
  {
    var last := |samples| - 1;
    if |samples| == 1 {
      assert Axis(Lo(samples), k) == Axis(samples[0], k);
      assert Axis(Hi(samples), k) == Axis(samples[0], k);
    } else {
      var init := samples[..last];
      ExtremesAttained(init, k);
      if Axis(Lo(samples), k) == Axis(samples[last], k) {
      } else {
        var i :| 0 <= i < |init| && Axis(Lo(init), k) == Axis(init[i], k);
        assert Axis(Lo(samples), k) == Axis(samples[i], k);
      }
      if Axis(Hi(samples), k) == Axis(samples[last], k) {
      } else {
        var j :| 0 <= j < |init| && Axis(Hi(init), k) == Axis(init[j], k);
        assert Axis(Hi(samples), k) == Axis(samples[j], k);
      }
    }
  }

  /** The bias lies between the minimum and the maximum on every axis. */
  lemma {:induction false} BiasWithinExtremes(samples: seq<Vec3>)
    requires |samples| > 0
    ensures forall k :: 0 <= k < 3 ==>
      Axis(Lo(samples), k) <= Axis(Bias(samples), k) <= Axis(Hi(samples), k)
  {
    ExtremesBound(samples);
    assert Axis(Lo(samples), 0) <= Axis(samples[0], 0) <= Axis(Hi(samples), 0);
    assert Axis(Lo(samples), 1) <= Axis(samples[0], 1) <= Axis(Hi(samples), 1);
    assert Axis(Lo(samples), 2) <= Axis(samples[0], 2) <= Axis(Hi(samples), 2);
  }

  /** A calibration that stops after its first reading stores that reading as the bias. */
  lemma SingleReading(v: Vec3)
    ensures Bias([v]) == v
  {
  }

  /** Taking one more reading folds it into the extremes: minimum and maximum are updated in place, axis by axis. */
  lemma {:induction false} ExtremesStep(samples: seq<Vec3>, v: Vec3)
    requires |samples| > 0
    ensures forall k :: 0 <= k < 3 ==>
      && Axis(Lo(samples + [v]), k) == Min(Axis(Lo(samples), k), Axis(v, k))
      && Axis(Hi(samples + [v]), k) == Max(Axis(Hi(samples), k), Axis(v, k))
  {
    assert (samples + [v])[..|samples|] == samples;
  }

  /** The running extremes held in `magmax` and `magmin` are those of `samples`. */
  ghost predicate Tracks(magmax: array<real>, magmin: array<real>, samples: seq<Vec3>)
    reads magmax, magmin
  {
    && magmax.Length == 3 && magmin.Length == 3 && |samples| > 0
    && (forall k :: 0 <= k < 3 ==> magmax[k] == Axis(Hi(samples), k))
    && (forall k :: 0 <= k < 3 ==> magmin[k] == Axis(Lo(samples), k))
  }

  /** The running extremes seeded with the first reading. */
  method Seed(v: Vec3) returns (magmax: array<real>, magmin: array<real>)
    ensures fresh(magmax) && fresh(magmin) && magmax != magmin
    ensures Tracks(magmax, magmin, [v])
  {
    magmax := new real[3];
    magmax[0], magmax[1], magmax[2] := v.x, v.y, v.z;
    magmin := new real[3];
    magmin[0], magmin[1], magmin[2] := v.x, v.y, v.z;
  }

  /** The inner loop of calibration: fold one more reading into the running extremes, axis by axis. */
  method Fold(magmax: array<real>, magmin: array<real>, ghost samples: seq<Vec3>, v: Vec3)
    requires magmax != magmin
    requires Tracks(magmax, magmin, samples)
    modifies magmax, magmin
    ensures Tracks(magmax, magmin, samples + [v])
  {
    ExtremesStep(samples, v);
    for x := 0 to 3
      invariant forall k :: 0 <= k < x ==>
        && magmax[k] == Axis(Hi(samples + [v]), k)
        && magmin[k] == Axis(Lo(samples + [v]), k)
      invariant forall k :: x <= k < 3 ==>
        && magmax[k] == Axis(Hi(samples), k)
        && magmin[k] == Axis(Lo(samples), k)
    {
      magmax[x] := Max(magmax[x], Axis(v, x));
      magmin[x] := Min(magmin[x], Axis(v, x));
    }
  }

  /** The bias computed from running extremes that track `samples`. */
  method Midpoints(magmax: array<real>, magmin: array<real>, ghost samples: seq<Vec3>) returns (bias: Vec3)
    requires Tracks(magmax, magmin, samples)
    ensures bias == Bias(samples)
  {
    bias := Vec3((magmin[0] + magmax[0]) / 2.0, (magmin[1] + magmax[1]) / 2.0, (magmin[2] + magmax[2]) / 2.0);
  }
}
