/**
 * The elapsed-time source of deltat.py.  A `DeltaT` remembers the stamp of
 * its previous call (`start_time`, absent at first) and on every call
 * returns `timediff(now, start_time)` before recording `now`; when
 * `timediff` raises, nothing is recorded.  With
 * `expect_ts` the stamp comes from the caller and must be present;
 * without it the caller's stamp is ignored and the clock is read.  The
 * clock reading is a parameter of each call.
 */
module Deltat {
  import opened Wrappers

  /** What one call of the caller's differencing function does: return a number of seconds, or raise. */
  datatype Diff = Seconds(dt: real) | Raises

  /**
   * The caller's differencing function, applied to the new stamp and the
   * previous one (absent on the first call).  It may raise: the default
   * `ticks_diff` does on an absent previous stamp.
   */
  type TimeDiff = (int, Option<int>) -> Diff

  /** What one call returns, and the baseline it leaves behind. */
  datatype Tick = Tick(dt: Result<real, Error>, start: Option<int>)

  /** The stamp a call uses: the caller's in `expect_ts` mode, otherwise the clock. */
  function Stamp(expectTs: bool, ts: Option<int>, clock: int): int
    requires expectTs ==> ts.Some?
  {
    if expectTs then ts.value else clock
  }

  /** `timediff(now, previous)`; every application of the differencing function goes through here, so that all of them are one term. */
  function Difference(timediff: TimeDiff, now: int, previous: Option<int>): Diff {
    timediff(now, previous)
  }

  /**
   * One call `deltat(ts)` on a `DeltaT` whose baseline is `start`, with the
   * clock reading `clock`.  The baseline is recorded only once `timediff`
   * has returned.
   */
  function Advance(expectTs: bool, timediff: TimeDiff, start: Option<int>, ts: Option<int>, clock: int): Tick {
    if expectTs && ts.None? then
      Tick(Failure(TimestampMissing), start)
    else
      var now := Stamp(expectTs, ts, clock);
      match Difference(timediff, now, start)
      case Raises => Tick(Failure(TimeDiffRaised), start)
      case Seconds(dt) => Tick(Success(dt), Some(now))
  }

  /** `ensure_ready(ts)`: make one call, whose value is dropped, only when there is no baseline yet. */
  function Prime(expectTs: bool, timediff: TimeDiff, start: Option<int>, ts: Option<int>, clock: int): Result<Option<int>, Error> {
    if start.None? then
      var t := Advance(expectTs, timediff, start, ts, clock);
      if t.dt.Failure? then Failure(t.dt.error) else Success(t.start)
    else
      Success(start)
  }

  /** The arguments of one call: the caller's stamp and the clock reading at that moment. */
  datatype Request = Request(ts: Option<int>, clock: int)

  /** A run of calls from baseline `start`: the value of each call, and the final baseline. */
  function Replay(expectTs: bool, timediff: TimeDiff, start: Option<int>, calls: seq<Request>): (seq<Result<real, Error>>, Option<int>)
    decreases |calls|
  {
    if |calls| == 0 then
      ([], start)
    else
      var t := Advance(expectTs, timediff, start, calls[0].ts, calls[0].clock);
      var rest := Replay(expectTs, timediff, t.start, calls[1..]);
      ([t.dt] + rest.0, rest.1)
  }

  /**
   * A call fails exactly when a stamp is expected and none is given, or
   * when `timediff` raises; a failed call keeps the baseline, and the
   * missing stamp is reported before `timediff` is called.
   */
  lemma AdvanceFailure(expectTs: bool, timediff: TimeDiff, start: Option<int>, ts: Option<int>, clock: int)
    ensures var t := Advance(expectTs, timediff, start, ts, clock);
      && (t.dt.Failure? <==>
            (expectTs && ts.None?) || Difference(timediff, Stamp(expectTs, ts, clock), start).Raises?)
      && (t.dt.Failure? ==> t.start == start)
      && (expectTs && ts.None? ==> t.dt == Failure(TimestampMissing))
      && (!(expectTs && ts.None?) && t.dt.Failure? ==> t.dt == Failure(TimeDiffRaised))
  {
  }

  /**
   * With the stamp supplied, a call measures from the previous stamp to
   * the one it uses and records that stamp, unless `timediff` raises; the
   * very first call passes an absent previous stamp, with no special
   * interval of its own.  (An unfolding of `Advance`.)
   */
  lemma AdvanceSuccess(expectTs: bool, timediff: TimeDiff, start: Option<int>, ts: Option<int>, clock: int)
    requires !(expectTs && ts.None?)
    ensures var now := if expectTs then ts.value else clock;
      Advance(expectTs, timediff, start, ts, clock) ==
        match timediff(now, start)
        case Seconds(dt) => Tick(Success(dt), Some(now))
        case Raises => Tick(Failure(TimeDiffRaised), start)
    ensures start.None? ==>
      var now := if expectTs then ts.value else clock;
      Advance(expectTs, timediff, start, ts, clock).dt ==
        if timediff(now, None).Raises? then Failure(TimeDiffRaised) else Success(timediff(now, None).dt)
  {
  }

  /** Without `expect_ts` the caller's stamp makes no difference: the clock is read, and only `timediff` can make the call fail. */
  lemma ClockModeIgnoresStamp(timediff: TimeDiff, start: Option<int>, ts1: Option<int>, ts2: Option<int>, clock: int)
    ensures Advance(false, timediff, start, ts1, clock) == Advance(false, timediff, start, ts2, clock)
    ensures Advance(false, timediff, start, ts1, clock).dt.Failure? <==> timediff(clock, start).Raises?
  {
  }

  /** After a successful call there is always a baseline (a corollary of `AdvanceSuccess`). */
  lemma SuccessLeavesBaseline(expectTs: bool, timediff: TimeDiff, start: Option<int>, ts: Option<int>, clock: int)
    ensures Advance(expectTs, timediff, start, ts, clock).dt.Success? ==>
      Advance(expectTs, timediff, start, ts, clock).start.Some?
  {
  }

  /** `ensure_ready` only primes an absent baseline; once primed, priming again changes nothing. */
  lemma PrimeOnce(expectTs: bool, timediff: TimeDiff, start: Option<int>, ts: Option<int>, clock: int, ts2: Option<int>, clock2: int)
    ensures start.Some? ==> Prime(expectTs, timediff, start, ts, clock) == Success(start)
    ensures Prime(expectTs, timediff, start, ts, clock).Success? ==>
      var primed := Prime(expectTs, timediff, start, ts, clock).value;
      && primed.Some?
      && Prime(expectTs, timediff, primed, ts2, clock2) == Success(primed)
  {
  }

  /** The differencing function raises whenever there is no previous stamp, as `ticks_diff(ts, None)` does. */
  ghost predicate RejectsFirst(timediff: TimeDiff) {
    forall now :: Difference(timediff, now, None).Raises?
  }

  /**
   * With such a function a `DeltaT` never gets started: from no baseline,
   * every call of a run raises, the baseline stays absent, and
   * `ensure_ready` raises too.
   */
  lemma {:induction false} NeverStarts(expectTs: bool, timediff: TimeDiff, calls: seq<Request>, ts: Option<int>, clock: int)
    requires RejectsFirst(timediff)
    ensures var run := Replay(expectTs, timediff, None, calls);
      && run.1 == None
      && |run.0| == |calls|
      && forall i :: 0 <= i < |calls| ==> run.0[i].Failure?
    ensures Prime(expectTs, timediff, None, ts, clock).Failure?
    decreases |calls|
  {
    if |calls| > 0 {
      NeverStarts(expectTs, timediff, calls[1..], ts, clock);
    } else {
      if !(expectTs && ts.None?) {
        assert Difference(timediff, Stamp(expectTs, ts, clock), None).Raises?;
      }
    }
  }

  /** The stamp the `i`-th call of a run uses. */
  function StampOf(expectTs: bool, call: Request): int {
    if expectTs && call.ts.Some? then call.ts.value else call.clock
  }

  /** Every call of the run supplies what the mode needs. */
  predicate Supplied(expectTs: bool, calls: seq<Request>) {
    forall i :: 0 <= i < |calls| ==> !(expectTs && calls[i].ts.None?)
  }

  /** The stamp before call `i` of a run in which every earlier call succeeded: the initial baseline for the first. */
  function Previous(expectTs: bool, start: Option<int>, calls: seq<Request>, i: nat): Option<int>
    requires i < |calls|
  {
    if i == 0 then start else Some(StampOf(expectTs, calls[i - 1]))
  }

  /** `timediff` returns on every call of the run, each measured from the stamp of the call before it. */
  ghost predicate Measurable(expectTs: bool, timediff: TimeDiff, start: Option<int>, calls: seq<Request>) {
    forall i :: 0 <= i < |calls| ==> Difference(timediff, StampOf(expectTs, calls[i]), Previous(expectTs, start, calls, i)).Seconds?
  }

  /**
   * Over a run of calls that all supply what the mode needs, and on which
   * `timediff` does not raise, call `i` returns the interval from the
   * stamp of call `i - 1` (the initial baseline for the first) to its own
   * stamp, and the run ends with the last stamp as baseline.  Where
   * `timediff` raises, `NeverStarts` and `AdvanceFailure` say what happens.
   */
  lemma {:induction false} ReplayMeasuresIntervals(expectTs: bool, timediff: TimeDiff, start: Option<int>, calls: seq<Request>)
    requires Supplied(expectTs, calls) && Measurable(expectTs, timediff, start, calls)
    ensures |Replay(expectTs, timediff, start, calls).0| == |calls|
    ensures forall i :: 0 <= i < |calls| ==>
      Replay(expectTs, timediff, start, calls).0[i] ==
        Success(Difference(timediff, StampOf(expectTs, calls[i]), Previous(expectTs, start, calls, i)).dt)
    ensures Replay(expectTs, timediff, start, calls).1 ==
      if |calls| == 0 then start else Some(StampOf(expectTs, calls[|calls| - 1]))
    decreases |calls|
  {
    if |calls| > 0 {
      var t := Advance(expectTs, timediff, start, calls[0].ts, calls[0].clock);
      assert Difference(timediff, StampOf(expectTs, calls[0]), start).Seconds?;
      assert t.start == Some(StampOf(expectTs, calls[0]));
      var tail := calls[1..];
      assert Supplied(expectTs, tail) by {
        forall i | 0 <= i < |tail| ensures !(expectTs && tail[i].ts.None?) {
          assert tail[i] == calls[i + 1];
        }
      }
      assert Measurable(expectTs, timediff, t.start, tail) by {
        forall i | 0 <= i < |tail|
          ensures Difference(timediff, StampOf(expectTs, tail[i]), Previous(expectTs, t.start, tail, i)).Seconds?
        {
          assert tail[i] == calls[i + 1];
          assert Previous(expectTs, t.start, tail, i) == Previous(expectTs, start, calls, i + 1);
        }
      }
      ReplayMeasuresIntervals(expectTs, timediff, t.start, tail);
      forall i | 0 <= i < |calls|
        ensures Replay(expectTs, timediff, start, calls).0[i] ==
          Success(Difference(timediff, StampOf(expectTs, calls[i]), Previous(expectTs, start, calls, i)).dt)
      {
        if i > 0 {
          assert tail[i - 1] == calls[i];
          assert Previous(expectTs, t.start, tail, i - 1) == Previous(expectTs, start, calls, i);
        }
      }
    }
  }

  /** A `DeltaT` instance: its mode and differencing function are fixed, its baseline changes. */
  class DeltaT {
    const expectTs: bool
    const timediff: TimeDiff
    var startTime: Option<int>

    /** A fresh instance has no baseline. */
    constructor(expectTs: bool, timediff: TimeDiff)
      ensures this.expectTs == expectTs && this.timediff == timediff
      ensures startTime == None
    {
      this.expectTs := expectTs;
      this.timediff := timediff;
      startTime := None;
    }

    /** `__call__(ts)`, reading `clock` as `time.ticks_us()` when no stamp is expected. */
    method Call(ts: Option<int>, clock: int) returns (dt: Result<real, Error>)
      modifies this
      ensures Tick(dt, startTime) == Advance(expectTs, timediff, old(startTime), ts, clock)
    {
      var now: int;
      if expectTs {
        if ts.None? {
          return Failure(TimestampMissing);
        }
        now := ts.value;
      } else {
        now := clock;
      }
      var d := Difference(timediff, now, startTime);
      if d.Raises? {
        return Failure(TimeDiffRaised);
      }
      dt := Success(d.dt);
      startTime := Some(now);
    }

    /** `ensure_ready(ts)`: the error of the priming call, if it raised one. */
    method EnsureReady(ts: Option<int>, clock: int) returns (error: Option<Error>)
      modifies this
      ensures var r := Prime(expectTs, timediff, old(startTime), ts, clock);
        if r.Success? then error == None && startTime == r.value
        else error == Some(r.error) && startTime == old(startTime)
    {
      error := None;
      if startTime.None? {
        var dt := Call(ts, clock);
        if dt.Failure? {
          error := Some(dt.error);
        }
      }
    }
  }
}
