/**
 * The asynchronous filter of fusion_async.py.  Samples come from
 * `read_coro`, modelled as a stream: its `n`-th call returns
 * `readCoro(n)`, and the object counts the calls it has made in
 * `consumed`.  A sample is the tuple the coroutine returns: vectors, and a
 * timestamp last when one is expected.  `start` reads one sample to choose
 * between the two update loops; each loop unpacks one sample per
 * iteration, runs one filter update on it, and ends the task on a zero
 * reading or on an exception.  A loop run over a budget of samples is
 * proved against the recursive function `RunLoop`, whose properties are
 * proved once for any loop body and then for the two bodies.
 */
module FusionAsync {
  import opened Wrappers
  import opened Maths
  import Deltat
  import Madgwick
  import Filter
  import Calibration

  /** One element of a sample tuple: a three-vector, or a timestamp. */
  datatype Item = Vector(v: Vec3) | Stamp(ts: int)

  /** The tuple one call of `read_coro` returns. */
  type Sample = seq<Item>

  /** What the `n`-th call of `read_coro` returns; every read of the stream goes through here, so that all of them are one term. */
  function NthSample(readCoro: nat -> Sample, n: nat): Sample {
    readCoro(n)
  }

  /** `(accel, gyro, ts)` as the 6-axis loop unpacks a sample, `ts` absent unless stamps are expected. */
  datatype NoMagReading = NoMagReading(accel: Vec3, gyro: Vec3, ts: Option<int>)

  /** `(accel, gyro, mag, ts)` as the 9-axis loop unpacks a sample. */
  datatype MagReading = MagReading(accel: Vec3, gyro: Vec3, mag: Vec3, ts: Option<int>)

  /** The loop `start` chooses. */
  datatype Loop = NoMagLoop | MagLoop

  /** How a run of a loop stands: still running, ended by the zero-reading `return`, or ended by an exception. */
  datatype Halt = Running | Returned | Died(error: Error)

  /** The state after one iteration of a loop. */
  datatype Step = Step(halt: Halt, attitude: Filter.Attitude, start: Option<int>)

  /** The state after a run of a loop: how it stands, the attitude, the `DeltaT` baseline and the samples consumed so far. */
  datatype Run = Run(halt: Halt, attitude: Filter.Attitude, start: Option<int>, consumed: nat)

  /** The tuple a reading is unpacked from: the vectors in order, then the stamp if there is one. */
  function PackNoMag(r: NoMagReading): Sample {
    [Vector(r.accel), Vector(r.gyro)] + (if r.ts.Some? then [Stamp(r.ts.value)] else [])
  }

  /** The tuple a 9-axis reading is unpacked from. */
  function PackMag(r: MagReading): Sample {
    [Vector(r.accel), Vector(r.gyro), Vector(r.mag)] + (if r.ts.Some? then [Stamp(r.ts.value)] else [])
  }

  /**
   * `accel, gyro, ts = sample` with stamps expected, `accel, gyro = sample`
   * otherwise: a tuple of another length, or an element of the wrong kind,
   * raises.  What is unpacked packs back into the very sample, with a
   * stamp exactly when stamps are expected.
   */
  function UnpackNoMag(expectTs: bool, sample: Sample): (r: Result<NoMagReading, Error>)
    ensures r.Success? <==>
      (if expectTs then |sample| == 3 && sample[2].Stamp? else |sample| == 2) && sample[0].Vector? && sample[1].Vector?
    ensures r.Success? ==> PackNoMag(r.value) == sample && r.value.ts.Some? == expectTs
    ensures r.Success? ==>
      && r.value.accel == sample[0].v && r.value.gyro == sample[1].v
      && r.value.ts == (if expectTs then Some(sample[|sample| - 1].ts) else None)
    ensures r.Failure? ==> r.error == BadSample
  {
    if expectTs then
      if |sample| == 3 && sample[0].Vector? && sample[1].Vector? && sample[2].Stamp? then
        Success(NoMagReading(sample[0].v, sample[1].v, Some(sample[2].ts)))
      else Failure(BadSample)
    else
      if |sample| == 2 && sample[0].Vector? && sample[1].Vector? then
        Success(NoMagReading(sample[0].v, sample[1].v, None))
      else Failure(BadSample)
  }

  /**
   * `accel, gyro, mag, ts = sample` with stamps expected, `accel, gyro, mag
   * = sample` otherwise; what is unpacked packs back into the sample.
   */
  function UnpackMag(expectTs: bool, sample: Sample): (r: Result<MagReading, Error>)
    ensures r.Success? <==>
      (if expectTs then |sample| == 4 && sample[3].Stamp? else |sample| == 3)
      && sample[0].Vector? && sample[1].Vector? && sample[2].Vector?
    ensures r.Success? ==> PackMag(r.value) == sample && r.value.ts.Some? == expectTs
    ensures r.Success? ==>
      && r.value.accel == sample[0].v && r.value.gyro == sample[1].v && r.value.mag == sample[2].v
      && r.value.ts == (if expectTs then Some(sample[|sample| - 1].ts) else None)
    ensures r.Failure? ==> r.error == BadSample
  {
    if expectTs then
      if |sample| == 4 && sample[0].Vector? && sample[1].Vector? && sample[2].Vector? && sample[3].Stamp? then
        Success(MagReading(sample[0].v, sample[1].v, sample[2].v, Some(sample[3].ts)))
      else Failure(BadSample)
    else
      if |sample| == 3 && sample[0].Vector? && sample[1].Vector? && sample[2].Vector? then
        Success(MagReading(sample[0].v, sample[1].v, sample[2].v, None))
      else Failure(BadSample)
  }

  /** `res[2]`, the magnetometer vector calibration reads: missing on a short tuple, of the wrong kind if a stamp. */
  function MagOf(sample: Sample): (r: Result<Vec3, Error>)
    ensures r.Success? <==> |sample| > 2 && sample[2].Vector?
    ensures r.Success? ==> r.value == sample[2].v
  {
    if |sample| <= 2 then Failure(IndexOutOfRange)
    else if sample[2].Stamp? then Failure(BadSample)
    else Success(sample[2].v)
  }

  /** Unpacking inverts packing: a reading with a stamp exactly when stamps are expected comes back unchanged. */
  lemma UnpackPackNoMag(expectTs: bool, r: NoMagReading)
    requires r.ts.Some? == expectTs
    ensures UnpackNoMag(expectTs, PackNoMag(r)) == Success(r)
  {
  }

  /** The same round trip for the 9-axis tuple. */
  lemma UnpackPackMag(expectTs: bool, r: MagReading)
    requires r.ts.Some? == expectTs
    ensures UnpackMag(expectTs, PackMag(r)) == Success(r)
  {
  }

  /**
   * Calibration reads the magnetometer vector the 9-axis loop would
   * unpack from the same sample, and its `res[2]` fails with an
   * `IndexError` exactly on a tuple of two or fewer elements.
   */
  lemma CalibrationReadsLoopMag(expectTs: bool, sample: Sample)
    ensures UnpackMag(expectTs, sample).Success? ==> MagOf(sample) == Success(UnpackMag(expectTs, sample).value.mag)
    ensures MagOf(sample) == Failure(IndexOutOfRange) <==> |sample| <= 2
    ensures UnpackNoMag(false, sample).Success? ==> MagOf(sample).Failure?
  {
  }

  /** The magnetometer vector of a sample, or zero where it has none; used only where every vector read was present. */
  function MagValue(sample: Sample): Vec3 {
    if MagOf(sample).Success? then MagOf(sample).value else Zero3
  }

  /** Every one of the `n` samples from the `first`-th on holds a magnetometer vector. */
  predicate MagsPresent(readCoro: nat -> Sample, first: nat, n: nat) {
    forall i :: first <= i < first + n ==> MagOf(NthSample(readCoro, i)).Success?
  }

  /** The magnetometer vectors of the `n` samples from the `first`-th on. */
  function Mags(readCoro: nat -> Sample, first: nat, n: nat): (r: seq<Vec3>)
    ensures |r| == n
    ensures forall i :: 0 <= i < n ==> r[i] == MagValue(NthSample(readCoro, first + i))
  {
    if n == 0 then [] else Mags(readCoro, first, n - 1) + [MagValue(NthSample(readCoro, first + n - 1))]
  }

  /** One more sample holding a magnetometer vector extends both the run of present vectors and their sequence. */
  lemma MagsExtend(readCoro: nat -> Sample, first: nat, n: nat, v: Vec3)
    requires MagsPresent(readCoro, first, n) && MagOf(NthSample(readCoro, first + n)) == Success(v)
    ensures MagsPresent(readCoro, first, n + 1)
    ensures Mags(readCoro, first, n + 1) == Mags(readCoro, first, n) + [v]
  {
  }

  /** The rule of `start`: the 6-axis loop for a pair, or a triple when stamps are expected; the 9-axis loop otherwise. */
  function Dispatch(expectTs: bool, sample: Sample): Loop {
    if |sample| == 2 || (expectTs && |sample| == 3) then NoMagLoop else MagLoop
  }

  /** A sample the chosen loop can unpack is of that loop's shape: the two unpackings never disagree with the dispatch. */
  lemma DispatchMatchesShape(expectTs: bool, sample: Sample)
    ensures UnpackNoMag(expectTs, sample).Success? ==> Dispatch(expectTs, sample) == NoMagLoop
    ensures UnpackMag(expectTs, sample).Success? ==> Dispatch(expectTs, sample) == MagLoop
    ensures !(UnpackNoMag(expectTs, sample).Success? && UnpackMag(expectTs, sample).Success?)
  {
  }

  /** How one iteration ends, given the update's outcome. */
  function Settle(u: Filter.Update, att: Filter.Attitude, start: Option<int>): Step {
    match u.outcome
    case Updated => Step(Running, u.attitude, u.start)
    case Skipped => Step(Returned, att, start)
    case Raised(e) => Step(Died(e), u.attitude, u.start)
  }

  /** An iteration keeps the attitude the update leaves, except that a skipped update ends the loop with the attitude it had. */
  lemma SettleFrame(u: Filter.Update, att: Filter.Attitude, start: Option<int>)
    ensures Settle(u, att, start).attitude == (if u.outcome == Filter.Skipped then att else u.attitude)
    ensures u.outcome == Filter.Skipped ==> Settle(u, att, start) == Step(Returned, att, start)
  {
  }

  /** One iteration of `_update_nomag` on a sample. */
  function NoMagStep(s: Filter.Setting, att: Filter.Attitude, start: Option<int>, sample: Sample, clock: int): Step {
    match UnpackNoMag(s.expectTs, sample)
    case Failure(e) => Step(Died(e), att, start)
    case Success(r) => Settle(Filter.UpdateNoMag(s, att, start, r.accel, r.gyro, r.ts, clock), att, start)
  }

  /** One iteration of `_update_mag` on a sample. */
  function MagStep(s: Filter.Setting, declination: real, magbias: Vec3, att: Filter.Attitude, start: Option<int>,
                   sample: Sample, clock: int): Step {
    match UnpackMag(s.expectTs, sample)
    case Failure(e) => Step(Died(e), att, start)
    case Success(r) => Settle(Filter.UpdateMag(s, declination, magbias, att, start, r.accel, r.gyro, r.mag, r.ts, clock), att, start)
  }

  /** A zero accelerometer reading ends an iteration of `_update_nomag` with nothing changed. */
  lemma {:induction false} NoMagStepSkips(s: Filter.Setting, att: Filter.Attitude, start: Option<int>, sample: Sample, clock: int)
    requires s.math.Sound()
    requires UnpackNoMag(s.expectTs, sample).Success? && UnpackNoMag(s.expectTs, sample).value.accel == Zero3
    ensures NoMagStep(s, att, start, sample, clock) == Step(Returned, att, start)
  {
    var r := UnpackNoMag(s.expectTs, sample).value;
    Filter.NoMagSkip(s, att, start, r.accel, r.gyro, r.ts, clock);
    SettleFrame(Filter.UpdateNoMag(s, att, start, r.accel, r.gyro, r.ts, clock), att, start);
  }

  /** A zero accelerometer reading, or a magnetometer reading equal to the bias, ends an iteration of `_update_mag` with nothing changed. */
  lemma {:induction false} MagStepSkips(s: Filter.Setting, declination: real, magbias: Vec3, att: Filter.Attitude, start: Option<int>,
                                        sample: Sample, clock: int)
    requires s.math.Sound()
    requires UnpackMag(s.expectTs, sample).Success?
    requires var r := UnpackMag(s.expectTs, sample).value; r.accel == Zero3 || Sub3(r.mag, magbias) == Zero3
    ensures MagStep(s, declination, magbias, att, start, sample, clock) == Step(Returned, att, start)
  {
    var r := UnpackMag(s.expectTs, sample).value;
    Filter.MagSkip(s, declination, magbias, att, start, r.accel, r.gyro, r.mag, r.ts, clock);
    SettleFrame(Filter.UpdateMag(s, declination, magbias, att, start, r.accel, r.gyro, r.mag, r.ts, clock), att, start);
  }

  /** One iteration of a loop, as a function of the attitude, the baseline, the sample and the clock reading. */
  type Stepper = (Filter.Attitude, Option<int>, Sample, int) -> Step

  /** The iteration of `_update_nomag`. */
  function NoMagStepper(s: Filter.Setting): Stepper {
    (att: Filter.Attitude, start: Option<int>, sample: Sample, clock: int) => NoMagStep(s, att, start, sample, clock)
  }

  /** The iteration of `_update_mag`, with the declination and bias the object holds. */
  function MagStepper(s: Filter.Setting, declination: real, magbias: Vec3): Stepper {
    (att: Filter.Attitude, start: Option<int>, sample: Sample, clock: int) => MagStep(s, declination, magbias, att, start, sample, clock)
  }

  /** One iteration by `step`; every application of a loop body goes through here, so that all of them are one term. */
  function Iterate(step: Stepper, att: Filter.Attitude, start: Option<int>, sample: Sample, clock: int): Step {
    step(att, start, sample, clock)
  }

  /**
   * A `while True` loop whose body is `step`, from the `next`-th sample
   * of the stream, for at most `budget` iterations; `clock(n)` is the
   * clock reading while the `n`-th sample is processed.  The run stops
   * early at the first iteration that does not leave the loop running.
   */
  function RunLoop(step: Stepper, readCoro: nat -> Sample, clock: nat -> int,
                   att: Filter.Attitude, start: Option<int>, next: nat, budget: nat): Run
    decreases budget, 1
  {
    if budget == 0 then Run(Running, att, start, next)
    else After(step, readCoro, clock, Iterate(step, att, start, NthSample(readCoro, next), clock(next)), next, budget)
  }

  /** The rest of a run once iteration `st` has processed the `next`-th sample, with `budget` counting that iteration. */
  function After(step: Stepper, readCoro: nat -> Sample, clock: nat -> int, st: Step, next: nat, budget: nat): Run
    requires budget > 0
    decreases budget, 0
  {
    if st.halt != Running then Run(st.halt, st.attitude, st.start, next + 1)
    else RunLoop(step, readCoro, clock, st.attitude, st.start, next + 1, budget - 1)
  }

  /* ---------------------------------------------------------------- *
   *  What a run does                                                  *
   * ---------------------------------------------------------------- */

  /** A run consumes one sample per iteration: all of its budget while it is still running, at least one once it has ended. */
  lemma {:induction false} RunConsumes(step: Stepper, readCoro: nat -> Sample, clock: nat -> int,
                                       att: Filter.Attitude, start: Option<int>, next: nat, budget: nat)
    ensures var r := RunLoop(step, readCoro, clock, att, start, next, budget);
      && next <= r.consumed <= next + budget
      && (r.halt == Running ==> r.consumed == next + budget)
      && (r.halt != Running ==> next < r.consumed)
    decreases budget
  {
    if budget > 0 {
      var st := Iterate(step, att, start, NthSample(readCoro, next), clock(next));
      if st.halt == Running {
        RunConsumes(step, readCoro, clock, st.attitude, st.start, next + 1, budget - 1);
      }
    }
  }

  /** Once the task has ended, no further sample changes anything: a larger budget gives the same run. */
  lemma {:induction false} HaltIsFinal(step: Stepper, readCoro: nat -> Sample, clock: nat -> int,
                                       att: Filter.Attitude, start: Option<int>, next: nat, budget: nat, more: nat)
    requires RunLoop(step, readCoro, clock, att, start, next, budget).halt != Running
    ensures RunLoop(step, readCoro, clock, att, start, next, budget + more) == RunLoop(step, readCoro, clock, att, start, next, budget)
    decreases budget
  {
    var st := Iterate(step, att, start, NthSample(readCoro, next), clock(next));
    if st.halt == Running {
      HaltIsFinal(step, readCoro, clock, st.attitude, st.start, next + 1, budget - 1, more);
    }
  }

  /** An iteration that leaves the loop running is followed by the rest of the run. */
  lemma RunContinues(step: Stepper, readCoro: nat -> Sample, clock: nat -> int,
                     att: Filter.Attitude, start: Option<int>, next: nat, budget: nat, st: Step)
    requires budget > 0 && st == Iterate(step, att, start, NthSample(readCoro, next), clock(next)) && st.halt == Running
    ensures RunLoop(step, readCoro, clock, att, start, next, budget) ==
      RunLoop(step, readCoro, clock, st.attitude, st.start, next + 1, budget - 1)
  {
  }

  /** An iteration that ends the loop ends the run, one sample further on. */
  lemma RunEnds(step: Stepper, readCoro: nat -> Sample, clock: nat -> int,
                att: Filter.Attitude, start: Option<int>, next: nat, budget: nat, st: Step)
    requires budget > 0 && st == Iterate(step, att, start, NthSample(readCoro, next), clock(next)) && st.halt != Running
    ensures RunLoop(step, readCoro, clock, att, start, next, budget) == Run(st.halt, st.attitude, st.start, next + 1)
  {
  }

  /** What every iteration keeps of the attitude, every run keeps. */
  lemma {:induction false} RunKeeps(step: Stepper, keep: Filter.Attitude -> bool, readCoro: nat -> Sample, clock: nat -> int,
                                    att: Filter.Attitude, start: Option<int>, next: nat, budget: nat)
    requires forall a, t, smp, c :: keep(a) ==> keep(Iterate(step, a, t, smp, c).attitude)
    requires keep(att)
    ensures keep(RunLoop(step, readCoro, clock, att, start, next, budget).attitude)
    decreases budget
  {
    if budget > 0 {
      var st := Iterate(step, att, start, NthSample(readCoro, next), clock(next));
      if st.halt == Running {
        RunKeeps(step, keep, readCoro, clock, st.attitude, st.start, next + 1, budget - 1);
      }
    }
  }

  /** An iteration of `_update_nomag` keeps the quaternion at unit length, however it ends. */
  lemma {:induction false} NoMagStepUnit(s: Filter.Setting, att: Filter.Attitude, start: Option<int>, sample: Sample, clock: int)
    requires s.math.Sound() && NormSq(att.q) == 1.0
    ensures NormSq(Iterate(NoMagStepper(s), att, start, sample, clock).attitude.q) == 1.0
  {
    var unpacked := UnpackNoMag(s.expectTs, sample);
    if unpacked.Success? {
      var r := unpacked.value;
      var u := Filter.UpdateNoMag(s, att, start, r.accel, r.gyro, r.ts, clock);
      Filter.UnitPreserved(s, Filter.Level, att, start, Filter.NoMagRate(s.math, s.beta, att.q, r.accel, r.gyro), r.ts, clock);
      SettleFrame(u, att, start);
    }
  }

  /** An iteration of `_update_mag` keeps the quaternion at unit length, however it ends. */
  lemma {:induction false} MagStepUnit(s: Filter.Setting, declination: real, magbias: Vec3, att: Filter.Attitude, start: Option<int>,
                                       sample: Sample, clock: int)
    requires s.math.Sound() && NormSq(att.q) == 1.0
    ensures NormSq(Iterate(MagStepper(s, declination, magbias), att, start, sample, clock).attitude.q) == 1.0
  {
    var unpacked := UnpackMag(s.expectTs, sample);
    if unpacked.Success? {
      var r := unpacked.value;
      var u := Filter.UpdateMag(s, declination, magbias, att, start, r.accel, r.gyro, r.mag, r.ts, clock);
      Filter.UnitPreserved(s, Filter.Magnetic(declination), att, start,
        Filter.MagRate(s.math, s.beta, att.q, r.accel, r.gyro, r.mag, magbias), r.ts, clock);
      SettleFrame(u, att, start);
    }
  }

  /** An iteration of `_update_nomag` writes a zero heading, or leaves the heading as it was. */
  lemma {:induction false} NoMagStepLevel(s: Filter.Setting, att: Filter.Attitude, start: Option<int>, sample: Sample, clock: int)
    ensures var h := Iterate(NoMagStepper(s), att, start, sample, clock).attitude.heading;
      h == 0.0 || h == att.heading
  {
    var unpacked := UnpackNoMag(s.expectTs, sample);
    if unpacked.Success? {
      var r := unpacked.value;
      var u := Filter.UpdateNoMag(s, att, start, r.accel, r.gyro, r.ts, clock);
      Filter.IntegrateFrame(s, Filter.Level, att, start, Filter.NoMagRate(s.math, s.beta, att.q, r.accel, r.gyro), r.ts, clock);
      SettleFrame(u, att, start);
    }
  }

  /** The skip of `NoMagStepSkips`, for the loop body of the nomag task. */
  lemma NoMagStepperSkips(s: Filter.Setting, att: Filter.Attitude, start: Option<int>, sample: Sample, clock: int)
    requires s.math.Sound()
    requires UnpackNoMag(s.expectTs, sample).Success? && UnpackNoMag(s.expectTs, sample).value.accel == Zero3
    ensures Iterate(NoMagStepper(s), att, start, sample, clock) == Step(Returned, att, start)
  {
    NoMagStepSkips(s, att, start, sample, clock);
  }

  /** The skip of `MagStepSkips`, for the loop body of the mag task. */
  lemma MagStepperSkips(s: Filter.Setting, declination: real, magbias: Vec3, att: Filter.Attitude, start: Option<int>,
                        sample: Sample, clock: int)
    requires s.math.Sound()
    requires UnpackMag(s.expectTs, sample).Success?
    requires var r := UnpackMag(s.expectTs, sample).value; r.accel == Zero3 || Sub3(r.mag, magbias) == Zero3
    ensures Iterate(MagStepper(s, declination, magbias), att, start, sample, clock) == Step(Returned, att, start)
  {
    MagStepSkips(s, declination, magbias, att, start, sample, clock);
  }

  /** A run of the nomag task keeps the quaternion at unit length. */
  lemma {:induction false} NoMagRunUnit(s: Filter.Setting, readCoro: nat -> Sample, clock: nat -> int,
                                        att: Filter.Attitude, start: Option<int>, next: nat, budget: nat)
    requires s.math.Sound() && NormSq(att.q) == 1.0
    ensures NormSq(RunLoop(NoMagStepper(s), readCoro, clock, att, start, next, budget).attitude.q) == 1.0
  {
    var unit := (a: Filter.Attitude) => NormSq(a.q) == 1.0;
    forall a, t, smp, c | unit(a) ensures unit(Iterate(NoMagStepper(s), a, t, smp, c).attitude) {
      NoMagStepUnit(s, a, t, smp, c);
    }
    RunKeeps(NoMagStepper(s), unit, readCoro, clock, att, start, next, budget);
  }

  /** A run of the mag task keeps the quaternion at unit length. */
  lemma {:induction false} MagRunUnit(s: Filter.Setting, declination: real, magbias: Vec3, readCoro: nat -> Sample, clock: nat -> int,
                                      att: Filter.Attitude, start: Option<int>, next: nat, budget: nat)
    requires s.math.Sound() && NormSq(att.q) == 1.0
    ensures NormSq(RunLoop(MagStepper(s, declination, magbias), readCoro, clock, att, start, next, budget).attitude.q) == 1.0
  {
    var unit := (a: Filter.Attitude) => NormSq(a.q) == 1.0;
    forall a, t, smp, c | unit(a) ensures unit(Iterate(MagStepper(s, declination, magbias), a, t, smp, c).attitude) {
      MagStepUnit(s, declination, magbias, a, t, smp, c);
    }
    RunKeeps(MagStepper(s, declination, magbias), unit, readCoro, clock, att, start, next, budget);
  }

  /** The nomag task never reports a heading: starting from zero, the heading stays zero. */
  lemma {:induction false} NoMagRunLevel(s: Filter.Setting, readCoro: nat -> Sample, clock: nat -> int,
                                         att: Filter.Attitude, start: Option<int>, next: nat, budget: nat)
    requires att.heading == 0.0
    ensures RunLoop(NoMagStepper(s), readCoro, clock, att, start, next, budget).attitude.heading == 0.0
  {
    var level := (a: Filter.Attitude) => a.heading == 0.0;
    forall a, t, smp, c | level(a) ensures level(Iterate(NoMagStepper(s), a, t, smp, c).attitude) {
      NoMagStepLevel(s, a, t, smp, c);
    }
    RunKeeps(NoMagStepper(s), level, readCoro, clock, att, start, next, budget);
  }

  /** A zero accelerometer reading ends the nomag task at once, before anything is written or `deltat` is called. */
  lemma {:induction false} NoMagZeroAccelEnds(s: Filter.Setting, readCoro: nat -> Sample, clock: nat -> int,
                                              att: Filter.Attitude, start: Option<int>, next: nat, budget: nat)
    requires s.math.Sound() && budget > 0
    requires UnpackNoMag(s.expectTs, NthSample(readCoro, next)).Success? && UnpackNoMag(s.expectTs, NthSample(readCoro, next)).value.accel == Zero3
    ensures RunLoop(NoMagStepper(s), readCoro, clock, att, start, next, budget) == Run(Returned, att, start, next + 1)
  {
    NoMagStepperSkips(s, att, start, NthSample(readCoro, next), clock(next));
    RunEnds(NoMagStepper(s), readCoro, clock, att, start, next, budget, Step(Returned, att, start));
  }

  /** A zero accelerometer reading, or a magnetometer reading equal to the bias, ends the mag task at once. */
  lemma {:induction false} MagZeroReadingEnds(s: Filter.Setting, declination: real, magbias: Vec3, readCoro: nat -> Sample, clock: nat -> int,
                                              att: Filter.Attitude, start: Option<int>, next: nat, budget: nat)
    requires s.math.Sound() && budget > 0
    requires UnpackMag(s.expectTs, NthSample(readCoro, next)).Success?
    requires var r := UnpackMag(s.expectTs, NthSample(readCoro, next)).value; r.accel == Zero3 || Sub3(r.mag, magbias) == Zero3
    ensures RunLoop(MagStepper(s, declination, magbias), readCoro, clock, att, start, next, budget) == Run(Returned, att, start, next + 1)
  {
    MagStepperSkips(s, declination, magbias, att, start, NthSample(readCoro, next), clock(next));
    RunEnds(MagStepper(s, declination, magbias), readCoro, clock, att, start, next, budget, Step(Returned, att, start));
  }

  class Fusion {
    const readCoro: nat -> Sample
    const math: Math
    const beta: real
    const deltat: Deltat.DeltaT
    /** The number of calls made to `read_coro` so far. */
    var consumed: nat
    var declination: real
    var magbias: Vec3
    var q: Quat
    var heading: real
    var pitch: real
    var roll: real

    function Attitude(): Filter.Attitude
      reads this
    {
      Filter.Attitude(q, heading, pitch, roll)
    }

    /** `expect_ts`: whether samples carry a timestamp. */
    function ExpectTs(): bool {
      deltat.expectTs
    }

    function Setting(): Filter.Setting {
      Filter.Setting(math, beta, deltat.expectTs, deltat.timediff)
    }

    /**
     * `Fusion(read_coro, timediff)`: stamps are expected exactly when a
     * differencing function is given; otherwise `ticksDiff`, the
     * difference of the native clock's readings, is used.
     */
    constructor(readCoro: nat -> Sample, timediff: Option<Deltat.TimeDiff>, ticksDiff: Deltat.TimeDiff, math: Math)
      ensures this.readCoro == readCoro && this.math == math && beta == Filter.Beta(math)
      ensures ExpectTs() == timediff.Some?
      ensures deltat.timediff == (if timediff.Some? then timediff.value else ticksDiff)
      ensures fresh(deltat) && deltat.startTime == None
      ensures consumed == 0 && Attitude() == Filter.Initial && magbias == Zero3 && declination == 0.0
    {
      this.readCoro := readCoro;
      this.math := math;
      beta := Filter.Beta(math);
      deltat := new Deltat.DeltaT(timediff.Some?, if timediff.Some? then timediff.value else ticksDiff);
      consumed := 0;
      declination := 0.0;
      magbias := Zero3;
      q := Identity;
      heading := 0.0;
      pitch := 0.0;
      roll := 0.0;
    }

    /** `await read_coro()`. */
    method Read() returns (sample: Sample)
      modifies this
      ensures sample == NthSample(readCoro, old(consumed)) && consumed == old(consumed) + 1
      ensures Attitude() == old(Attitude()) && magbias == old(magbias) && declination == old(declination)
    {
      sample := NthSample(readCoro, consumed);
      consumed := consumed + 1;
    }

    /** `res = await read_coro()` followed by `res[2]`. */
    method ReadMag() returns (mag: Result<Vec3, Error>)
      modifies this
      ensures mag == MagOf(NthSample(readCoro, old(consumed))) && consumed == old(consumed) + 1
      ensures Attitude() == old(Attitude()) && magbias == old(magbias) && declination == old(declination)
    {
      var res := Read();
      mag := MagOf(res);
    }

    /**
     * The body of the `while not stopfunc()` loop of `calibrate`: read the
     * next sample and fold its magnetometer vector into the extremes,
     * which track the `taken` vectors read so far from the `first`-th
     * sample on.
     */
    method Gather(magmax: array<real>, magmin: array<real>, ghost first: nat, ghost taken: nat) returns (magxyz: Result<Vec3, Error>)
      requires magmax != magmin && consumed == first + taken && MagsPresent(readCoro, first, taken)
      requires Calibration.Tracks(magmax, magmin, Mags(readCoro, first, taken))
      modifies this, magmax, magmin
      ensures magxyz == MagOf(NthSample(readCoro, first + taken)) && consumed == old(consumed) + 1
      ensures magxyz.Success? ==>
        && MagsPresent(readCoro, first, taken + 1)
        && Calibration.Tracks(magmax, magmin, Mags(readCoro, first, taken + 1))
      ensures Attitude() == old(Attitude()) && declination == old(declination) && magbias == old(magbias)
    {
      magxyz := ReadMag();
      if magxyz.Success? {
        Calibration.Fold(magmax, magmin, Mags(readCoro, first, taken), magxyz.value);
        MagsExtend(readCoro, first, taken, magxyz.value);
      }
    }

    /**
     * The `while not stopfunc()` loop of `calibrate`, once the first
     * sample, the `first`-th of the stream, has seeded the extremes: one
     * more sample per false result of `stopfunc`, until `stopfunc` holds
     * or a sample has no magnetometer vector.
     */
    method Sweep(stopfunc: nat -> bool, magmax: array<real>, magmin: array<real>, ghost first: nat) returns (taken: nat, error: Option<Error>)
      requires exists k :: stopfunc(k)
      requires magmax != magmin && consumed == first + 1 && MagsPresent(readCoro, first, 1)
      requires Calibration.Tracks(magmax, magmin, Mags(readCoro, first, 1))
      modifies this, magmax, magmin
      ensures taken >= 1 && consumed == first + taken
      ensures forall j :: 0 <= j < taken - 1 ==> !stopfunc(j)
      ensures MagsPresent(readCoro, first, taken - 1)
      ensures error.None? ==>
        && stopfunc(taken - 1)
        && MagsPresent(readCoro, first, taken)
        && Calibration.Tracks(magmax, magmin, Mags(readCoro, first, taken))
      ensures error.Some? ==>
        && MagOf(NthSample(readCoro, first + taken - 1)).Failure?
        && error == Some(MagOf(NthSample(readCoro, first + taken - 1)).error)
      ensures Attitude() == old(Attitude()) && declination == old(declination) && magbias == old(magbias)
    {
      taken := 1;
      ghost var stop: nat :| stopfunc(stop);
      while !stopfunc(taken - 1)
        invariant 1 <= taken <= stop + 1
        invariant consumed == first + taken
        invariant forall j :: 0 <= j < taken - 1 ==> !stopfunc(j)
        invariant MagsPresent(readCoro, first, taken)
        invariant Calibration.Tracks(magmax, magmin, Mags(readCoro, first, taken))
        invariant Attitude() == old(Attitude()) && declination == old(declination) && magbias == old(magbias)
        decreases stop + 1 - taken
      {
        var magxyz := Gather(magmax, magmin, first, taken);
        if magxyz.Failure? {
          return taken + 1, Some(magxyz.error);
        }
        taken := taken + 1;
      }
      error := None;
    }

    /**
     * `calibrate(stopfunc)`: the magnetometer vector of the first sample
     * seeds the extremes, and one more sample is read per false result of
     * `stopfunc`.  A sample without a magnetometer vector raises, and the
     * bias is then left as it was.
     */
    method Calibrate(stopfunc: nat -> bool) returns (taken: nat, error: Option<Error>)
      requires exists k :: stopfunc(k)
      modifies this
      ensures taken >= 1 && consumed == old(consumed) + taken
      ensures forall j :: 0 <= j < taken - 1 ==> !stopfunc(j)
      ensures MagsPresent(readCoro, old(consumed), taken - 1)
      ensures error.None? ==>
        && stopfunc(taken - 1)
        && MagsPresent(readCoro, old(consumed), taken)
        && magbias == Calibration.Bias(Mags(readCoro, old(consumed), taken))
      ensures error.Some? ==>
        && MagOf(NthSample(readCoro, old(consumed) + taken - 1)).Failure?
        && error == Some(MagOf(NthSample(readCoro, old(consumed) + taken - 1)).error)
        && magbias == old(magbias)
      ensures Attitude() == old(Attitude()) && declination == old(declination)
    {
      ghost var first := consumed;
      var mag := ReadMag();
      if mag.Failure? {
        return 1, Some(mag.error);
      }
      var magmax, magmin := Calibration.Seed(mag.value);
      assert Mags(readCoro, first, 1) == [mag.value];
      taken, error := Sweep(stopfunc, magmax, magmin, first);
      if error.None? {
        magbias := Calibration.Midpoints(magmax, magmin, Mags(readCoro, first, taken));
      }
    }

    /** `start`: read one sample and choose the loop by its shape; the sample itself is not processed. */
    method Start() returns (loop: Loop)
      modifies this
      ensures consumed == old(consumed) + 1
      ensures loop == Dispatch(ExpectTs(), NthSample(readCoro, old(consumed)))
      ensures Attitude() == old(Attitude()) && magbias == old(magbias) && declination == old(declination)
    {
      var data := Read();
      if |data| == 2 || (deltat.expectTs && |data| == 3) {
        loop := NoMagLoop;
      } else {
        loop := MagLoop;
      }
    }

    /** The integration tail of an iteration: call `deltat`, integrate, renormalise and write `q` and the angles. */
    method Integrate(rule: Filter.HeadingRule, qDot: Quat, ts: Option<int>, clock: int) returns (halt: Halt)
      modifies this, deltat
      ensures var u := Filter.Integrate(Setting(), rule, old(Attitude()), old(deltat.startTime), Filter.Rate(qDot), ts, clock);
        Step(halt, Attitude(), deltat.startTime) == Settle(u, old(Attitude()), old(deltat.startTime))
      ensures consumed == old(consumed) && magbias == old(magbias) && declination == old(declination)
    {
      var dt := deltat.Call(ts, clock);
      if dt.Failure? {
        return Died(dt.error);
      }
      var p := Add(q, Scale(qDot, dt.value));
      var norm := math.sqrt(NormSq(p));
      if norm == 0.0 {
        return Died(ZeroDivision);
      }
      q := Scale(p, 1.0 / norm);
      heading := Filter.HeadingOf(math, rule, q);
      pitch := Madgwick.Pitch(math, q);
      roll := Madgwick.Roll(math, q);
      halt := Running;
    }

    /** One iteration of `_update_nomag`, on a sample already read. */
    method NoMagIteration(sample: Sample, clock: int) returns (halt: Halt)
      modifies this, deltat
      ensures Step(halt, Attitude(), deltat.startTime) == Iterate(NoMagStepper(Setting()), old(Attitude()), old(deltat.startTime), sample, clock)
      ensures consumed == old(consumed) && magbias == old(magbias) && declination == old(declination)
    {
      var unpacked := UnpackNoMag(deltat.expectTs, sample);
      if unpacked.Failure? {
        return Died(unpacked.error);
      }
      var r := unpacked.value;
      if math.sqrt(NormSq3(r.accel)) == 0.0 {
        return Returned;
      }
      var a := Filter.Normalised(math, r.accel);
      var s := Madgwick.GravityStep(q, a);
      var norm := math.sqrt(NormSq(s));
      if norm == 0.0 {
        return Died(ZeroDivision);
      }
      var qDot := Madgwick.QDot(q, Madgwick.Radians(math, r.gyro), beta, Scale(s, 1.0 / norm));
      halt := Integrate(Filter.Level, qDot, r.ts, clock);
    }

    /** One iteration of `_update_mag`, on a sample already read. */
    method MagIteration(sample: Sample, clock: int) returns (halt: Halt)
      modifies this, deltat
      ensures Step(halt, Attitude(), deltat.startTime) ==
        Iterate(MagStepper(Setting(), old(declination), old(magbias)), old(Attitude()), old(deltat.startTime), sample, clock)
      ensures consumed == old(consumed) && magbias == old(magbias) && declination == old(declination)
    {
      var unpacked := UnpackMag(deltat.expectTs, sample);
      if unpacked.Failure? {
        return Died(unpacked.error);
      }
      var r := unpacked.value;
      var m0 := Sub3(r.mag, magbias);
      if math.sqrt(NormSq3(r.accel)) == 0.0 {
        return Returned;
      }
      if math.sqrt(NormSq3(m0)) == 0.0 {
        return Returned;
      }
      var a := Filter.Normalised(math, r.accel);
      var m := Filter.Normalised(math, m0);
      var b := Filter.FieldMagnitudes(math, Madgwick.ReferenceField(q, m));
      var s := Madgwick.MargStep(q, a, m, b.0, b.1);
      var norm := math.sqrt(NormSq(s));
      if norm == 0.0 {
        return Died(ZeroDivision);
      }
      var qDot := Madgwick.QDot(q, Madgwick.Radians(math, r.gyro), beta, Scale(s, 1.0 / norm));
      halt := Integrate(Filter.Magnetic(declination), qDot, r.ts, clock);
    }

    /**
     * One turn of the `_update_nomag` loop: read a sample and run the
     * iteration on it.  The run from here is this turn followed, while the
     * loop still runs, by the rest of the run.
     */
    method NoMagTurn(left: nat, clock: nat -> int) returns (halt: Halt)
      requires left > 0
      modifies this, deltat
      ensures var run := RunLoop(NoMagStepper(Setting()), readCoro, clock, old(Attitude()), old(deltat.startTime), old(consumed), left);
        if halt != Running then run == Run(halt, Attitude(), deltat.startTime, consumed)
        else run == RunLoop(NoMagStepper(Setting()), readCoro, clock, Attitude(), deltat.startTime, consumed, left - 1)
      ensures magbias == old(magbias) && declination == old(declination)
    {
      ghost var att, start, next := Attitude(), deltat.startTime, consumed;
      var now := clock(consumed);
      var sample := Read();
      halt := NoMagIteration(sample, now);
      if halt != Running {
        RunEnds(NoMagStepper(Setting()), readCoro, clock, att, start, next, left, Step(halt, Attitude(), deltat.startTime));
      } else {
        RunContinues(NoMagStepper(Setting()), readCoro, clock, att, start, next, left, Step(halt, Attitude(), deltat.startTime));
      }
    }

    /** One turn of the `_update_mag` loop. */
    method MagTurn(left: nat, clock: nat -> int) returns (halt: Halt)
      requires left > 0
      modifies this, deltat
      ensures var run := RunLoop(MagStepper(Setting(), declination, magbias), readCoro, clock,
                                 old(Attitude()), old(deltat.startTime), old(consumed), left);
        if halt != Running then run == Run(halt, Attitude(), deltat.startTime, consumed)
        else run == RunLoop(MagStepper(Setting(), declination, magbias), readCoro, clock, Attitude(), deltat.startTime, consumed, left - 1)
      ensures magbias == old(magbias) && declination == old(declination)
    {
      ghost var att, start, next := Attitude(), deltat.startTime, consumed;
      var now := clock(consumed);
      var sample := Read();
      halt := MagIteration(sample, now);
      if halt != Running {
        RunEnds(MagStepper(Setting(), declination, magbias), readCoro, clock, att, start, next, left, Step(halt, Attitude(), deltat.startTime));
      } else {
        RunContinues(MagStepper(Setting(), declination, magbias), readCoro, clock, att, start, next, left, Step(halt, Attitude(), deltat.startTime));
      }
    }

    /**
     * The `_update_nomag` task, for at most `budget` samples: one sample
     * per iteration, until the loop returns or raises.
     */
    method RunNoMag(budget: nat, clock: nat -> int) returns (halt: Halt)
      modifies this, deltat
      ensures var r := RunLoop(NoMagStepper(Setting()), readCoro, clock, old(Attitude()), old(deltat.startTime), old(consumed), budget);
        halt == r.halt && Attitude() == r.attitude && deltat.startTime == r.start && consumed == r.consumed
      ensures magbias == old(magbias) && declination == old(declination)
    {
      ghost var run := RunLoop(NoMagStepper(Setting()), readCoro, clock, Attitude(), deltat.startTime, consumed, budget);
      var left := budget;
      while left > 0
        invariant RunLoop(NoMagStepper(Setting()), readCoro, clock, Attitude(), deltat.startTime, consumed, left) == run
        invariant magbias == old(magbias) && declination == old(declination)
      {
        halt := NoMagTurn(left, clock);
        if halt != Running {
          return;
        }
        left := left - 1;
      }
      halt := Running;
    }

    /** The `_update_mag` task, for at most `budget` samples. */
    method RunMag(budget: nat, clock: nat -> int) returns (halt: Halt)
      modifies this, deltat
      ensures var r := RunLoop(MagStepper(Setting(), old(declination), old(magbias)), readCoro, clock,
                                old(Attitude()), old(deltat.startTime), old(consumed), budget);
        halt == r.halt && Attitude() == r.attitude && deltat.startTime == r.start && consumed == r.consumed
      ensures magbias == old(magbias) && declination == old(declination)
    {
      ghost var run := RunLoop(MagStepper(Setting(), declination, magbias), readCoro, clock, Attitude(), deltat.startTime, consumed, budget);
      var left := budget;
      while left > 0
        invariant RunLoop(MagStepper(Setting(), declination, magbias), readCoro, clock, Attitude(), deltat.startTime, consumed, left) == run
        invariant magbias == old(magbias) && declination == old(declination)
      {
        halt := MagTurn(left, clock);
        if halt != Running {
          return;
        }
        left := left - 1;
      }
      halt := Running;
    }

    /**
     * `start` followed by the task it creates: the sample `start` reads
     * only chooses the loop and is then dropped, so the loop's first
     * iteration reads the next sample.
     */
    method StartAndRun(budget: nat, clock: nat -> int) returns (loop: Loop, halt: Halt)
      modifies this, deltat
      ensures loop == Dispatch(ExpectTs(), NthSample(readCoro, old(consumed)))
      ensures var stepper := if loop == NoMagLoop then NoMagStepper(Setting()) else MagStepper(Setting(), old(declination), old(magbias));
        var r := RunLoop(stepper, readCoro, clock, old(Attitude()), old(deltat.startTime), old(consumed) + 1, budget);
        halt == r.halt && Attitude() == r.attitude && deltat.startTime == r.start && consumed == r.consumed
      ensures magbias == old(magbias) && declination == old(declination)
    {
      loop := Start();
      if loop == NoMagLoop {
        halt := RunNoMag(budget, clock);
      } else {
        halt := RunMag(budget, clock);
      }
    }
  }
}
