# micropython-fusion, modelled in Dafny

This project models the core of micropython-fusion. That library estimates
the orientation of an inertial measurement unit with Madgwick's
gradient-descent filter, and keeps the result as a unit quaternion `q` and
the angles `heading`, `pitch` and `roll`. The modelled core:

- **deltat.py** — the elapsed-time source `DeltaT`. It remembers the stamp
  of its previous call, and each call returns `timediff(now, previous)`.
  The stamps come from the caller (`expect_ts`) or from the clock.
- **fusion.py** — the synchronous `Fusion` class:
  - magnetometer calibration, which keeps per-axis extremes and stores
    their midpoints as `magbias`;
  - the 6-axis update `update_nomag` and the 9-axis update `update`: guards
    on zero readings, the corrective step, the rate of change, integration
    by `deltat`, renormalisation and the angles.
- **fusion_async.py** — the asynchronous `Fusion` class:
  - samples come from `read_coro`, modelled as a stream;
  - `calibrate` reads the magnetometer vector of each sample;
  - `start` picks a loop from the shape of one sample;
  - each `while True` loop unpacks one sample per iteration and runs one
    update, until a zero reading `return`s or an exception ends the task.
- **orientate.py** — axis remapping:
  - `transpose` picks components by index, with Python's negative indices
    and its `IndexError`;
  - `invert` negates the flagged components, stopping at the shorter of
    flags and vector, as `map` does;
  - `orientate` does one and then the other.

Modules:

- `Wrappers` — `Option`, `Result` and the error kinds.
- `Maths` — vectors, quaternions, and the `math` functions as
  uninterpreted arrows. Its `Math.Sound` states the one assumed property:
  `sqrt` is the exact square root.
- `Deltat` — the class `DeltaT`, the functions `Advance`, `Prime` and
  `Replay` that specify it, and their lemmas.
- `Madgwick` — the straight-line formulas of an update, with lemmas saying
  what each computes: a Jacobian transposed times an error, a rotation, a
  quaternion product.
- `Filter` — one update as a function of the state before it. Both
  classes are proved against these functions.
- `Calibration` — the extremes and the bias as functions of the readings
  taken, and the array-updating `Seed`, `Fold` and `Midpoints`.
- `Fusion` — the synchronous class.
- `FusionAsync` — the asynchronous class, and `RunLoop`, the recursive run
  of a loop over the sample stream.
- `Orientate` — the list transforms.

Inputs that the Python code takes from its environment are parameters of
the model:

- `time.ticks_us()` is a `clock` argument: one reading per call, or
  `clock(n)` while the `n`-th sample is processed.
- `getxyz` and `stopfunc` are streams: the `i`-th call returns
  `getxyz(i)` or `stopfunc(i)`.
- `read_coro` is likewise a stream `readCoro`.
- The `math` functions are the fields of a `Math` value.

## Model

| member | source | states |
|---|---|---|
| Deltat.DeltaT.constructor | deltat.py:13-16 | A new instance keeps its mode and differencing function and has no baseline (`start_time is None`). |
| Deltat.DeltaT.Call | deltat.py:22-30 | Returns the value `Advance` specifies and leaves the baseline it specifies: it raises and keeps the baseline when a stamp is expected and missing, or when `timediff(now, start_time)` raises; otherwise it returns that difference and records `now`. |
| Deltat.DeltaT.EnsureReady | deltat.py:18-20 | Calls through only when there is no baseline, and reports the priming call's error if it raised (a missing stamp or a raising `timediff`), the baseline then staying absent. |
| Deltat.AdvanceFailure | deltat.py:23-29 | A call fails exactly when `expect_ts` holds and `ts` is absent (the missing-timestamp error, raised before `timediff` is called) or when `timediff` raises; a failed call keeps the baseline. |
| Deltat.AdvanceSuccess | deltat.py:26-30 | With the stamp supplied, a call returns `timediff(now, old start_time)` and records `now`, or, if `timediff` raises, raises and records nothing. The first call passes an absent previous stamp; there is no default first interval. (Unfolding lemma: one step of `Advance`.) |
| Deltat.ClockModeIgnoresStamp | deltat.py:26-28 | Without `expect_ts`, the caller's `ts` makes no difference, and the call fails exactly when `timediff(clock, start_time)` raises. |
| Deltat.SuccessLeavesBaseline | deltat.py:28-29 | After a successful call a baseline is present. (Corollary of `AdvanceSuccess`.) |
| Deltat.PrimeOnce | deltat.py:18-20 | `ensure_ready` changes nothing when a baseline exists. Once it succeeds there is a baseline, so a second `ensure_ready` changes nothing. |
| Deltat.ReplayMeasuresIntervals | deltat.py:22-30 | Over a run of calls that all supply what the mode needs and on which `timediff` returns, call `i` returns `timediff` from the previous call's stamp to its own, and the run ends with the last stamp as baseline. |
| Deltat.NeverStarts | deltat.py:18-29 | If `timediff` raises whenever the previous stamp is absent (as `ticks_diff(ts, None)` does), then from no baseline every call of a run raises, the baseline stays absent, and `ensure_ready` raises. |
| Maths.ReciprocalNormIsUnit | fusion.py:109-110 | Scaling the integrated quaternion by `1 / sqrt(norm²)` gives a unit quaternion. |
| Maths.ReciprocalNormIsUnit3 | fusion.py:78-84 | The normalised accelerometer (and magnetometer) reading is a unit vector. |
| Madgwick.GravityStepIsGradient | fusion.py:87-90 | The 6-axis step `(s1..s4)` equals `J_g(q)ᵀ f_g(q)`, the gradient of the gravity objective. |
| Madgwick.GravityJacobianIsDerivative | fusion.py:87-90 | The Jacobian used is the derivative of `f_g`: the central difference equals twice the Jacobian applied to the offset. |
| Madgwick.GravityJacobianTransposed | fusion.py:87-90 | The transposed Jacobian in the step is the adjoint of the Jacobian. |
| Madgwick.GravityErrorIsRotation | fusion.py:87-90 | `f_g` compares the reading with the vertical turned into the sensor frame, `q* ⊗ (0,0,0,1) ⊗ q`, for a unit quaternion. |
| Madgwick.ReferenceFieldIsRotation | fusion.py:158-165 | `(hx, hy, _2bz)` is exactly the normalised reading turned into the Earth frame, `q ⊗ (0, m) ⊗ q*`. |
| Madgwick.MargCombinationIsTransposed | fusion.py:170-185 | The coefficients of the 9-axis step are those of the gravity and field Jacobians transposed, whatever the residuals. |
| Madgwick.MargStepIsGradient | fusion.py:170-185 | The 9-axis step equals `J_gᵀ f_g + J_bᵀ f_b`, where `J_g` and `J_b` are the derivatives of `f_g` and `f_b` (`GravityJacobianIsDerivative`, `FieldJacobianIsDerivative`). |
| Madgwick.FieldJacobianTransposed | fusion.py:170-185 | The field Jacobian in the step is the transpose of the field Jacobian. |
| Madgwick.FieldJacobianIsDerivative | fusion.py:170-185 | The field Jacobian is the derivative of `f_b`, the code's field residuals: the central difference of `f_b` through `q` equals twice the Jacobian at `q` applied to the offset. With `FieldJacobianTransposed` and `MargStepIsGradient`, the field half of the step is `J_bᵀ f_b`, the gradient of `½‖f_b‖²`. |
| Madgwick.FieldErrorIsRotation | fusion.py:170-185 | `f_b` compares the reading with the reference field `(_2bx/2, 0, _2bz/2)` turned into the sensor frame, for a unit quaternion. |
| Madgwick.QDotIsRate | fusion.py:98-101 | `qDot` is `q ⊗ (0, gyro) / 2 - beta * s`. |
| Madgwick.VerticalInSensorFrame | fusion.py:112-114 | The expressions inside `pitch` and `roll` are the Earth's vertical seen from the sensor. |
| Madgwick.ForwardInEarthFrame | fusion.py:207-208 | The expressions inside `heading` are the sensor's x axis seen from the Earth frame. |
| Madgwick.PitchFromVertical | fusion.py:112 | `pitch` is minus the arc sine of the vertical's x component, in degrees. |
| Madgwick.RollFromVertical | fusion.py:113-114 | `roll` is the angle of the vertical's (y, z) components. |
| Madgwick.HeadingFromForward | fusion.py:207-208 | `heading` is `declination` plus the bearing of the sensor's x axis in the Earth frame. |
| Madgwick.PitchArgumentInDomain | fusion.py:112 | For a unit quaternion the argument of `asin` lies in [-1, 1]. |
| Filter.IntegrateFrame | fusion.py:104-114 | The attitude is written only on a completed update. A skip happens exactly on a zero-reading rate and changes nothing. Once `deltat` is called, the baseline moves as that call says. |
| Filter.NoMagSkip | fusion.py:78-80 | `update_nomag` returns early exactly when the accelerometer reading is zero; it then changes nothing, the baseline included. |
| Filter.MagSkip | fusion.py:140-155 | `update` returns early exactly when the accelerometer reading, or the magnetometer reading less `magbias`, is zero; it then changes nothing. |
| Filter.IntegrateUpdated | fusion.py:104-114 | A completed update had `timediff(stamp, old baseline)` return some `dt`, and writes `(q + qDot·dt)` scaled to unit length and the angles read off it; the baseline becomes the stamp used. |
| Filter.TimestampRule | fusion.py:104 | Past the guards, an update raises for want of a stamp exactly in `expect_ts` mode without `ts`, and otherwise raises from `deltat` exactly when `timediff` does; either way it changes nothing. |
| Filter.UnitPreserved | fusion.py:109-110 | Every update, however it ends, keeps a unit quaternion at unit length. |
| Filter.NoMagRateIsGradientDescent | fusion.py:86-101 | The 6-axis rate is the gyro quaternion derivative less `beta` times the normalised gravity gradient. |
| Filter.MagRateIsGradientDescent | fusion.py:148-197 | The 9-axis rate is the gyro quaternion derivative less `beta` times the normalised gradient of the combined objective, with the reference field taken from the reading rotated into the Earth frame. |
| Filter.LevelAtRestRaises | fusion.py:87-91 | A level reading `(0, 0, c)` at the identity quaternion makes the step zero, and `update_nomag` raises a division error before calling `deltat`. |
| Calibration.ExtremesBound | fusion.py:53-55 | Every reading lies between the per-axis minimum and maximum. |
| Calibration.ExtremesAttained | fusion.py:44-55 | The minimum and maximum on each axis are values of readings actually taken. |
| Calibration.BiasWithinExtremes | fusion.py:56 | The bias lies between the minimum and maximum on every axis. |
| Calibration.SingleReading | fusion.py:44-56 | A calibration that stops at once stores its one reading as the bias. |
| Calibration.ExtremesStep | fusion.py:53-55 | One more reading updates each extreme by `max`/`min` with that reading's component. (Unfolding lemma: one step of `Hi` and `Lo`.) |
| Calibration.Seed | fusion.py:44-45 | Seeding gives two separate lists whose extremes are those of the first reading. |
| Calibration.Fold | fusion.py:53-55 | The `for x in range(3)` loop makes the lists track the readings with one more appended. |
| Calibration.Midpoints | fusion.py:56 | The stored bias is the per-axis midpoint of minimum and maximum of the readings folded in. |
| Fusion.Fusion.constructor | fusion.py:33-41 | A new filter has the identity quaternion, zero angles, zero bias and declination, `beta = sqrt(3/4)·radians(40)`, and a fresh `DeltaT` with no baseline. |
| Fusion.Fusion.Calibrate | fusion.py:43-56 | One reading is taken before the first test and one per false `stopfunc`. The bias becomes the per-axis midpoint of the extremes of all readings taken. The attitude is unchanged. |
| Fusion.Fusion.Integrate | fusion.py:104-114 | The integration tail writes exactly what `Filter.Integrate` specifies. |
| Fusion.Fusion.UpdateNoMag | fusion.py:58-114 | The new state is `Filter.UpdateNoMag` of the old one. A unit quaternion stays unit. Bias and declination are unchanged. |
| Fusion.Fusion.Update | fusion.py:116-211 | The new state is `Filter.UpdateMag` of the old one, with the bias subtracted first. A unit quaternion stays unit. |
| FusionAsync.UnpackNoMag | fusion_async.py:65-69 | Unpacking succeeds exactly on a pair of vectors, or two vectors and a stamp when stamps are expected, and then `PackNoMag` of the reading rebuilds the sample; otherwise it raises. |
| FusionAsync.UnpackPackNoMag | fusion_async.py:65-69 | Unpacking the tuple of a reading, stamped exactly when stamps are expected, gives that reading back. |
| FusionAsync.UnpackMag | fusion_async.py:132-136 | Unpacking succeeds exactly on three vectors, plus a stamp when stamps are expected, and then `PackMag` of the reading rebuilds the sample; otherwise it raises. |
| FusionAsync.UnpackPackMag | fusion_async.py:132-136 | Unpacking the tuple of a 9-axis reading, stamped exactly when stamps are expected, gives that reading back. |
| FusionAsync.CalibrationReadsLoopMag | fusion_async.py:44-46 | Calibration's `res[2]` is the magnetometer vector the 9-axis loop unpacks from the same sample; it raises `IndexError` exactly on a tuple of two or fewer elements, and fails on every 6-axis sample. |
| FusionAsync.Mags | fusion_async.py:44-53 | The magnetometer vectors calibration reads: element `i` is that of the `i`-th sample read. |
| FusionAsync.MagsExtend | fusion_async.py:48-53 | One more sample with a magnetometer vector extends the readings by that vector. (Unfolding lemma: one step of `Mags`.) |
| FusionAsync.DispatchMatchesShape | fusion_async.py:56-61 | A sample one loop can unpack is dispatched to that loop, and no sample suits both. |
| FusionAsync.SettleFrame | fusion_async.py:89-91 | An iteration keeps the attitude the update leaves, and a skipped update ends the task with nothing changed. (Unfolding lemma: one step of `Settle`.) |
| FusionAsync.NoMagStepSkips | fusion_async.py:89-91 | A zero accelerometer reading ends an iteration of `_update_nomag` by `return`, with nothing changed. |
| FusionAsync.MagStepSkips | fusion_async.py:137-171 | A zero accelerometer reading, or a magnetometer reading equal to the bias, ends an iteration of `_update_mag` by `return`. |
| FusionAsync.NoMagStepperSkips | fusion_async.py:89-91 | The same, for the loop body as passed to `RunLoop`. |
| FusionAsync.MagStepperSkips | fusion_async.py:160-171 | The same, for the 9-axis loop body. |
| FusionAsync.RunConsumes | fusion_async.py:64-68 | A run reads one sample per iteration: its whole budget while still running, at least one once it has ended. |
| FusionAsync.HaltIsFinal | fusion_async.py:89-91 | Once the task has ended, a larger budget gives the same run. |
| FusionAsync.RunContinues | fusion_async.py:64-68 | An iteration that leaves the loop running is followed by the rest of the run from the next sample. (Unfolding lemma: one step of `RunLoop`.) |
| FusionAsync.RunEnds | fusion_async.py:89-91 | An iteration that ends the loop ends the run, one sample further on. (Unfolding lemma: one step of `RunLoop`.) |
| FusionAsync.RunKeeps | fusion_async.py:63-128 | A property of the attitude kept by every iteration is kept by every run. |
| FusionAsync.NoMagStepUnit | fusion_async.py:118-124 | Every iteration of `_update_nomag` keeps the quaternion at unit length. |
| FusionAsync.MagStepUnit | fusion_async.py:223-229 | Every iteration of `_update_mag` keeps the quaternion at unit length. |
| FusionAsync.NoMagStepLevel | fusion_async.py:125 | An iteration of `_update_nomag` writes a zero heading, or leaves it as it was. |
| FusionAsync.NoMagRunUnit | fusion_async.py:63-128 | A run of the 6-axis task keeps a unit quaternion unit. |
| FusionAsync.MagRunUnit | fusion_async.py:130-234 | A run of the 9-axis task keeps a unit quaternion unit. |
| FusionAsync.NoMagRunLevel | fusion_async.py:125 | The 6-axis task never reports a nonzero heading. |
| FusionAsync.NoMagZeroAccelEnds | fusion_async.py:89-91 | A zero accelerometer reading ends the 6-axis task at once: nothing is written and `deltat` is not called. |
| FusionAsync.MagZeroReadingEnds | fusion_async.py:160-171 | A zero accelerometer reading, or a magnetometer reading equal to the bias, ends the 9-axis task at once. |
| FusionAsync.Fusion.constructor | fusion_async.py:31-41 | `expect_ts` holds exactly when a differencing function is given. The filter starts at the identity with zero angles, bias and declination. `DeltaT` has no baseline and no sample has been read. |
| FusionAsync.Fusion.Read | fusion_async.py:44 | `await read_coro()` returns the next sample of the stream and counts it. |
| FusionAsync.Fusion.ReadMag | fusion_async.py:44-45 | Reads the next sample and takes `res[2]`, raising when it has no magnetometer vector. |
| FusionAsync.Fusion.Gather | fusion_async.py:49-53 | One pass of the calibration loop reads one sample and folds its vector into the extremes. |
| FusionAsync.Fusion.Sweep | fusion_async.py:48-53 | The `while not stopfunc()` loop reads one sample per false test. It stops when `stopfunc` holds, or raises at a sample without a magnetometer vector. |
| FusionAsync.Fusion.Calibrate | fusion_async.py:43-54 | Samples are read as the loop says. On success the bias is the per-axis midpoint of the extremes of the vectors read. On a sample without one the task raises and the bias is left as it was. |
| FusionAsync.Fusion.Start | fusion_async.py:56-61 | Consumes one sample and chooses the 6-axis loop for a pair, or a triple with stamps expected, and the 9-axis loop otherwise. |
| FusionAsync.Fusion.StartAndRun | fusion_async.py:56-61 | `start` followed by the task it creates: the loop is chosen from sample `n`, which is then dropped, and the state afterwards is that of `RunLoop` for the chosen loop from sample `n + 1`. |
| FusionAsync.Fusion.Integrate | fusion_async.py:118-128 | The integration tail writes what `Filter.Integrate` specifies, and ends the task on an exception. |
| FusionAsync.Fusion.NoMagIteration | fusion_async.py:65-128 | One loop body, on a sample read, does what `NoMagStep` specifies. |
| FusionAsync.Fusion.MagIteration | fusion_async.py:132-234 | One loop body, on a sample read, does what `MagStep` specifies. |
| FusionAsync.Fusion.NoMagTurn | fusion_async.py:64-128 | One iteration, sample read included, is the first step of `RunLoop`. |
| FusionAsync.Fusion.MagTurn | fusion_async.py:131-234 | One iteration of the 9-axis loop is the first step of `RunLoop`. |
| FusionAsync.Fusion.RunNoMag | fusion_async.py:63-128 | The 6-axis task leaves the state `RunLoop` gives: how it ended, attitude, baseline and samples consumed. |
| FusionAsync.Fusion.RunMag | fusion_async.py:130-234 | The 9-axis task leaves the state `RunLoop` gives. |
| Orientate.Position | orientate.py:30 | `vector[axis]` reads position `axis`, or `n + axis` for a negative index. |
| Orientate.InvertOne | orientate.py:24 | The output has `min(len(axes), len(vector))` components. Component `j` is negated exactly when `axes[j]` is set. |
| Orientate.Invert | orientate.py:21-25 | One output per input vector, in order, each inverted by the same flags. |
| Orientate.TransposeOne | orientate.py:30 | Succeeds exactly when every index is in range, else raises `IndexError`. Entry `k` is `vector[idx[k]]`. |
| Orientate.Transpose | orientate.py:27-31 | Succeeds exactly when every vector can be transposed. Then there is one list per vector, in order. |
| Orientate.Orientate | orientate.py:41-42 | Raises exactly when transposition does. Otherwise the number of vectors is kept, and component `k` of each is input component `t[k]`, negated when `i[k]` is set. |
| Orientate.TransposeOneIdentity | orientate.py:33 | `(0, 1, 2)` leaves a 3-vector unchanged. |
| Orientate.TransposeIdentity | orientate.py:33 | `transpose((0, 1, 2), vs)` leaves 3-vectors unchanged. |
| Orientate.TransposeOneSwap | orientate.py:28 | `(1, 0, 2)` swaps x and y of a 3-vector. |
| Orientate.TransposeSwapsXY | orientate.py:28 | `transpose((1, 0, 2), vs)` swaps x and y in every vector. |
| Orientate.Inverse | orientate.py:27-31 | The inverse index tuple of a rearrangement points back at every axis. |
| Orientate.TransposeOneRoundTrip | orientate.py:30 | Transposing by a rearrangement and then by its inverse restores a vector. |
| Orientate.TransposeRoundTrip | orientate.py:27-31 | The same for a list of vectors. |
| Orientate.InvertOneTwice | orientate.py:24 | Inverting twice with the same flags restores the vector, cut to the number of flags. |
| Orientate.InvertNoFlags | orientate.py:21-25 | With no flag set and a flag for every component, `invert` is the identity. |
| Orientate.InvertInvolution | orientate.py:21-25 | Inverting a list twice restores each vector, cut to the number of flags. |
| Orientate.InvertTwiceIsIdentity | orientate.py:21-25 | With a flag for every component, inverting twice is the identity. |

## Left out

- I/O and timing:
  - the `time.sleep`/`wait()` calls of synchronous `calibrate` and its `wait` argument, which only delay;
  - the `slow_platform` yields, `asyncio.create_task` and all scheduling;
  - the clock `time.ticks_us()`, which is a parameter.
- Floating point:
  - numbers are exact reals;
  - `sqrt`, `asin`, `atan2`, `degrees` and `radians` are uninterpreted;
  - wherever a lemma needs `sqrt`, `Math.Sound` is an explicit precondition stating that it is the exact square root;
  - a math domain error from `asin` is not modelled; `Madgwick.PitchArgumentInDomain` shows that the argument lies in [-1, 1] for a unit quaternion;
  - there is no accuracy or convergence claim.
- `DeltaT` construction:
  - both classes call `DeltaT(timediff)` with one argument, but deltat.py takes `expect_ts` and `timediff`;
  - the synchronous class therefore takes the mode explicitly;
  - the asynchronous class derives it as the code's `expect_ts = timediff is not None`, and uses `ticksDiff` (the native clock difference) when no function is given.
- Types:
  - the attribute `declination` is a field of each instance;
  - timestamps are integers;
  - a sample element is a three-vector or a stamp;
  - with `expect_ts`, a three-vector where the stamp should be makes the sample malformed (`BadSample`), although Python's tuple unpacking at fusion_async.py:65-69 and 132-134 accepts any value there and hands it to `timediff`;
  - any other Python value in a tuple, and tuple/list distinctions in `orientate`, are not modelled;
  - `invert`'s flags are booleans, not arbitrary truthy values.
- Fusion.Fusion.Calibrate, FusionAsync.Fusion.Calibrate and FusionAsync.Fusion.Sweep: these require that `stopfunc` eventually returns true. A calibration that never stops is not modelled.
- FusionAsync.Fusion.RunNoMag and FusionAsync.Fusion.RunMag: the `while True` loops run for a `budget` of samples. A run that is still going when the budget is spent reports `Running`.
- FusionAsync.Fusion.RunNoMag and FusionAsync.Fusion.RunMag: `magbias` and `declination` are read once per run, when the loop body is built. The code re-reads `self.magbias` (fusion_async.py:137) and `self.declination` (fusion_async.py:230) on every iteration. A write to either by another task (a concurrent `calibrate`, say) in the middle of a run is not modelled.
- The default differencing function: `ticks_diff(ts, None)` raises on the first call, so with it a `DeltaT` never gets a baseline. The model keeps `timediff` a parameter that may raise, and states this case in `Deltat.NeverStarts`; which concrete function the library passes is outside the model.
- The 0.0001 s first interval: the library's documentation describes one for the first `DeltaT` call, but deltat.py:28 has no such case. The first call passes `None` as the previous stamp to `timediff`, and the model follows the code (`Deltat.AdvanceSuccess`).
- A zero step norm: the library's documentation says it is skipped like a zero reading, but fusion.py:91 divides by it and raises `ZeroDivisionError`. The model follows the code (`Filter.LevelAtRestRaises`).
- Skipped readings in the asynchronous loops: the library's documentation describes skip-and-continue, but these loops `return` on a zero reading (fusion_async.py:91, 162, 171), which ends the task. The model follows the code (`FusionAsync.NoMagZeroAccelEnds`).
