/** Option and Result, and the exceptions the modelled code can raise. */
module Wrappers {

  datatype Option<+T> = None | Some(value: T)

  datatype Result<+R, +E> = Success(value: R) | Failure(error: E)

  /** The Python exceptions raised by the core. */
  datatype Error =
    | TimestampMissing   // ValueError from DeltaT: a timestamp was expected but not supplied
    | ZeroDivision       // ZeroDivisionError from an unguarded `1 / sqrt(...)`
    | BadSample          // ValueError / TypeError unpacking a sample of the wrong shape
    | IndexOutOfRange    // IndexError from subscripting a sample or a vector
    | TimeDiffRaised     // whatever the caller's `timediff` raises, e.g. TypeError from `ticks_diff(ts, None)`
}
