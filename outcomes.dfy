/** The two exceptions the geometry library throws, as values. */
module Outcomes {

  /** `NotSupportedException` (an Euler order without a formula) and
      `IndexOutOfRangeException` (reading the first element of an empty array). */
  datatype Error = NotSupported | IndexOutOfRange

  /** A computation that either yields a value or throws. */
  datatype Result<T> = Ok(value: T) | Err(error: Error)

  /** A state-changing call that either completes or throws before changing anything. */
  datatype Outcome = Pass | Fail(error: Error)
}
