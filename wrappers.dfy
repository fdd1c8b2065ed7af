/** Failure-carrying values used in place of the exceptions the library throws. */
module Wrappers {

  datatype Option<+T> = None | Some(value: T)

  /** A value or the error that replaced it. */
  datatype Result<+R, +E> = Ok(value: R) | Err(error: E)

  /** Completed normally, or failed with an error (a `void` function that may throw). */
  datatype Outcome<+E> = Pass | Fail(error: E)
}
