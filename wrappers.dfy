/** Failure-compatible wrappers shared by the query and connection models. */
module Wrappers {

  /** A PHP value that may be `false`/`null` (`None`) or present (`Some`). */
  datatype Option<+T> = None | Some(value: T)

  /** The outcome of an operation that may throw: a value, or the exception it raised. */
  datatype Result<+T, +E> = Ok(value: T) | Err(error: E)
}
