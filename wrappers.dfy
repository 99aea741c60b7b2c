/** Wrappers for the missing values and thrown errors of the app cell. */
module Wrappers {

  /** A value that may be absent (JavaScript `undefined`). */
  datatype Option<+T> = None | Some(value: T)

  /** The outcome of an operation that either yields a value or throws. */
  datatype Result<+T, +E> = Ok(value: T) | Err(error: E)

  /** The outcome of an operation that yields nothing but may throw. */
  datatype Outcome<+E> = Pass | Fail(error: E)
}
