/** Failure-compatible value wrappers shared by the other modules. */
module Wrappers {

  /** A value that may be absent: Go's nil pointer or nil interface. */
  datatype Option<+T> = None | Some(value: T)

  /** The outcome of an operation that returns either a value or an error. */
  datatype Result<+T, +E> = Ok(value: T) | Err(error: E)

  /** The outcome of an operation that returns only an error, or nothing (Go's `error`). */
  datatype Outcome<+E> = Pass | Fail(error: E)
}
