/** Failure-carrying datatypes used in place of Go's `(value, error)` pairs. */
module Wrappers {

  /** A value that may be absent, standing for a Go pointer that may be nil. */
  datatype Option<+T> = None | Some(value: T)

  /** Either a value or an error. */
  datatype Result<+T, +E> = Success(value: T) | Failure(error: E)

  /** Success or an error, with no value: Go's bare `error` return. */
  datatype Outcome<+E> = Pass | Fail(error: E)
}
