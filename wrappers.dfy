/** Failure-carrying results, as Go's `(value, error)` and `error` returns are modelled. */
module Wrappers {

  /** A value that may be absent. */
  datatype Option<+T> = None | Some(value: T)

  /** The result of an operation that returns a value or fails with an error. */
  datatype Result<+T, +E> = Success(value: T) | Failure(error: E)

  /** The result of an operation that returns only an error (nil on success). */
  datatype Outcome<+E> = Pass | Fail(error: E)
}
