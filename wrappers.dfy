/** Failure-compatible wrappers shared by the other modules. */
module Wrappers {

  /** A value that may be absent. */
  datatype Option<+T> = None | Some(value: T)

  /** The outcome of an operation that returns a value or an error, as a Go
      function returning `(T, error)` does. */
  datatype Result<+T, +E> = Success(value: T) | Failure(error: E)
}
