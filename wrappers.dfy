/** Option and Result: Go's nil pointers and (value, error) pairs. */
module Wrappers {

  /** A value that may be absent (a nil pointer or interface in the source). */
  datatype Option<+T> = None | Some(value: T)

  /** The outcome of an operation that either yields a value or fails. */
  datatype Result<+R, +E> = Success(value: R) | Failure(error: E)
}
