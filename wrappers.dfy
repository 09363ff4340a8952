/** Option and Result datatypes standing for the Go code's nil pointers and (value, error) returns. */
module Wrappers {

  /** A value that may be absent: Go's nil pointer. */
  datatype Option<+T> = None | Some(value: T)

  /** A value or an error: Go's (T, error) pair where exactly one is meaningful. */
  datatype Result<+T, +E> = Success(value: T) | Failure(error: E)
}
