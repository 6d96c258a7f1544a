/** Option and Result, standing in for Go's nil pointers and `(value, error)` returns. */
module Wrappers {

  /** `None` plays the part of a nil pointer or a nil map. */
  datatype Option<+T> = None | Some(value: T)

  /** A value or an error, as a Go function returning `(T, error)` yields. */
  datatype Result<+T, +E> = Success(value: T) | Failure(error: E)
}
