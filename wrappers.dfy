/** Option and Result: the nil pointer and the (value, error) pair of the Go code. */
module Wrappers {

  /** A value that may be absent (a Go pointer or interface that may be nil). */
  datatype Option<+T> = None | Some(value: T)

  /** The (value, error) pair a Go function returns: exactly one side is meaningful. */
  datatype Result<+R, +E> = Success(value: R) | Failure(error: E)
}
