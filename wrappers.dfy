/** Option and Result: Go's nil-able values and (value, error) returns. */
module Wrappers {

  /** A value that may be absent: a nil interface or reference, a missing key. */
  datatype Option<+T> = None | Some(value: T)

  /** The (value, error) pair a Go constructor returns, with exactly one side meaningful. */
  datatype Result<+R, +E> = Success(value: R) | Failure(error: E)
}
