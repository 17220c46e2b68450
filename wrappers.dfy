/** Option and Result: a value that may be absent (a nil reference in Go), and the (value, error) pair of Go. */
module Wrappers {

  datatype Option<+T> = None | Some(value: T)

  datatype Result<+R, +E> = Success(value: R) | Failure(error: E)
}
