/** Option and Result, the two failure-carrying shapes the rest of the model uses. */
module Wrappers {

  /** A value that may be absent: a Go pointer that may be nil, an error that may be nil. */
  datatype Option<+T> = None | Some(value: T)

  /** A Go `(value, error)` pair: either a value or an error. */
  datatype Result<+T, +E> = Success(value: T) | Failure(error: E)
}
