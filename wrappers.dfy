/** Option and Result, used for the optional values and the error returns of the Go code. */
module Wrappers {

  datatype Option<+T> = None | Some(value: T)

  /** A Go `(value, error)` pair: either the value or the error's message. */
  datatype Result<+T> = Success(value: T) | Failure(error: string)
}
