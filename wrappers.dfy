/** Option and Result, for absent form fields and for the error returns of the Go code. */
module Wrappers {

  datatype Option<+T> = None | Some(value: T)

  /** A Go `(value, error)` pair where only one side matters: a value, or the error's message. */
  datatype Result<+T> = Success(value: T) | Failure(error: string)
}
