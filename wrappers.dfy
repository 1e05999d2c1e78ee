/** Failure-compatible result types used for the exceptions the Python code raises. */
module Wrappers {

  datatype Option<+T> = None | Some(value: T)

  /** A value or the error that was raised instead. */
  datatype Result<+T, +E> = Success(value: T) | Failure(error: E)

  /** A procedure that returned normally, or the error it raised. */
  datatype Outcome<+E> = Pass | Fail(error: E)
}
