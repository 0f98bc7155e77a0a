/** The optional-value and result types shared by every module of the model. */
module Wrappers {

  /** A value that may be absent: a nullable column, an optional argument, a lookup miss. */
  datatype Option<+T> = None | Some(value: T)

  /** The outcome of an operation that can throw: its value, or the error it raised. */
  datatype Result<+T, +E> = Success(value: T) | Failure(error: E)
}
