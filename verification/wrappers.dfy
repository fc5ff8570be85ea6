/** The optional-value and error-result datatypes the other modules share. */
module Wrappers {

  /** A value that may be absent: JavaScript's `null`/`undefined` for a typed slot. */
  datatype Option<+T> = None | Some(value: T)

  /** The outcome of an operation that may raise. */
  datatype Result<+T, +E> = Success(value: T) | Failure(error: E)
}
