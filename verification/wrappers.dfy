/** Small failure-carrying datatypes used across the model. */
module Wrappers {

  /** A value that may be missing (`undefined` in JavaScript). */
  datatype Option<+T> = None | Some(value: T)

  /** A value or the error that was thrown instead of producing it. */
  datatype Result<+R, +E> = Success(value: R) | Failure(error: E)
}
