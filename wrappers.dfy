/** Optional values and results with an error value, as used throughout the model. */
module Wrappers {

  /** A value that may be absent (Python's `None`). */
  datatype Option<+T> = None | Some(value: T)

  /** The outcome of an operation that may raise: a value or the error it raises. */
  datatype Result<+R, +E> = Success(value: R) | Failure(error: E)
}
