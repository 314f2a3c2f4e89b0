/** Optional values and results with an error, as used throughout the model. */
module Wrappers {

  /** `None` stands for Python's `None` in an optional argument. */
  datatype Option<+T> = None | Some(value: T)

  /** The outcome of an operation that may raise an exception. */
  datatype Result<+T, +E> = Success(value: T) | Failure(error: E)
}
