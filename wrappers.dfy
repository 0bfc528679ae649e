/** Optional values and results with an error, shared by every module of the model. */
module Wrappers {

  /** A value that may be absent (Python's None, or a skipped sample). */
  datatype Option<+T> = None | Some(value: T)

  /** The outcome of an operation that may raise: its value, or the exception it raised. */
  datatype Result<+T, +E> = Success(value: T) | Failure(error: E)
}
