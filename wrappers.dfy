/** Optional values and success-or-error results, shared by every module of the model. */
module Wrappers {

  /** A value that may be absent (`undefined` in the service). */
  datatype Option<+T> = None | Some(value: T)

  /** The outcome of an operation that may throw: its value or the error it throws. */
  datatype Result<+T, +E> = Success(value: T) | Failure(error: E)
}
