/** Optional values and results shared by every module of the model. */
module Wrappers {

  /** A value that may be absent: SQL NULL, a missing JSON field, `null` from localStorage. */
  datatype Option<+T> = None | Some(value: T)

  /** The outcome of a client call that either resolves with a value or throws an error message. */
  datatype Result<+T, +E> = Success(value: T) | Failure(error: E)
}
