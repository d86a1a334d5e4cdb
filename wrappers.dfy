/** Optional values and the outcome of a remote call. */
module Wrappers {

  datatype Option<+T> = None | Some(value: T)

  /** The settled state of an awaited promise: a value, or the error it was rejected with. */
  datatype Result<+T, +E> = Success(value: T) | Failure(error: E)
}
