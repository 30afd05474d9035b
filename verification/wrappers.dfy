/** Optional values (`undefined` or `null` in the source) and results that may
    be thrown errors. */
module Wrappers {

  /** A value that may be absent. */
  datatype Option<+T> = None | Some(value: T)

  /** A value, or the error an operation throws instead of returning it. */
  datatype Result<+T, +E> = Success(value: T) | Failure(error: E)
}
