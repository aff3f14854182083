/** Optional values and results that may be errors. */
module Wrappers {

  /** A possibly-missing value: JavaScript's `undefined`/`null` versus a present one. */
  datatype Option<+T> = None | Some(value: T)

  /** A value or the error raised instead of it. */
  datatype Result<+T, +E> = Success(value: T) | Failure(error: E)
}
