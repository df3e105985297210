/** Optional values and results, used where the modelled code uses `null` or throws. */
module Wrappers {

  /** A value that may be absent (`null` in the modelled code). */
  datatype Option<+T> = None | Some(value: T)

  /** The outcome of a call that either returns a value or throws an exception. */
  datatype Result<+R, +E> = Success(value: R) | Failure(error: E)
}
