/** Optional values and results, standing for Python's `None` and for exceptions. */
module Wrappers {

  datatype Option<+T> = None | Some(value: T)

  /** A computation that either returns a value or raises an exception of kind `E`. */
  datatype Result<+T, +E> = Success(value: T) | Failure(error: E)
}
