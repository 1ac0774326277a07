/** Optional values and results with an error arm, as used by the weather model. */
module Wrappers {

  /** A value that may be absent: a JSON key that is missing, a command-line flag not given. */
  datatype Option<+T> = None | Some(value: T)

  /** The outcome of an operation that either produces a value or raises an error of kind `E`. */
  datatype Result<+R, +E> = Success(value: R) | Failure(error: E)
}
