/** Optional values and results with an error, as used throughout the model. */
module Wrappers {

  /** A value that may be missing: JavaScript's `undefined` / `null`. */
  datatype Option<+T> = None | Some(value: T)

  /** A value, or the error an operation throws instead of returning one. */
  datatype Result<+T, +E> = Ok(value: T) | Err(error: E)
}
