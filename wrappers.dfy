/** Optional values and results with an error, shared by every module. */
module Wrappers {

  /** A value that may be absent (JavaScript `undefined`). */
  datatype Option<+T> = None | Some(value: T)

  /** The result of a computation that may throw. */
  datatype Result<+T, +E> = Ok(value: T) | Err(error: E)
}
