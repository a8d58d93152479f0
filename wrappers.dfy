/** Optional values and results with an error, shared by every module. */
module Wrappers {

  /** A value that may be missing: Python's `None` or a JSON `null`. */
  datatype Option<+T> = None | Some(value: T)

  /** The outcome of an operation that either succeeds or raises. */
  datatype Result<+R, +E> = Ok(value: R) | Err(error: E)
}
