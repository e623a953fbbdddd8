/** Failure-compatible wrappers shared by every module of the model. */
module Wrappers {

  /** A value that may be absent: Go's `, ok` lookups, JavaScript's `null`/`undefined`. */
  datatype Option<+T> = None | Some(value: T)

  /** A value or an error. */
  datatype Result<+T, +E> = Success(value: T) | Failure(error: E)
}
