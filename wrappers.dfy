/** Failure-compatible wrappers shared by the modules of this model. */
module Wrappers {

  /** A value that may be absent: JavaScript's `null`/`undefined` in the source. */
  datatype Option<+T> = None | Some(value: T)

  /** Either a value or the error a call would throw. */
  datatype Result<+R, +E> = Success(value: R) | Failure(error: E)
}
