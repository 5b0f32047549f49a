/** Failure-compatible wrappers used for the optional values and the error
    returns of the verification app. */
module Wrappers {

  /** A value that may be absent (Python's `None`). */
  datatype Option<+T> = None | Some(value: T)

  /** The outcome of an operation that the source ends by raising an exception. */
  datatype Result<+R, +E> = Ok(value: R) | Err(error: E)
}
