/** Option and Result: the two failure-carrying datatypes the model uses. */
module Wrappers {

  /** A value that may be absent (Python's `None`). */
  datatype Option<+T> = None | Some(value: T)

  /** The value of a computation, or the error that interrupted it. */
  datatype Result<+T, +E> = Ok(value: T) | Err(error: E)
}
