/** Failure-compatible result types shared by every module of the model. */
module Wrappers {

  /** A value that may be absent (a nil pointer in the source). */
  datatype Option<+T> = None | Some(value: T)

  /** The `(value, error)` pair that Go functions return: exactly one of the two is set. */
  datatype Result<+T, +E> = Ok(value: T) | Err(error: E)
}
