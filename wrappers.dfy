/** Failure-carrying values shared by the modules of this model. */
module Wrappers {

  /** A value that may be absent: the model's stand-in for a NULL pointer result. */
  datatype Option<+T> = None | Some(value: T)

  /** An operation that either succeeds with a value or fails with an error. */
  datatype Result<+T, +E> = Ok(value: T) | Err(error: E)
}
