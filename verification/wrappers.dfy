/** Failure-carrying values shared by every module of the model. */
module Wrappers {

  datatype Option<+T> = None | Some(value: T)

  /** The outcome of a step that can fail with a message (an exception in the source). */
  datatype Result<+T, +E> = Ok(value: T) | Err(error: E)
}
