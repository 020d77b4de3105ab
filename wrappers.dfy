/** Failure-carrying wrappers shared by the model. */
module Wrappers {

  /** Java's Optional / OptionalInt: a value that may be absent. */
  datatype Option<+T> = None | Some(value: T)

  /** The outcome of a call that either returns a value or throws. */
  datatype Result<+T, +E> = Ok(value: T) | Err(error: E)
}
