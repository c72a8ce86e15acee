/** The optional-value and outcome datatypes used throughout the model. */
module Wrappers {

  /** A value that may be absent (`undefined` in the JavaScript source). */
  datatype Option<+T> = None | Some(value: T)

  /** The outcome of an operation that may throw or reject. */
  datatype Result<+T, +E> = Ok(value: T) | Err(error: E)
}
