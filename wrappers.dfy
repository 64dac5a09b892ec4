/** Failure-carrying datatypes used to model Python exceptions as values. */
module Wrappers {

  /** A value that may be absent (Python `None`). */
  datatype Option<T> = None | Some(value: T)

  /** A successful value or the error that was raised instead. */
  datatype Result<T, E> = Ok(value: T) | Err(error: E)

  /** Success without a value, or the error that was raised. */
  datatype Outcome<E> = Pass | Fail(error: E)
}
