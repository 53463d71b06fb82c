/** Option, Result and Outcome: the error-or-value shapes every other module returns
    instead of throwing. */
module Wrappers {

  datatype Option<+T> = None | Some(value: T)

  /** A computed value, or the error that was thrown instead. */
  datatype Result<+T, +E> = Ok(value: T) | Err(error: E)

  /** A check that returns nothing when it passes and throws `error` when it fails. */
  datatype Outcome<+E> = Pass | Fail(error: E)
}
