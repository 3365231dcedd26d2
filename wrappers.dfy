/** Failure-compatible wrappers shared by the webhook model. */
module Wrappers {

  /** An optional value; for a property read, None is JavaScript's `undefined`. */
  datatype Option<+T> = None | Some(value: T)

  /** The value of a step, or the message of the exception it raised. */
  datatype Result<+T, +E> = Success(value: T) | Failure(error: E)
}
