/** Failure-carrying return types shared by every module of the model. */
module Wrappers {

  /** A value that may be absent (JavaScript `undefined` where the source returns nothing). */
  datatype Option<+T> = None | Some(value: T)

  /** The value of an operation, or the message of the error that ends it. */
  datatype Result<+T, +E> = Ok(value: T) | Err(error: E)

  /** A check that passes or stops with the message of its error. */
  datatype Outcome<+E> = Pass | Fail(error: E)
}
