/** Failure-carrying wrappers shared by the other modules. */
module Wrappers {

  datatype Option<+T> = None | Some(value: T)

  /** The outcome of an operation: a value, or the error the Go code returns. */
  datatype Result<+T, +E> = Ok(value: T) | Err(error: E)
}
