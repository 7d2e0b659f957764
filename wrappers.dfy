/** Option and Result values for the partial operations of the client. */
module Wrappers {

  /** A value that may be absent; `None` stands for a call that raised. */
  datatype Option<+T> = None | Some(value: T)

  /** The outcome of an operation that either produces a value or raises an error. */
  datatype Result<+T, +E> = Ok(value: T) | Err(error: E)
}
