/** Option and Result, the failure-carrying values used throughout the model. */
module Wrappers {

  datatype Option<+T> = None | Some(value: T)

  /** The outcome of calling Python code that may raise: a value, or the raised exception. */
  datatype Result<+T, +E> = Success(value: T) | Failure(error: E)
}
