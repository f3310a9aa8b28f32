/** Option and Result, the two wrapper types every module of the model uses. */
module Wrappers {

  datatype Option<+T> = None | Some(value: T)

  /** Swift's `Result<Success, Failure>`. */
  datatype Result<+T, +E> = Success(value: T) | Failure(error: E)
}
