/** Option and Result, the two failure-carrying shapes the model uses. */
module Wrappers {

  datatype Option<+T> = None | Some(value: T)

  /** `Failure` stands for a Python exception that the caller sees. */
  datatype Result<+R, +E> = Success(value: R) | Failure(error: E)
}
