/** Failure-carrying results used throughout the model: the Python source
    reports failures by raising exceptions, which become `Failure` values here. */
module Wrappers {

  datatype Option<+T> = None | Some(value: T)

  datatype Result<+R, +E> = Success(value: R) | Failure(error: E)

  /** The outcome of a check that yields no value when it passes. */
  datatype Outcome<+E> = Pass | Fail(error: E)
}
