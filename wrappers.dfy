/** Failure-carrying result types shared by the whole model. */
module Wrappers {

  datatype Option<+T> = None | Some(value: T)

  /** A value, or the exception that was raised instead of returning one. */
  datatype Result<+R, +E> = Success(value: R) | Failure(error: E)

  /** The outcome of a call made only for its effect (`None` in Python, or a raise). */
  datatype Outcome<+E> = Pass | Fail(error: E)
}
