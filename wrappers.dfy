/** Failure-carrying result types used for the exceptions the framework throws. */
module Wrappers {

  datatype Option<+T> = None | Some(value: T)

  datatype Result<+R, +E> = Success(value: R) | Failure(error: E)

  /** An operation that either passes or fails with an error and returns nothing else. */
  datatype Outcome<+E> = Pass | Fail(error: E)
}
