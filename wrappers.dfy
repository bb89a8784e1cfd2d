/** Failure-carrying values used where the source raises an exception. */
module Wrappers {

  /** A value that may be absent: `None` stands for a call that raised. */
  datatype Option<+T> = None | Some(value: T)

  /** The outcome of an operation that either succeeds with a value or fails with an error. */
  datatype Result<+R, +E> = Success(value: R) | Failure(error: E)
}
