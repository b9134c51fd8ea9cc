/** Failure-compatible result types used throughout the grid model. */
module Wrappers {

  datatype Option<+T> = None | Some(value: T)

  /** A computation that either yields a value or fails with an error. */
  datatype Result<+R, +E> = Success(value: R) | Failure(error: E)

  /** A state change that either completed or was aborted by an error. */
  datatype Outcome<+E> = Pass | Fail(error: E)
}
