/** Failure-compatible wrappers used throughout the model. */
module Wrappers {

  /** A value that may be absent: a missing field, `null`, `undefined`. */
  datatype Option<+T> = None | Some(value: T) {
    function GetOr(default: T): T {
      match this
      case Some(v) => v
      case None => default
    }
  }

  /** The outcome of a step that either yields a value or fails with an error. */
  datatype Result<+T, +E> = Success(value: T) | Failure(error: E)

  /** The outcome of a check that passes or fails with an error (a thrown `Error`). */
  datatype Outcome<+E> = Pass | Fail(error: E)
}
