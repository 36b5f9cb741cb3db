/** Failure-compatible result types shared by every module of the model. */
module Wrappers {

  /** A value that may be absent (Swift's `Optional`). */
  datatype Option<+T> = None | Some(value: T)

  /** A value or the error that was thrown instead of producing it. */
  datatype Result<+T, +E> = Success(value: T) | Failure(error: E)
}
