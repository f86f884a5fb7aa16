/** Failure-compatible wrappers used by the statement builders. */
module Wrappers {

  /** A value that may be absent (JavaScript's `undefined`/`null` field). */
  datatype Option<+T> = None | Some(value: T)

  /** The outcome of a builder that can throw: a value or the error raised. */
  datatype Result<+R, +E> = Success(value: R) | Failure(error: E)
}
