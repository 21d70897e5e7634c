/** Failure-carrying values used for the source's exceptions and nullable results. */
module Wrappers {

  /** A value that may be absent (PHP null). */
  datatype Option<+T> = None | Some(value: T)

  /** A value, or the exception raised instead of returning it. */
  datatype Result<+R, +E> = Success(value: R) | Failure(error: E)

  /** No value, or the exception raised by a call made for its effect. */
  datatype Outcome<+E> = Pass | Fail(error: E)
}
