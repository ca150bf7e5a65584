/** Failure-carrying result types used by the factories. */
module Wrappers {

  /** Some value, or nothing (JavaScript's `null` return). */
  datatype Option<+T> = None | Some(value: T)

  /** A value, or the error a `throw` would have raised instead. */
  datatype Result<+R, +E> = Success(value: R) | Failure(error: E)
}
