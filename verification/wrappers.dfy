/** Failure-compatible wrappers used across the model: an optional value and
    a success-or-error result. */
module Wrappers {

  /** A value that may be absent (PHP's `null` in an optional parameter). */
  datatype Option<+T> = None | Some(value: T)

  /** The outcome of a step that may raise: `Success` carries the value,
      `Failure` the raised error. */
  datatype Result<+R, +E> = Success(value: R) | Failure(error: E) {
    predicate IsFailure() {
      Failure?
    }

    function PropagateFailure<U>(): Result<U, E>
      requires Failure?
    {
      Failure(error)
    }

    function Extract(): R
      requires Success?
    {
      value
    }
  }
}
