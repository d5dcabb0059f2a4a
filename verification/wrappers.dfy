/** Option and Result, the failure-compatible wrappers used by the model. */
module Wrappers {

  /** A value that may be absent (a JavaScript `null`/`undefined` result). */
  datatype Option<+T> = None | Some(value: T)

  /** The outcome of a call that either returns or throws. */
  datatype Result<+R, +E> = Success(value: R) | Failure(error: E) {

    predicate IsFailure() {
      Failure?
    }

    function PropagateFailure<U>(): Result<U, E>
      requires Failure?
    {
      Failure(error)
    }

    function Extract(): R
      requires Success?
    {
      value
    }
  }
}
