/** Failure-compatible result and option types used by the object model. */
module Wrappers {

  datatype Option<+T> = None | Some(value: T)

  /** The outcome of an interpretation: a value, or the error the C++ code throws. */
  datatype Result<+R, +E> = Success(value: R) | Failure(error: E) {

    predicate IsFailure() {
      Failure?
    }

    function PropagateFailure<U>(): Result<U, E>
      requires Failure?
    {
      Failure(error)
    }

    function Extract(): R
      requires Success?
    {
      value
    }
  }
}
