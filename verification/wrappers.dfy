/** Failure-carrying result types used to model the exceptions the shape
    helpers raise instead of returning. */
module Wrappers {

  /** A value that may be missing: Python's `None` next to a present value. */
  datatype Option<+T> = None | Some(value: T)

  /** Either a computed value or the exception raised while computing it. */
  datatype Result<+R, +E> = Success(value: R) | Failure(error: E) {

    predicate IsFailure() {
      Failure?
    }

    function PropagateFailure<U>(): Result<U, E>
      requires Failure?
    {
      Failure(error)
    }

    function Extract(): R
      requires Success?
    {
      value
    }
  }

  /** The outcome of a check that returns nothing but may raise. */
  datatype Outcome<+E> = Pass | Fail(error: E)
}
