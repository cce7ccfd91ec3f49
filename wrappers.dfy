/** Failure-compatible result types shared by the model. The contract reverts
    with an error code; in the model a reverted call is a `Failure` or `Fail`
    value that carries the error and no new state. */
module Wrappers {

  /** The host's `Option`, as returned by `checked_add` and `checked_sub`. */
  datatype Option<+T> = None | Some(value: T) {

    /** `Option::ok_or`: a missing value becomes the given error. */
    function OkOr<E>(error: E): Result<T, E> {
      match this
      case Some(v) => Success(v)
      case None => Failure(error)
    }
  }

  /** A value, or the error the call reverts with. */
  datatype Result<+T, +E> = Success(value: T) | Failure(error: E) {

    predicate IsFailure() {
      Failure?
    }

    function PropagateFailure<U>(): Result<U, E>
      requires Failure?
    {
      Failure(error)
    }

    function Extract(): T
      requires Success?
    {
      value
    }
  }

  /** The result of a check that returns nothing or reverts. */
  datatype Outcome<+E> = Pass | Fail(error: E) {

    predicate IsFailure() {
      Fail?
    }

    function PropagateFailure<U>(): Result<U, E>
      requires Fail?
    {
      Failure(error)
    }
  }

  /** Passes when `condition` holds and fails with `error` otherwise. */
  function Need<E>(condition: bool, error: E): Outcome<E> {
    if condition then Pass else Fail(error)
  }
}
