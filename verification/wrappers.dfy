/** Option and the failure-compatible Result datatype, shared by the rest of the model. */
module Wrappers {

  /** Python's `Optional[T]`: either absent (None) or a value. */
  datatype Option<+T> = None | Some(value: T)

  /** A value or the error that the source would raise instead of returning it. */
  datatype Result<+R, +E> = Success(value: R) | Failure(error: E) {

    predicate IsFailure() {
      Failure?
    }

    function PropagateFailure<U>(): Result<U, E>
      requires Failure?
    {
      Failure(error)
    }

    function Extract(): R
      requires Success?
    {
      value
    }
  }
}
