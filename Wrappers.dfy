/** Option and Result: absence and failure as values, in place of `null` and `throw`. */
module Wrappers {
  datatype Option<+T> = None | Some(value: T)

  /** A computation that returned `value` or threw `error`; `:-` propagates the error. */
  datatype Result<+T, +E> = Success(value: T) | Failure(error: E) {
    predicate IsFailure() {
      Failure?
    }

    function PropagateFailure<U>(): Result<U, E>
      requires Failure?
    {
      Failure(error)
    }

    function Extract(): T
      requires Success?
    {
      value
    }
  }
}
