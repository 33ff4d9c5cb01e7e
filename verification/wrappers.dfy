/** Option and Result, the two failure-carrying datatypes the model uses in place of
    Python's `None` and raised exceptions. */
module Wrappers {

  /** A value that may be absent: an unset dropdown, a key that is not in a mapping. */
  datatype Option<+T> = None | Some(value: T)

  /** The outcome of a lookup that raises on a missing key. Failure-compatible, so
      `var d :- Lookup(...);` propagates the error. */
  datatype Result<+T, +E> = Success(value: T) | Failure(error: E) {

    predicate IsFailure() {
      Failure?
    }

    function PropagateFailure<U>(): Result<U, E>
      requires Failure?
    {
      Failure(error)
    }

    function Extract(): T
      requires Success?
    {
      value
    }
  }
}
