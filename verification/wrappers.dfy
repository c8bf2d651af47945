/** Failure-compatible wrappers used throughout the model: an optional value
    (a Go pointer that may be nil) and a value-or-error result (Go's `(T, error)`
    return pair). */
module Wrappers {

  /** A value that may be absent, standing for a Go pointer that may be nil. */
  datatype Option<+T> = None | Some(value: T) {

    predicate IsFailure() {
      None?
    }

    function PropagateFailure<U>(): Option<U>
      requires None?
    {
      None
    }

    function Extract(): T
      requires Some?
    {
      value
    }
  }

  /** Either the value a call produced or the error it returned. */
  datatype Result<+R, +E> = Success(value: R) | Failure(error: E) {

    predicate IsFailure() {
      Failure?
    }

    function PropagateFailure<U>(): Result<U, E>
      requires Failure?
    {
      Failure(error)
    }

    function Extract(): R
      requires Success?
    {
      value
    }
  }
}
