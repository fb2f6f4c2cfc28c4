/** Failure-compatible wrappers used throughout the model: `Option` for the
    source's `null`/`undefined` values and `Result` for a promise that either
    resolves with a value or rejects with an error. */
module Wrappers {

  /** A value that may be absent (`null` or `undefined` in the source). */
  datatype Option<+T> = None | Some(value: T)

  /** The settled outcome of an asynchronous call: resolved or rejected. */
  datatype Result<+T, +E> = Success(value: T) | Failure(error: E) {
    predicate IsFailure() {
      Failure?
    }

    /** The same rejection, as a result of another value type. */
    function PropagateFailure<U>(): Result<U, E>
      requires Failure?
    {
      Failure(error)
    }

    function Extract(): T
      requires Success?
    {
      value
    }
  }
}
