/** Option and Result, the failure-carrying wrappers the rest of the model uses. */
module Wrappers {

  datatype Option<+T> = None | Some(value: T)

  /** `Option::map`: `None` stays `None`, `Some(x)` becomes `Some(f(x))`. */
  function Map<T, U>(x: Option<T>, f: T -> U): Option<U> {
    match x
    case None => None
    case Some(v) => Some(f(v))
  }

  /** A success value or an error, usable with `:-`. */
  datatype Result<+R, +E> = Success(value: R) | Failure(error: E) {

    predicate IsFailure() {
      Failure?
    }

    function PropagateFailure<U>(): Result<U, E>
      requires Failure?
    {
      Failure(error)
    }

    function Extract(): R
      requires Success?
    {
      value
    }
  }
}
