/** Optional values and results with an error, used for JavaScript's undefined
    and NaN and for the exceptions the Python service raises. */
module Wrappers {

  datatype Option<+T> = None | Some(value: T)

  datatype Result<+T, +E> = Success(value: T) | Failure(error: E) {

    predicate IsFailure() {
      Failure?
    }

    /** An exception propagates unchanged to the caller. */
    function PropagateFailure<U>(): (r: Result<U, E>)
      requires Failure?
      ensures r.Failure? && r.error == error
    {
      Failure(error)
    }

    function Extract(): T
      requires Success?
    {
      value
    }
  }
}
