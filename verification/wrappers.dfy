/** The failure-compatible result type shared by the fetch, projection and
    prediction steps: each Python exception the model covers (a failed
    lookup, an empty properties list, a null descriptor, an empty prediction)
    becomes a `Failure`. */
module Wrappers {

  datatype Result<+T, +E> = Success(value: T) | Failure(error: E) {

    predicate IsFailure() {
      Failure?
    }

    function PropagateFailure<U>(): Result<U, E>
      requires Failure?
    {
      Failure(error)
    }

    function Extract(): T
      requires Success?
    {
      value
    }
  }
}
