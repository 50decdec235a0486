/** The success-or-error value every fallible operation of the model returns.
    A `Failure` stands for the exception Python raises at that point (or, where
    noted, for the non-finite values NumPy would return instead). */
module Results {

  datatype Result<+T, +E> = Success(value: T) | Failure(error: E) {

    predicate IsFailure() {
      Failure?
    }

    function PropagateFailure<U>(): Result<U, E>
      requires Failure?
    {
      Failure(error)
    }

    function Extract(): T
      requires Success?
    {
      value
    }

    /** Re-labels the error, keeping a success as it is. */
    function MapFailure<F>(wrap: E -> F): Result<T, F>
    {
      match this
      case Success(v) => Success(v)
      case Failure(e) => Failure(wrap(e))
    }
  }
}
