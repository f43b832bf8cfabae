/** Failure conditions raised by the engine and its linear-algebra collaborator. */
module Errors {

  /** The two exceptions the core can raise: a vector operation on operands of
      different lengths, and an index past the end of a vector or array. */
  datatype Error = DimensionMismatch | IndexOutOfRange

  /** The value of a call that either returns normally or throws. */
  datatype Result<T> = Success(value: T) | Failure(error: Error) {
    predicate IsFailure() {
      Failure?
    }

    function PropagateFailure<U>(): Result<U>
      requires Failure?
    {
      Failure(error)
    }

    function Extract(): T
      requires Success?
    {
      value
    }
  }

  /** A double that may be NaN: `None` stands for the NaN that 0.0 / 0 produces. */
  datatype Option<T> = None | Some(value: T)
}
