/** Result and error values shared by the model.
    The Python code signals failure with exceptions; the model returns them. */
module Outcomes {

  /** The exceptions the modelled code can raise, plus NonFinite for the
      places where pandas or numpy would silently produce an IEEE infinity
      or NaN (a division of a column by zero), which reals cannot hold. */
  datatype Error =
    | KeyError(key: string)
    | IndexError
    | ZeroDivisionError
    | TypeError
    | NonFinite

  datatype Result<+T> = Success(value: T) | Failure(error: Error) {
    predicate IsFailure() { Failure? }

    function PropagateFailure<U>(): Result<U>
      requires Failure?
    {
      Failure(error)
    }

    function Extract(): T
      requires Success?
    {
      value
    }
  }

  datatype Option<+T> = None | Some(value: T)
}
