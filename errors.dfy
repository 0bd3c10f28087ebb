/** The exceptions the modelled C# code can raise, and the wrappers that carry them. */
module Errors {

  /** The .NET exceptions the modelled code can throw. */
  datatype Error =
    | NullReference        // NullReferenceException: a field that was never assigned
    | IndexOutOfRange      // IndexOutOfRangeException: an array index outside the array
    | ArgumentOutOfRange   // ArgumentOutOfRangeException: a List index, or an enum value no case handles
    | Overflow             // OverflowException: an array allocated with a negative size

  datatype Option<+T> = None | Some(value: T)

  /** The value a call returns, or the exception it throws. */
  datatype Result<+T> = Ok(value: T) | Err(error: Error) {
    predicate IsFailure() { Err? }

    function PropagateFailure<U>(): Result<U>
      requires Err?
    {
      Err(error)
    }

    function Extract(): T
      requires Ok?
    {
      value
    }
  }

  /** The outcome of a call that returns nothing: it completes or it throws. */
  datatype Outcome = Pass | Fail(error: Error)
}
