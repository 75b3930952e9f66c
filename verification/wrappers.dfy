/** Failure-carrying results used throughout the model. A JavaScript `throw`
    becomes an `Err` carrying the kind of error that was thrown. */
module Wrappers {

  /** The kinds of exception the modelled code can raise. */
  datatype Error =
    | TypeError                 // property read on `null` or `undefined`
    | NullishAssertion          // `assertIsNotNullish` failed
    | UnrecognisedOpportunityType

  datatype Option<+T> = None | Some(value: T)

  datatype Result<+T> = Ok(value: T) | Err(error: Error) {

    predicate IsFailure() {
      Err?
    }

    function PropagateFailure<U>(): Result<U>
      requires Err?
    {
      Err(error)
    }

    function Extract(): T
      requires Ok?
    {
      value
    }
  }
}
