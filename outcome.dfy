/** Failure-carrying values shared by every module of the model. */
module Outcome {

  datatype Option<+T> = None | Some(value: T)

  /** The exceptions the modelled Python code raises, by kind. */
  datatype Error =
    | SensorError(msg: string)   // ISMError(msg)
    | KeyError(key: string)      // a dict or str.format lookup of a missing key
    | MatcherMissing             // exists() before update_regex ever compiled the matcher
    | IndexError                 // a list index out of range
    | AttributeError             // a method called on None (a regex search that found nothing)
    | ValueError                 // int() of a non-number, a bad format code, an unpacking mismatch
    | ZeroDivision               // a division by zero
    | ExecFailed                 // script_exec after Popen raised (the str "Error" has no decode)
    | UnicodeDecode              // bytes.decode('utf-8') of output that is not UTF-8
    | FormatError                // any other str.format failure

  datatype Result<+T> = Ok(value: T) | Err(error: Error) {
    predicate IsFailure() { Err? }
    function PropagateFailure<U>(): Result<U>
      requires Err?
    {
      Err(error)
    }
    function Extract(): T
      requires Ok?
    {
      value
    }
  }

  /** Outcome of a call that returns nothing on success. */
  datatype Status = Done | Raised(error: Error)
}
