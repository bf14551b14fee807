/** Failure-carrying values shared by every module of the model: the Python
    exceptions that the xssmap core raises become `Err` values. */
module Common {

  datatype Option<+T> = None | Some(value: T)

  /** The exceptions the core can raise, by the Python class that raises them. */
  datatype Error =
    | IndexError               // `s.split(c, 1)[1]` with no `c`, `s[-1]` on an empty string
    | KeyError(key: string)    // a dictionary key that is absent
    | AttributeError           // a string method called on None
    | TypeError                // None used where a string or a dictionary is needed
    | RuntimeError(message: string)

  datatype Result<+T> = Ok(value: T) | Err(error: Error) {
    predicate IsFailure() { Err? }

    function PropagateFailure<U>(): Result<U>
      requires Err?
    {
      Err(error)
    }

    function Extract(): T
      requires Ok?
    {
      value
    }
  }

  /** The result of an operation that returns nothing but may raise. */
  datatype Outcome = Pass | Fail(error: Error)
}
