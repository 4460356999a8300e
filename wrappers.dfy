/** Option and Result, and the exceptions the modelled Python code raises. */
module Wrappers {

  datatype Option<+T> = None | Some(value: T)

  /** The Python exception classes that the modelled code can raise, each with
      the text or key it carries. */
  datatype Error =
    | ValueError(message: string)
    | KeyError(key: string)
    | NameError(name: string)
    | UnboundLocalError(name: string)
    | IndexError(message: string)
    | NotImplementedError(message: string)
    | HttpError(status: int)
    | AuthorisationException(message: string)

  /** A value, or the exception that was raised instead. */
  datatype Result<+T> = Ok(value: T) | Err(error: Error) {
    predicate IsFailure() { Err? }

    function PropagateFailure<U>(): Result<U>
      requires Err?
    {
      Err(error)
    }

    function Extract(): T
      requires Ok?
    {
      value
    }
  }
}
