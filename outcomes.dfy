/** Exceptions raised by the beam library, and the Result type that carries them. */
module Outcomes {

  /** The Python exception classes the engine raises, with their messages. */
  datatype Error =
    | ValueError(message: string)
    | NameError(message: string)
    | ZeroDivisionError

  datatype Option<+T> = None | Some(value: T)

  datatype Result<+T> = Ok(value: T) | Err(error: Error) {
    predicate IsFailure() { Err? }

    function PropagateFailure<U>(): Result<U>
      requires Err?
    {
      Err(error)
    }

    function Extract(): T
      requires Ok?
    {
      value
    }
  }
}
