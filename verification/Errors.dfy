/** The package's error classes, as values, and the result of a call that may raise one. */
module Errors {

  datatype Error =
    | ConnectionError
    | TimeoutError
    | ProtocolError
    | PasswordError
    | CommandRejectedError
    | UnsupportedError
    | ValueError

  datatype Option<+T> = None | Some(value: T)

  datatype Result<+T> = Ok(value: T) | Err(error: Error) {
    predicate IsFailure() {
      Err?
    }

    function PropagateFailure<U>(): Result<U>
      requires Err?
    {
      Err(error)
    }

    function Extract(): T
      requires Ok?
    {
      value
    }
  }
}
