/** Option and Result datatypes used to model Python's `None` and raised exceptions. */
module Wrappers {

  /** A value that may be absent; `None` plays the role of Python's `None`. */
  datatype Option<+T> = None | Some(value: T) {

    /** The wrapped value, or `default` when absent. */
    function GetOr(default: T): T {
      match this
      case Some(v) => v
      case None => default
    }
  }

  /** The Python exception classes the modelled code raises, each with its message. */
  datatype Error =
    | ValueError(message: string)
    | TypeError(message: string)
    | RuntimeError(message: string)
    | LlmException(message: string)
    | ChickAgentException(message: string)

  /** Either a normal return value or the exception that escaped. */
  datatype Result<+R> = Ok(value: R) | Err(error: Error) {

    predicate IsFailure() {
      Err?
    }

    function PropagateFailure<U>(): Result<U>
      requires Err?
    {
      Err(error)
    }

    function Extract(): R
      requires Ok?
    {
      value
    }
  }
}
