/** Results and optional values used by every module of the model.
    Python exceptions raised by the scripts become `Err` values. */
module Wrappers {

  datatype Option<+T> = None | Some(value: T)

  /** The exception a Python statement raises; the message is informative only. */
  datatype Error =
    | AssertionError(msg: string)
    | KeyError(key: string)
    | ValueError(msg: string)
    | IndexError(msg: string)
    | AttributeError(name: string)
    | FileNotFound(path: seq<string>)
    | IsADirectory(path: seq<string>)
    | DrawsExhausted

  datatype Result<+T> = Ok(value: T) | Err(error: Error) {

    predicate IsFailure() {
      Err?
    }

    function PropagateFailure<U>(): Result<U>
      requires Err?
    {
      Err(error)
    }

    function Extract(): T
      requires Ok?
    {
      value
    }
  }
}
