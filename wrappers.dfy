/** Option and Result: the model's stand-ins for Python's `None` and for raised exceptions. */
module Wrappers {

  /** A value that may be missing, as with a Python `Optional[T]` that is `None`. */
  datatype Option<+T> = None | Some(value: T) {
    /** The value, or `default` when there is none. */
    function GetOr(default: T): T {
      match this
      case Some(v) => v
      case None => default
    }
  }

  /** The outcome of a call that may raise: `Ok` carries the return value, `Err` the exception. */
  datatype Result<+T, +E> = Ok(value: T) | Err(error: E)

  /** The exception kinds the modelled scripts raise, each with its message. */
  datatype PyError =
    | ValueError(msg: string)
    | TypeError(msg: string)
    | KeyError(key: string)
    | IndexError(msg: string)
    | PermissionError(msg: string)
    | ConnectionError(msg: string)
    | StopIteration
    | Exception(msg: string)
    | InvalidChaiError(msg: string)
}
