/** Optional values and outcomes of operations that can raise. */
module Wrappers {

  datatype Option<+T> = None | Some(value: T)
  {
    function UnwrapOr(default: T): T
    {
      match this
      case None => default
      case Some(v) => v
    }
  }

  /** The exceptions the modelled code raises, by Python or JavaScript class name. */
  datatype Exception =
    | ValueError(message: string)
    | IndexError
    | KeyError(key: string)
    | TypeError(message: string)
    | NameError(name: string)
    | JsonDecodeError
    | InvalidStateError
    | RecursionError
    | AttributeError(message: string)

  datatype Result<+T> = Ok(value: T) | Err(error: Exception)
}
