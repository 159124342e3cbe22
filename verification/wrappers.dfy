/** Option and Result values, and the Python exceptions the modelled code can raise. */
module Wrappers {

  datatype Option<+T> = None | Some(value: T)

  /** The exception classes the modelled code raises or lets escape; the payload names the
      missing attribute or key, or describes the operands. */
  datatype PyError =
    | AttributeError(name: string)
    | KeyError(key: string)
    | IndexError
    | TypeError(what: string)
    | ValueError(message: string)
    | ModuleNotFoundError(moduleName: string)

  datatype Result<+T> = Ok(value: T) | Raised(error: PyError)
}
