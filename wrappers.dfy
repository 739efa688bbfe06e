/** Option and Result, and the Python exceptions the core raises or catches. */
module Wrappers {

  datatype Option<T> = None | Some(value: T)

  /** The Python exception classes that the modelled code raises. */
  datatype PyError =
    | TypeError(message: string)
    | NameError(name: string)
    | IndexError
    | KeyError(key: string)
    | AttributeError(attribute: string)
    | ValueError(message: string)
    | DoesNotExist
    | FieldDoesNotExist(field: string)
    | IntegrityError

  /** The outcome of a Python call that either returns a value or raises. */
  datatype Result<T> = Ok(value: T) | Err(error: PyError)
}
