/** The Python exceptions the modelled code raises or lets propagate. */
module Exceptions {

  datatype PyError =
    | AssertionError
    | NotImplementedError
    | ValueError
    | LinAlgError(message: string)

  /** A computed value, or the exception that ended the computation. */
  datatype Result<+T> = Ok(value: T) | Raised(error: PyError)
}
