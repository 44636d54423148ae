/** Option and result types shared by every module of the model.
    A Python exception that escapes an operation becomes `Raised(e)`. */
module Wrappers {

  datatype Option<+T> = None | Some(value: T)

  /** The Python exceptions the modelled code can raise. */
  datatype Exception =
    | ValueError(message: string)
    | TypeError(message: string)
    | IndexError(message: string)
    | RuntimeError(message: string)
    | NameError(message: string)

  datatype Result<+T> = Ok(value: T) | Raised(error: Exception)
}
