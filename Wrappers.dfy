/** Optional values and results with the error kinds the analysis code raises. */
module Wrappers {

  datatype Option<+T> = None | Some(value: T)

  /** The Python exceptions the modelled code can raise. */
  datatype Error =
    | ValueError
    | IndexError
    | KeyError(key: string)
    | TypeError
    | ZeroDivision

  datatype Result<+T> = Ok(value: T) | Err(error: Error)
}
