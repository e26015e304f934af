/** Results and the Python exception kinds raised by the modelled code. */
module Wrappers {

  datatype Option<+T> = None | Some(value: T)

  /** The exception a Python call raises; the payload names the offending
      key or a short tag for the failed check. */
  datatype Error =
    | ValueError(reason: string)
    | KeyError(key: string)
    | IndexError(reason: string)
    | RuntimeError(reason: string)
    | NotImplementedError(reason: string)
    | AttributeError(name: string)

  datatype Result<+T> = Ok(value: T) | Err(error: Error)

  /** The outcome of a call that returns nothing but may raise. */
  datatype Outcome = Pass | Fail(error: Error)
}
