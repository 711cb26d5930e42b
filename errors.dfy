/** Python exceptions raised by the modelled functions, and the result type
    that carries either a value or the exception a call raises. */
module PyErrors {

  /** The exception kinds the modelled code can raise. `ValueError` carries
      the reason the source writes into its message. */
  datatype Error =
    | ValueError(reason: string)
    | IndexError
    | KeyError
    | TypeError
    | UnboundLocalError

  datatype Result<+T> = Ok(value: T) | Err(error: Error)
}
