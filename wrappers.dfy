/** Option and Result types shared by the model, and the errors the client raises. */
module Wrappers {

  datatype Option<+T> = None | Some(value: T)

  /** Every exception the modelled code raises, one constructor per raise site
      (api.py lines 66-68, 120-127, 138-141, 355 and the Decimal constructor at 387). */
  datatype Error =
    | InvalidUrlComponent(protocol: string, version: string)
    | BadCommandType
    | BadSymbolType
    | BadPayloadType
    | InvalidCombination(command: string, symbol: Option<string>)
    | UnsupportedCommand(command: string)
    | MissingSecret
    | NotConvertible

  datatype Result<+T> = Ok(value: T) | Err(error: Error)
}
