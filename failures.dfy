/** Error values of the decoding steps and the Result/Option wrappers that carry them.
    In the script every one of these failures is an uncaught Python exception that ends
    the process; the model returns them instead. */
module Failures {

  /** Why a decoding step gave up. */
  datatype Failure =
    | NotDecimal(chunk: string)   // `int(code)` rejected a trouble-code chunk
    | UnknownPrefix(key: char)    // the first character of a chunk is not a key of the prefix table
    | NotHex                      // `bytearray.fromhex` rejected the VIN payload

  datatype Result<T> = Ok(value: T) | Err(error: Failure)

  datatype Option<T> = None | Some(value: T)
}
