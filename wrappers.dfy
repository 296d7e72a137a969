/** Option and Result values used for the source's absent values and raised errors. */
module Wrappers {

  datatype Option<+T> = None | Some(value: T)

  /** `Ok` carries a value; `Err` stands for an exception the source raises. */
  datatype Result<+T, +E> = Ok(value: T) | Err(error: E)

  /** The Python exceptions the modelled code lets escape to its caller. */
  datatype Exception =
    | IndexError
    | KeyError(key: string)
    | ValueError(message: string)
    | TypeError

  function Min(a: int, b: int): int {
    if a <= b then a else b
  }

  function Max(a: int, b: int): int {
    if a >= b then a else b
  }
}
