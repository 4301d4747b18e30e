/** Option and Result values standing for Go's `(value, error)` returns. */
module Wrappers {

  datatype Option<+T> = None | Some(value: T)

  /** A Go `(T, error)` pair: `Err` carries the text the error prints as. */
  datatype Result<+T> = Ok(value: T) | Err(error: seq<char>)
}
