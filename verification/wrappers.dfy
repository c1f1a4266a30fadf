/** Option and Result values used for the console's nullable fields and thrown errors. */
module Wrappers {

  /** A value that may be absent (`null` / `undefined`). */
  datatype Option<+T> = None | Some(value: T)

  /** The outcome of an operation that either returns a value or throws an error. */
  datatype Result<+T, +E> = Ok(value: T) | Err(error: E)
}
