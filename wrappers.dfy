/** Option and Result values standing for JavaScript's `undefined`/`null` and thrown errors. */
module Wrappers {

  datatype Option<T> = None | Some(value: T)

  /** The outcome of a call that may throw: a value, or an Error carrying its message. */
  datatype Result<T> = Ok(value: T) | Err(message: string)
}
