/** Option and Result, the two failure-carrying shapes the stream output uses. */
module Wrappers {

  datatype Option<+T> = None | Some(value: T)

  /** `Result<T>` of the Rust code: a value, or the error that stopped the call. */
  datatype Result<+T, +E> = Ok(value: T) | Err(error: E)
}
