/** Option and Result, the two shapes the bot uses for "maybe absent" and
    "succeeded or failed with an error". */
module Wrappers {

  /** Rust's Option<T>. */
  datatype Option<+T> = None | Some(value: T)

  /** Rust's Result<T, E>. */
  datatype Result<+T, +E> = Ok(value: T) | Err(error: E)
}
