/** Option and Result: the Rust `Option<T>` and `anyhow::Result<T>` shapes used by the game. */
module Wrappers {

  datatype Option<+T> = None | Some(value: T)

  datatype Result<+T, +E> = Ok(value: T) | Err(error: E)
}
