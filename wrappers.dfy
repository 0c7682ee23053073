/** Option and Result, the two failure-carrying shapes the model uses for Rust's
    `Option<T>` and `anyhow::Result<T>`. */
module Wrappers {
  datatype Option<+T> = None | Some(value: T)

  datatype Result<+T, +E> = Ok(value: T) | Err(error: E)
}
