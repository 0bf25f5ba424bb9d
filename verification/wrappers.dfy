/** Failure-carrying datatypes used throughout the model: `Option` for
    values that may be absent (Rust's `Option`) and `Result` for operations
    that may fail (Rust's `Result`, `anyhow::Result`). */
module Wrappers {

  datatype Option<+T> = None | Some(value: T)

  datatype Result<+T, +E> = Ok(value: T) | Err(error: E)
}
