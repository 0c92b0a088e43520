/** Failure-carrying values shared by every module of the model: `Option` for Rust's
    `Option<T>` and `Result` for the `anyhow::Result<T>` the handlers return. */
module Wrappers {

  datatype Option<+T> = None | Some(value: T) {
    /** `unwrap_or`: the value when present, the default otherwise. */
    function GetOr(default: T): T {
      match this
      case Some(v) => v
      case None => default
    }
  }

  datatype Result<+T, +E> = Ok(value: T) | Err(error: E)
}
