/** Rust's Option and Result, the two failure-carrying types every module uses. */
module Wrappers {

  datatype Option<+T> = None | Some(value: T) {
    function UnwrapOr(default: T): T {
      match this
      case Some(v) => v
      case None => default
    }
  }

  datatype Result<+T, +E> = Ok(value: T) | Err(error: E)

  /** The unit value of Rust's `()`. */
  datatype Unit = Unit
}
