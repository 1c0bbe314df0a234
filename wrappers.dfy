/** Option and Result, the two shapes every fallible step of the modelled code returns. */
module Wrappers {

  datatype Option<+T> = None | Some(value: T) {
    /** The contained value, or `default` when there is none (Rust's `unwrap_or`). */
    function UnwrapOr(default: T): T {
      match this
      case Some(v) => v
      case None => default
    }
  }

  /** Rust's `Result<T, String>`: `Ok` carries the value, `Err` the error message. */
  datatype Result<+T> = Ok(value: T) | Err(error: string) {
    /** Rust's `Result::ok()`: forgets the error. */
    function ToOption(): Option<T> {
      match this
      case Ok(v) => Some(v)
      case Err(_) => None
    }
  }
}
