/** The failure-carrying wrappers of the Rust source: `Option<T>` and `Result<T, E>`. */
module Outcomes {

  datatype Option<+T> = None | Some(value: T)

  datatype Result<+T, +E> = Ok(value: T) | Err(error: E) {
    /** The success value, or `default` on an error (Rust's `unwrap_or`). */
    function UnwrapOr(default: T): T {
      match this
      case Ok(v) => v
      case Err(_) => default
    }
  }
}
