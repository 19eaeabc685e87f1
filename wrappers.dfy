/** Optional values and results, shared by every module of the model. */
module Wrappers {

  /** A value that may be missing: Go's `v, ok` pairs and Rust's `Option`. */
  datatype Option<T> = None | Some(value: T) {

    /** The value, or `default` when missing (Rust's `unwrap_or`). */
    function GetOr(default: T): T {
      match this
      case Some(v) => v
      case None => default
    }
  }

  /** The outcome of an operation that may fail with an error of type E. */
  datatype Result<T, E> = Ok(value: T) | Err(error: E)
}
