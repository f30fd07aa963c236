/** Optional values and results with an error, as Rust's `Option` and `Result`. */
module Wrappers {
  datatype Option<+T> = None | Some(value: T)
  {
    /** `unwrap_or`: the held value, or the given default. */
    function GetOr(default: T): T
    {
      match this
      case Some(v) => v
      case None => default
    }
  }

  datatype Result<+R, +E> = Ok(value: R) | Err(error: E)
}
