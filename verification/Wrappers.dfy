/** The two result types that every component of the model shares. */
module Wrappers {

  /** A value that may be absent. */
  datatype Option<+T> = None | Some(value: T) {
    function GetOr(default: T): T {
      match this
      case Some(v) => v
      case None => default
    }
  }

  /** A value, or the reason for which there is none. */
  datatype Result<+T, +E> = Ok(value: T) | Err(error: E)
}
