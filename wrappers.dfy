/** Optional values and results with an error, shared by every module. */
module Wrappers {

  /** A JavaScript value that may be `undefined`. */
  datatype Option<+T> = None | Some(value: T) {
    function GetOr(default: T): T {
      match this
      case Some(v) => v
      case None => default
    }
  }

  /** The value an async call resolves to, or the error it throws. */
  datatype Result<+T, +E> = Ok(value: T) | Err(error: E)
}
