/** Optional values and results with an error, standing in for Kotlin's nullable
    types and for the exceptions the source throws. */
module Fallible {

  datatype Option<+T> = None | Some(value: T) {
    /** Kotlin's `?:` operator. */
    function GetOr(default: T): T {
      match this
      case Some(v) => v
      case None => default
    }
  }

  datatype Result<+T, +E> = Ok(value: T) | Err(error: E)
}
