/** Optional values: JavaScript's `null` / `undefined` for a field or a reference. */
module Wrappers {

  datatype Option<+T> = None | Some(value: T) {

    /** The value, or `default` when absent (the `x || default` idiom on a missing field). */
    function GetOr(default: T): T {
      match this
      case Some(v) => v
      case None => default
    }
  }

  /** The success value or the error of a checked operation. */
  datatype Result<+T, +E> = Ok(value: T) | Err(error: E)
}
