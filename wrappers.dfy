/** Optional values and fallible results, used by every other module. */
module Wrappers {

  /** A value that may be absent (`undefined`, a missing key, a `null` column). */
  datatype Option<+T> = None | Some(value: T) {
    function GetOr(default: T): T {
      match this
      case Some(v) => v
      case None => default
    }
  }

  /** The outcome of an asynchronous call: resolved with a value or rejected with an error. */
  datatype Result<+R, +E> = Ok(value: R) | Err(error: E)
}
