/** Optional values and the outcome of an operation that can throw. */
module Wrappers {

  /** A value that may be missing: an absent key, `undefined` or `null`. */
  datatype Option<+T> = None | Some(value: T) {
    function GetOr(default: T): T {
      match this
      case Some(v) => v
      case None => default
    }
  }

  /** A promise that resolves with a value or rejects with an error message. */
  datatype Result<+T> = Ok(value: T) | Err(msg: string)
}
