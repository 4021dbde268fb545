/** Optional values and fallible results used throughout the model. */
module Wrappers {

  /** A value that may be absent: a JSON field that is `undefined`. */
  datatype Option<+T> = None | Some(value: T) {

    /** The wrapped value, or `default` when absent. */
    function GetOr(default: T): T {
      match this
      case Some(v) => v
      case None => default
    }
  }

  /** The outcome of a backend function: a payload, or the `error` message of a 500 reply. */
  datatype Result<+T> = Ok(value: T) | Err(message: string)
}
