/** Optional values and error-or-value results shared by every module of the model. */
module Wrappers {

  /** A value that may be absent: a missing JSON key, a `null`, a `None`. */
  datatype Option<+T> = None | Some(value: T) {
    /** The value, or `default` when there is none. */
    function GetOr(default: T): T {
      match this
      case Some(v) => v
      case None => default
    }
  }

  /** Either a value or an error message. */
  datatype Result<+T> = Ok(value: T) | Err(message: string)
}
