/** Optional values and failure-carrying results shared by the modules of the model. */
module Wrappers {

  /** A value that may be absent (a missing key, a null field, an empty slot in storage). */
  datatype Option<+T> = None | Some(value: T) {

    /** The value, or `default` when there is none. */
    function GetOr(default: T): (r: T) {
      match this
      case Some(v) => v
      case None => default
    }
  }

  /** Either a value or the reason there is none. */
  datatype Result<+R, +E> = Ok(value: R) | Err(error: E)
}
