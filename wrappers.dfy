/** Optional values and fallible outcomes shared by the whole model. */
module Wrappers {

  /** A value that may be absent: JavaScript's `null` and `undefined` are both `None`. */
  datatype Option<T> = None | Some(value: T) {

    /** The value, or `default` when absent. */
    function GetOr(default: T): T {
      if Some? then value else default
    }
  }

  /** The settled outcome of one asynchronous gateway call: fulfilled or rejected. */
  datatype Result<T> = Ok(value: T) | Err(message: string)
}
