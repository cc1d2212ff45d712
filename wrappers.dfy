/** Option and Result, the two failure-carrying shapes the server code uses. */
module Wrappers {

  datatype Option<+T> = None | Some(value: T) {
    /** `unwrap_or`: the carried value, or `default` when there is none. */
    function UnwrapOr(default: T): T {
      match this
      case Some(v) => v
      case None => default
    }
  }

  /** A fallible result; the error payload is dropped by every caller here. */
  datatype Result<+T> = Success(value: T) | Failure
}
