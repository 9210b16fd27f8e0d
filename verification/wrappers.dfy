/** Option and Result, used where the source returns `null`/`undefined` or throws. */
module Wrappers {

  datatype Option<+T> = None | Some(value: T) {
    /** The value, or `default` for None (JavaScript's `x ?? default`). */
    function GetOr(default: T): T {
      match this
      case Some(v) => v
      case None => default
    }
  }

  datatype Result<+R, +E> = Success(value: R) | Failure(error: E)
}
