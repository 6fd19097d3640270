/** Option and Result, used for JavaScript's `undefined`/`null` and for error replies. */
module Wrappers {

  datatype Option<+T> = None | Some(value: T) {
    /** JavaScript's `a || b` on a possibly missing value. */
    function GetOr(default: T): T {
      match this
      case Some(v) => v
      case None => default
    }
  }

  datatype Result<+R, +E> = Success(value: R) | Failure(error: E)
}
