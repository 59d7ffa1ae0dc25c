/** Optional and fallible values, used where the JavaScript source has
    `undefined`/`null` fields or returns `{ success: false, error }`. */
module Wrappers {

  datatype Option<+T> = None | Some(value: T) {
    function GetOr(default: T): T {
      match this
      case Some(v) => v
      case None => default
    }
  }

  datatype Result<+R, +E> = Success(value: R) | Failure(error: E)
}
