/** Option and Result: an absent value and a value-or-error, used for the
    source's `undefined` fields and its thrown errors. */
module Wrappers {

  datatype Option<+T> = None | Some(value: T) {
    /** `opt || fallback` for an optional value. */
    function GetOr(default: T): T {
      match this
      case Some(v) => v
      case None => default
    }
  }

  datatype Result<+R, +E> = Success(value: R) | Failure(error: E)
}
