/** The two failure-compatible wrappers of the model: `Option` for Python's `None`
    (a missing dictionary key, an absent HTML element) and `Result` for an operation
    that either returns a value or raises. */
module Wrappers {

  datatype Option<+T> = None | Some(value: T) {
    /** `x or default` for an optional value */
    function GetOr(default: T): T {
      match this
      case Some(v) => v
      case None => default
    }
  }

  datatype Result<+R, +E> = Success(value: R) | Failure(error: E)
}
