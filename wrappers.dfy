/** Option, Result and Outcome: the model's stand-ins for `null`, for a value
    that may have been replaced by a thrown error, and for an action that either
    completes or throws. */
module Wrappers {

  datatype Option<+T> = None | Some(value: T) {
    function GetOr(default: T): T {
      match this
      case Some(v) => v
      case None => default
    }
  }

  /** An optional string passes JavaScript's truthiness test: present and not
      the empty string. */
  predicate Truthy(s: Option<string>) {
    s.Some? && s.value != ""
  }

  datatype Result<+R, +E> = Success(value: R) | Failure(error: E)

  datatype Outcome<+E> = Pass | Fail(error: E)
}
