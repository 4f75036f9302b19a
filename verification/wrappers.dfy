/** Failure-compatible wrappers: an optional value (JavaScript's null/undefined
    becomes None) and a value-or-error result (a thrown exception becomes Err). */
module Wrappers {

  datatype Option<+T> = None | Some(value: T) {

    function GetOr(default: T): T {
      match this
      case Some(v) => v
      case None => default
    }
  }

  datatype Result<+T, +E> = Ok(value: T) | Err(error: E)
}
