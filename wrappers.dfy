/** Option and Result, the failure-carrying values used across the model. */
module Wrappers {

  /** `None` stands for JavaScript's `null` / `undefined`. */
  datatype Option<+T> = None | Some(value: T) {
    function GetOr(default: T): T {
      match this
      case Some(v) => v
      case None => default
    }
  }

  /** A computation that either produced a value or threw an error. */
  datatype Result<+T, +E> = Ok(value: T) | Err(error: E)
}
