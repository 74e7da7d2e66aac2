/** Option and Result, the shapes every operation below returns. */
module Wrappers {

  datatype Option<+T> = None | Some(value: T) {
    /** The wrapped value, or `default` when absent. */
    function GetOr(default: T): T {
      match this
      case Some(v) => v
      case None => default
    }
  }

  /** An operation either succeeds with a value or fails with one fixed error. */
  datatype Result<+T, +E> = Ok(value: T) | Err(error: E)
}
