/** Option and Result values for the nullable returns and thrown errors of the node. */
module Wrappers {

  /** A value that may be absent: JavaScript's null / undefined. */
  datatype Option<+T> = None | Some(value: T) {
    function GetOr(default: T): T {
      match this
      case Some(v) => v
      case None => default
    }
  }

  /** The outcome of an operation that may throw: either its value or the error it raises. */
  datatype Result<+R, +E> = Ok(value: R) | Err(error: E)
}
