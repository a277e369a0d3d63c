/** Option and Result: absent values (`null`, `undefined`) and thrown errors. */
module Wrappers {

  /** A value that may be absent, as a JavaScript `T | null | undefined`. */
  datatype Option<+T> = None | Some(value: T) {

    /** The value, or `default` when absent: JavaScript's `x ?? default`. */
    function GetOr(default: T): T {
      match this
      case Some(v) => v
      case None => default
    }
  }

  /** The settled state of a promise: resolved with a value or rejected with an error. */
  datatype Result<+R, +E> = Ok(value: R) | Err(error: E)
}
