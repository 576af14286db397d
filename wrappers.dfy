/** Option and Result, for JavaScript's `null` / `undefined` and for rejected promises. */
module Wrappers {

  /** A value that may be absent (`null` or `undefined` in the source). */
  datatype Option<+T> = None | Some(value: T) {

    /** The value, or `default` when absent (the `x || default` idiom for objects). */
    function GetOr(default: T): T {
      match this
      case Some(v) => v
      case None => default
    }
  }

  /** The outcome of an operation that may throw (or whose promise may reject). */
  datatype Result<+T, +E> = Ok(value: T) | Err(error: E)
}
