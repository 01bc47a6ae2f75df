/** Option and Result values used in place of `null`/`undefined` and thrown errors. */
module Wrappers {

  datatype Option<+T> = None | Some(value: T) {
    /** The value, or `default` when absent (the `x ?? default` of the source). */
    function GetOr(default: T): T {
      match this
      case Some(v) => v
      case None => default
    }
  }

  /** The outcome of an operation that the source either completes or aborts with a thrown `Error(message)`. */
  datatype Result<+T, +E> = Ok(value: T) | Err(error: E)
}
