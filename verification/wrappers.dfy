/** Failure-carrying results shared by every part of the model. */
module Wrappers {

  /** A value that may be missing: JavaScript's `undefined` / `null`. */
  datatype Option<+T> = None | Some(value: T) {

    /** The carried value, or `default` when missing (the `x || default` idiom). */
    function GetOr(default: T): T {
      match this
      case Some(v) => v
      case None => default
    }
  }

  /**
   * The answer of one call into the hosted data store: either the data the
   * call returned or the error object it reported. The store itself is not
   * modelled; callers receive these answers as parameters.
   */
  datatype DbResult<+T> = Ok(value: T) | Err(message: string)
}
