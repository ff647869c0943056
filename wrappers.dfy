/** Option and Result, as used throughout the model for Python's None and raised errors. */
module Wrappers {

  datatype Option<+T> = None | Some(value: T) {
    /** The value, or `default` when there is none (Python's `x if x is not None else d`). */
    function GetOr(default: T): T {
      match this
      case Some(v) => v
      case None => default
    }
  }

  /** Either a value or an error message (a raised exception's text). */
  datatype Result<+T> = Ok(value: T) | Err(message: string)

  /** Success, or failure with an error message (a method that returns nothing or raises). */
  datatype Outcome = Pass | Fail(message: string)
}
