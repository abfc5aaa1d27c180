/** Failure-carrying values: the model's stand-in for Python's `None` and exceptions. */
module Wrappers {

  /** An optional value; `None` models an absent dictionary key or an unset variable. */
  datatype Option<+T> = None | Some(value: T) {
    /** Python's `d.get(key, default)`. */
    function GetOr(default: T): T {
      match this
      case Some(v) => v
      case None => default
    }
  }

  /** What an external call gives back: a value, or the message of the exception it raised. */
  datatype Result<+T> = Ok(value: T) | Err(error: string)

  /** The result of a call that returns nothing on success. */
  datatype Outcome = Pass | Fail(error: string)
}
