/** Option and Result: the absent value and the raised exception of the modelled code. */
module Wrappers {

  datatype Option<+T> = None | Some(value: T) {
    /** The contained value, or `default` when absent (Python's `dict.get(key, default)`). */
    function GetOr(default: T): T {
      match this
      case Some(v) => v
      case None => default
    }
  }

  /** The outcome of a call that may raise: `Err` carries the exception's text, `str(e)`. */
  datatype Result<+T> = Ok(value: T) | Err(error: string)
}
