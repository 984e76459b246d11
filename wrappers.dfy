/** Option and Result, used for Python's `None` and for exceptions a call may raise. */
module Wrappers {

  datatype Option<+T> = None | Some(value: T) {
    function GetOr(default: T): T {
      match this
      case Some(v) => v
      case None => default
    }
  }

  /** `Err` carries the kind of the Python exception the source would raise. */
  datatype Result<+T> = Ok(value: T) | Err(error: string)
}
