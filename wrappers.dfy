/** Failure-carrying values shared by every module of the model. */
module Wrappers {

  /** A Python value that may be `None`. */
  datatype Option<+T> = None | Some(value: T) {
    function GetOr(default: T): T {
      match this
      case Some(v) => v
      case None => default
    }
  }

  /** The outcome of a call that may raise: the value it returned, or the
      text `str(e)` of the exception it raised. */
  datatype Fallible<+T> = Ok(value: T) | Raised(message: string)
}
