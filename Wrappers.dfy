/** Option and Result values standing for C#'s nullable references and thrown exceptions. */
module Wrappers {

  /** `None` is C#'s `null` (or an absent JSON property, depending on the use). */
  datatype Option<+T> = None | Some(value: T) {
    /** C#'s `x ?? d`. */
    function GetOr(default: T): T {
      match this
      case Some(v) => v
      case None => default
    }
  }

  /** The value a member returns, or the exception it throws. */
  datatype Result<+R, +E> = Ok(value: R) | Err(error: E)
}
