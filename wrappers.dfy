/** Option and Result, used for Python's None and for calls that raise. */
module Wrappers {

  /** `None` stands for Python's `None`. */
  datatype Option<+T> = None | Some(value: T) {
    function GetOr(default: T): (r: T)
      ensures Some? ==> r == value
      ensures None? ==> r == default
    {
      match this
      case Some(v) => v
      case None => default
    }
  }

  /** `Failure` stands for an exception that propagates out of the call. */
  datatype Result<+R, +E> = Success(value: R) | Failure(error: E)
}
