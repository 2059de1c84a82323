/** Optional values and error-carrying results shared by every module. */
module Wrappers {

  /** A value that may be missing: a pandas NaN, a Python None, an absent key. */
  datatype Option<+T> = None | Some(value: T) {
    function GetOr(default: T): T {
      match this
      case Some(v) => v
      case None => default
    }
  }

  /** The outcome of a validation step: the accepted value or the reason it was refused. */
  datatype Result<+R, +E> = Ok(value: R) | Err(error: E)
}
