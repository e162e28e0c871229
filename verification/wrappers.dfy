/** Option and Result, used for the source's nullable columns and raised exceptions. */
module Wrappers {

  /** A nullable value: a pandas cell that may be NaN/None. */
  datatype Option<+T> = None | Some(value: T) {

    /** The value, or `default` when absent (pandas `fillna(default)`). */
    function GetOr(default: T): T {
      match this
      case Some(v) => v
      case None => default
    }
  }

  /** The outcome of a call that may raise. */
  datatype Result<+R, +E> = Success(value: R) | Failure(error: E)
}
