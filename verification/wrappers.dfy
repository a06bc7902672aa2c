/** Option and Result, used throughout the ledger model. */
module Wrappers {

  /** A value that may be absent: a document field that was never written. */
  datatype Option<+T> = None | Some(value: T) {

    /** The wrapped value, or `default` when absent. */
    function GetOr(default: T): T {
      match this
      case Some(v) => v
      case None => default
    }
  }

  /** Either a value or a typed error. */
  datatype Result<+R, +E> = Success(value: R) | Failure(error: E)
}
