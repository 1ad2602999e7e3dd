/** Optional values and results with an error, as used by the argument parser and the validators. */
module Wrappers {

  /** An optional script argument: None when the caller left it out. */
  datatype Option<+T> = None | Some(value: T) {

    /** The value given, or `default` when the argument was left out */
    function GetOr(default: T): T {
      match this
      case Some(v) => v
      case None => default
    }
  }

  /** The outcome of building a filter: the filter, or the error that stopped it. */
  datatype Result<+R, +E> = Success(value: R) | Failure(error: E)
}
