/** Option and Result, the two failure-carrying values the handlers use in place of
    Python exceptions and HTTP error replies. */
module Wrappers {

  datatype Option<+T> = None | Some(value: T) {
    function GetOr(default: T): T {
      match this
      case Some(v) => v
      case None => default
    }
  }

  datatype Result<+R> = Ok(value: R) | Err(error: string) {
    predicate IsFailure() { Err? }
  }
}
