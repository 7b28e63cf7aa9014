/** Option and Result, the two failure-carrying wrappers the model uses for
    "may be absent" (a JavaScript `undefined`/`NaN`) and "may fail" (a request). */
module Wrappers {

  datatype Option<+T> = None | Some(value: T) {
    function GetOr(default: T): T {
      match this
      case Some(v) => v
      case None => default
    }
  }

  datatype Result<+T, +E> = Success(value: T) | Failure(error: E)
}
