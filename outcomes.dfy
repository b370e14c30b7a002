/** Optional values and results with an error, shared by every module of the model. */
module Outcomes {

  /** A value that may be absent (Python `None`, JavaScript `null`/`undefined`). */
  datatype Option<+T> = None | Some(value: T) {
    function GetOr(default: T): T {
      match this
      case Some(v) => v
      case None => default
    }
  }

  /** The outcome of an HTTP handler: a value, or an error response. */
  datatype Result<+T, +E> = Ok(value: T) | Err(error: E)
}
