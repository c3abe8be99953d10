/** Optional values and results shared by every module of the model. */
module Wrappers {

  /** A value that may be absent (Python `None`, JavaScript `undefined`/`null`). */
  datatype Option<+T> = None | Some(value: T) {
    function GetOr(default: T): T {
      match this
      case Some(v) => v
      case None => default
    }
  }

  /** The outcome of an operation that can fail with a description of the failure. */
  datatype Result<+T, +E> = Ok(value: T) | Err(error: E)
}
