/** Optional values and results with an error, shared by every module of the model. */
module Common {

  /** A value that may be absent: a JSON field that is not set, a NULL column. */
  datatype Option<+T> = None | Some(value: T) {
    function GetOr(default: T): T {
      match this
      case Some(v) => v
      case None => default
    }
  }

  /** The outcome of an operation that either succeeds with a value or reports an error. */
  datatype Result<+T, +E> = Ok(value: T) | Err(error: E)
}
