/** Optional values and error-or-value results shared by every module. */
module Wrappers {

  /** A value that may be absent: Python's `None` versus a value. */
  datatype Option<+T> = None | Some(value: T) {
    function GetOr(default: T): T {
      match this
      case Some(v) => v
      case None => default
    }
  }

  /** The outcome of a step that can raise: `Ok(v)` or `Err(e)`. */
  datatype Result<+T, +E> = Ok(value: T) | Err(error: E)

  /** FastAPI's `HTTPException`: the status code sent back and its `detail` text. */
  datatype HttpError = HttpError(status: int, detail: string)
}
