/** Option and Result, used wherever the backend returns None or raises. */
module Wrappers {

  datatype Option<+T> = None | Some(value: T) {
    /** The value, or `default` when there is none. */
    function GetOr(default: T): T {
      match this
      case Some(v) => v
      case None => default
    }
  }

  /** `Err` carries the error the source raises or the HTTP error it answers with. */
  datatype Result<+T, +E> = Ok(value: T) | Err(error: E)

  /** An `HTTPException`: the status code and the detail a route answers with. */
  datatype HttpError = HttpError(status: int, detail: string)
}
