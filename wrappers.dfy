/** Option and Result, the shapes the models use for a missing value and for an error path. */
module Wrappers {

  datatype Option<+T> = None | Some(value: T) {
    function GetOr(default: T): T {
      match this
      case Some(v) => v
      case None => default
    }
  }

  datatype Result<+R, +E> = Ok(value: R) | Err(error: E)

  /** An HTTP error as FastAPI's HTTPException carries it: a status code and a detail text. */
  datatype HttpError = HttpError(status: int, detail: string)
}
