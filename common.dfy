/** Values shared by every part of the model: optional values and the outcome
    of a request handler. */
module Common {

  datatype Option<+T> = None | Some(value: T) {
    /** The value, or `default` when there is none (a parameter's default). */
    function GetOr(default: T): T
    {
      match this
      case Some(v) => v
      case None => default
    }
  }

  /** Why a request failed.
      - `Http`: an `HTTPException` the handler raises itself, with its status
        code and `detail` text;
      - `Unprocessable`: the request body or query parameters failed the
        schema's field constraints, so the handler never ran (status 422);
      - `InternalError`: the handler ran into an exception it does not catch,
        such as a database constraint refusing the commit (status 500). */
  datatype Failure = Http(status: int, detail: string) | Unprocessable | InternalError

  /** What a request handler answers: its response value or its failure. */
  datatype Result<+T> = Ok(value: T) | Err(failure: Failure)

  /** The 404 every keyed handler raises for an unknown id. */
  function NotFound(what: string): (f: Failure)
    ensures f.Http? && f.status == 404
    ensures f.detail == what + " not found"
  {
    Http(404, what + " not found")
  }
}
