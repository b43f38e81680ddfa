/** Option and Result types shared by every endpoint of the storefront backend. */
module Wrappers {

  datatype Option<+T> = None | Some(value: T)

  /** How a request fails: rejected by the request schema before the handler
      runs (FastAPI answers 422), or an HTTP error raised with a status and a
      human-readable detail. */
  datatype Error =
    | SchemaRejected
    | HttpError(status: int, detail: string)

  datatype Result<+T> = Ok(value: T) | Err(error: Error)

  /** The error FastAPI returns for an exception the handler does not catch. */
  const InternalServerError: Error := HttpError(500, "Internal Server Error")
}
