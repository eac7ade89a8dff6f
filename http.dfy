/** The HTTP errors the handlers raise (FastAPI's `HTTPException`). */
module Http {

  /** An error response: its status code and the detail message sent with it. */
  datatype HttpError = HttpError(status: nat, detail: string)

  const BadRequest: nat := 400
  const NotFound: nat := 404
  const PayloadTooLarge: nat := 413
  const InternalServerError: nat := 500
}
