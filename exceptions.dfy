/**
 * The exceptions that cross the boundary between the chat service and its HTTP routers:
 * FastAPI's `HTTPException` (a status code and a detail text) and every other exception
 * the service can raise, told apart by cause.
 */
module Exceptions {

  const HTTP_200_OK: int := 200
  const HTTP_400_BAD_REQUEST: int := 400
  const HTTP_500_INTERNAL_SERVER_ERROR: int := 500

  /** `fastapi.HTTPException(status_code, detail)`. */
  datatype HttpError = HttpError(statusCode: int, detail: string)

  /** Why the chat service failed, for exceptions that are not an `HTTPException`. */
  datatype ServiceErrorKind =
    | EnvVarsMissing(message: string)  // the ValueError of ChatService._validate_env_vars
    | SearchFailed(reason: string)
    | CompletionFailed(reason: string)
    | IndexError                // messages[-1] on an empty list
    | ValidationError(model: string)  // a pydantic record refused the values it was given

  datatype Exception =
    | HttpException(error: HttpError)
    | ServiceException(kind: ServiceErrorKind)
}
