/**
 * The error the Express controllers throw: an HTTP status code and a
 * message. The error middleware answers with `statusCode`.
 */
module Http {
  datatype ApiError = ApiError(statusCode: nat, message: string)

  const BadRequest := 400
  const NotFound := 404
  const TooManyRequests := 429
  const InternalError := 500
}
