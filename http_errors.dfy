/**
 * The exceptions the two actions throw. Each is caught by the framework and
 * turned into an HTTP response with the status that `Status` gives.
 */
module HttpErrors {

  datatype Failure =
      /** AccessDeniedException, also what denyAccessUnlessGranted throws. */
    | AccessDenied(message: string)
      /** BadRequestHttpException. */
    | BadRequest(message: string)
      /** UnsupportedMediaTypeHttpException. */
    | UnsupportedMediaType(message: string)
      /** ServiceUnavailableHttpException, with its Retry-After value. */
    | ServiceUnavailable(retryAfter: int, message: string)
      /** The core bundle's ApiError, which carries its own status. */
    | ApiError(status: int, message: string)
  {
    function Status(): int
    {
      match this
      case AccessDenied(_) => 403
      case BadRequest(_) => 400
      case UnsupportedMediaType(_) => 415
      case ServiceUnavailable(_, _) => 503
      case ApiError(status, _) => status
    }
  }

  const HTTP_BAD_REQUEST := 400
  const HTTP_BAD_GATEWAY := 502

  /** The message of the exception that denyAccessUnlessGranted throws by default. */
  const ACCESS_DENIED_MESSAGE := "Access Denied."

  /** Retry-After value both actions give when the signing backend is unavailable. */
  const UNAVAILABLE_RETRY_AFTER := 100
}
