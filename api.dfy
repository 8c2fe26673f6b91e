/**
 * The outcome of a call into the HTTP client (`auth.register`, `auth.logout`).
 * The client itself and the server behind it are not part of this model: a
 * handler receives the outcome of its remote call as a parameter.
 */
module Api {
  import opened Wrappers

  /** The `response` of a rejected call: the HTTP status and the `message` field of the body, if any. */
  datatype ErrorResponse = ErrorResponse(status: int, message: Option<string>)

  /**
   * A remote call either resolves with the response payload or rejects. A
   * rejection carries a response when the server answered; it carries none
   * when the request never got an answer (network error, thrown exception).
   */
  datatype Outcome<+T> = Succeeded(data: T) | Failed(response: Option<ErrorResponse>)
}
