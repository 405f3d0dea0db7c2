/** The backend's error taxonomy and the translation of each error into the
    HTTP response the exception handler sends (status, title, message, path). */
module Errors {

  /** `ResourceNotFoundException`, `BusinessException`, and every other
      exception that escapes a controller. */
  datatype Error =
    | NotFound(message: string)
    | Business(message: string)
    | Unexpected(message: string)

  /** The JSON body of an error response. The `timestamp` field is a clock
      reading and is not part of the model. */
  datatype StandardError = StandardError(status: int, error: string, message: string, path: string)

  datatype Response = Response(status: int, body: StandardError)

  const NOT_FOUND: int := 404
  const UNPROCESSABLE_ENTITY: int := 422
  const INTERNAL_SERVER_ERROR: int := 500

  const UNEXPECTED_MESSAGE: string := "An unexpected error occurred"

  /** The three exception handlers, keyed by the kind of the error. */
  function Respond(e: Error, requestUri: string): (r: Response)
    ensures r.body.status == r.status
    ensures r.body.path == requestUri
    ensures e.NotFound? ==> r.status == 404 && r.body.error == "Resource not found" && r.body.message == e.message
    ensures e.Business? ==> r.status == 422 && r.body.error == "Business Rule Violation" && r.body.message == e.message
    ensures e.Unexpected? ==> r.status == 500 && r.body.error == "Internal Server Error" && r.body.message == UNEXPECTED_MESSAGE
  {
    match e
    case NotFound(m) => Response(NOT_FOUND, StandardError(NOT_FOUND, "Resource not found", m, requestUri))
    case Business(m) => Response(UNPROCESSABLE_ENTITY, StandardError(UNPROCESSABLE_ENTITY, "Business Rule Violation", m, requestUri))
    case Unexpected(_) => Response(INTERNAL_SERVER_ERROR, StandardError(INTERNAL_SERVER_ERROR, "Internal Server Error", UNEXPECTED_MESSAGE, requestUri))
  }

  /** The kind of an error, as the exception class the handler dispatches on. */
  function Kind(e: Error): int {
    match e
    case NotFound(_) => 0
    case Business(_) => 1
    case Unexpected(_) => 2
  }

  /** The status alone tells which handler ran, so the mapping loses no
      information about the taxonomy. */
  lemma StatusDeterminesKind(e1: Error, e2: Error, u1: string, u2: string)
    ensures Respond(e1, u1).status == Respond(e2, u2).status <==> Kind(e1) == Kind(e2)
  {
  }

  /** The message of an unexpected error is never exposed: two unexpected
      errors for the same request produce identical responses. */
  lemma UnexpectedMessageHidden(m1: string, m2: string, uri: string)
    ensures Respond(Unexpected(m1), uri) == Respond(Unexpected(m2), uri)
  {
  }

  /** For the two domain exceptions the response carries the exception's own
      message, so the message and the status together recover the error. */
  lemma DomainErrorsRecoverable(e: Error, uri: string)
    requires !e.Unexpected?
    ensures var r := Respond(e, uri);
              (if r.status == NOT_FOUND then NotFound(r.body.message) else Business(r.body.message)) == e
  {
  }
}
