/** The responses the handlers send: a status and a JSON body, a redirect,
    or no response at all (a handler whose promise rejects outside its
    `try` leaves the request unanswered). */
module Http {
  import opened Models

  /** One entry of a request-validation error list. */
  datatype ValidationError = ValidationError(path: string, msg: string)

  /** The claims of a signed session token. */
  datatype SessionToken = SessionToken(id: UserId, expiresIn: string)

  /** The parameters the provider's authorization URL is built from. */
  datatype AuthUrlRequest = AuthUrlRequest(accessType: string, scope: seq<string>, prompt: string)

  datatype Body =
    | NoContent
    | MessageJson(message: string)
    | AuthErrorJson(message: string, error: string)
    | ErrorsJson(errors: seq<ValidationError>)
    | EventJson(doc: EventDoc)
    | EventsJson(events: map<EventId, Event>)
    | TokenJson(token: SessionToken)
    | RedirectTo(url: AuthUrlRequest)

  datatype Response = Response(status: nat, body: Body) | NoResponse
}
