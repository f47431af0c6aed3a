/** The `pi-verify-user` edge function: checks a user's access token against `/v2/me`. */
module VerifyUser {
  import opened Wrappers
  import opened Text
  import opened JsonValues
  import opened Http

  const MissingTokenText: string := "Access token is required"
  const InvalidTokenText: string := "Invalid or expired access token"

  function TokenBinding(body: JsonText): Binding {
    match body
    case Malformed(m) => Thrown(m)
    case WellFormed(v) => Destructure(v, "accessToken")
  }

  predicate BodyUnreadable(req: Request) {
    req.httpMethod != "OPTIONS" && TokenBinding(req.body).Thrown?
  }

  predicate TokenMissing(req: Request) {
    req.httpMethod != "OPTIONS" && TokenBinding(req.body).Bound? && !Truthy(TokenBinding(req.body).field)
  }

  predicate TokenPresent(req: Request) {
    req.httpMethod != "OPTIONS" && TokenBinding(req.body).Bound? && Truthy(TokenBinding(req.body).field)
  }

  /** The server key is demanded even though the call below does not use it. */
  predicate ReachesUpstream(req: Request, serverKey: Option<string>) {
    TokenPresent(req) && KeyConfigured(serverKey)
  }

  /** A default-method (GET) fetch of `/v2/me`, authorised by the user's own token. */
  function MeCall(accessToken: Json): UpstreamCall {
    UpstreamCall(Get, MeApi, "Bearer " + ToJsString(accessToken), None)
  }

  /** The steps after the fetch: 401 is reported as such, any other failure throws. */
  function RelayMeReply(reply: UpstreamReply): Completion {
    match reply
    case FetchFailed(m) => Threw(m)
    case Replied(status, _, json) =>
      if !IsOk(status) then
        if status == 401 then Returned(JsonResponse(401, ErrorBody(InvalidTokenText)))
        else Threw("Pi API responded with status: " + IntToString(status))
      else match json
        case Malformed(m) => Threw(m)
        case WellFormed(v) => Returned(JsonResponse(200, Echo(v)))
  }

  function Serve(req: Request, serverKey: Option<string>, reply: UpstreamReply): (r: Outcome)
    ensures req.httpMethod == "OPTIONS" ==> r == Preflight()
    ensures BodyUnreadable(req) ==> r == Outcome(InternalErrorResponse(), None)
    ensures TokenMissing(req) ==> r == Rejected(400, MissingTokenText)
    ensures TokenPresent(req) && !KeyConfigured(serverKey) ==> r == Rejected(500, ServerConfigurationError)
    ensures r.upstream.Some? <==> ReachesUpstream(req, serverKey)
    ensures ReachesUpstream(req, serverKey) ==>
              && r.upstream == Some(MeCall(TokenBinding(req.body).field.value))
              && (reply.Replied? && reply.status == 401 ==> r.response == Response(401, CorsJson, ErrorBody(InvalidTokenText)))
              && (Echoed(reply) ==> r.response == Response(200, CorsJson, Echo(reply.json.value)))
              && (!(reply.Replied? && reply.status == 401) && !Echoed(reply) ==> r.response == InternalErrorResponse())
  {
    if req.httpMethod == "OPTIONS" then Preflight()
    else match TokenBinding(req.body)
      case Thrown(_) => Outcome(InternalErrorResponse(), None)
      case Bound(accessToken) =>
        if !Truthy(accessToken) then Rejected(400, MissingTokenText)
        else if !KeyConfigured(serverKey) then Rejected(500, ServerConfigurationError)
        else Outcome(CatchAsInternalError(RelayMeReply(reply)), Some(MeCall(accessToken.value)))
  }

  /** The only statuses a client can see are 200, 400, 401 and 500; the upstream's own status never leaks. */
  lemma StatusesSeen(req: Request, serverKey: Option<string>, reply: UpstreamReply)
    requires req.httpMethod != "OPTIONS"
    ensures Serve(req, serverKey, reply).response.status in {200, 400, 401, 500}
  {
  }

  /** The server key never appears in the call to `/v2/me`. */
  lemma KeyIsNotSent(req: Request, a: string, b: string, reply: UpstreamReply)
    requires a != "" && b != ""
    ensures Serve(req, Some(a), reply) == Serve(req, Some(b), reply)
  {
  }

  /** A string token is sent verbatim after `Bearer `. */
  lemma BearerOfStringToken(token: string)
    ensures MeCall(JString(token)).authorization == "Bearer " + token
  {
  }
}
