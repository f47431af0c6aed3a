/**
 * The request/response vocabulary shared by the five payment-gateway edge
 * functions: the incoming request, the single call a handler may make to the
 * Pi Network REST API, that API's reply (an input: it is not modelled), and
 * the response the handler returns. Every response carries the permissive
 * CORS headers; all but the preflight answer also say `application/json`.
 */
module Http {
  import opened Wrappers
  import opened Text
  import opened JsonValues

  /** The statuses a `Response` can be constructed with (and that `fetch` reports). */
  type HttpStatus = s: int | 200 <= s <= 599 witness 200

  predicate IsOk(status: int) { 200 <= status <= 299 }

  /** Statuses whose responses may not carry a body (Fetch standard, "null body status"). */
  predicate IsNullBodyStatus(status: int) {
    status == 101 || status == 103 || status == 204 || status == 205 || status == 304
  }

  /** An incoming request: its HTTP method, its URL's path, and what `req.json()` yields. */
  datatype Request = Request(httpMethod: string, path: string, body: JsonText)

  datatype Verb = Get | Post

  /** One `fetch` to the upstream API. `body` is the JSON value that is stringified, if any. */
  datatype UpstreamCall = UpstreamCall(verb: Verb, url: string, authorization: string, body: Option<Json>)

  /**
   * How the upstream `fetch` settles: it rejects, or it resolves with a status,
   * the body as text (read on failure) and the body as parsed JSON (read on success).
   */
  datatype UpstreamReply =
    | FetchFailed(message: string)
    | Replied(status: HttpStatus, text: string, json: JsonText)

  datatype Headers = Cors | CorsJson

  datatype Body =
    | PlainText(text: string)
    | ErrorBody(error: string)
    | ErrorWithDetails(error: string, details: string)
    | ErrorWithMessage(error: string, message: string)
    | Echo(value: Json)

  datatype Response = Response(status: HttpStatus, headers: Headers, body: Body)

  /** How the `try` block of a handler ends: a returned response, or a thrown error's message. */
  datatype Completion = Returned(response: Response) | Threw(message: string)

  /** What one invocation of a handler does: the response, and the upstream call it made, if any. */
  datatype Outcome = Outcome(response: Response, upstream: Option<UpstreamCall>)

  const PaymentsApi: string := "https://api.minepi.com/v2/payments/"
  const MeApi: string := "https://api.minepi.com/v2/me"
  const ServerKeyName: string := "PI_SERVER_API_KEY"
  const InternalServerError: string := "Internal server error"
  const ServerConfigurationError: string := "Server configuration error"
  const NullBodyStatusMessage: string := "Response with null body status cannot have body"

  /** The answer to an `OPTIONS` request: "ok", status 200, CORS headers only. */
  function Preflight(): Outcome {
    Outcome(Response(200, Cors, PlainText("ok")), None)
  }

  function JsonResponse(status: HttpStatus, body: Body): Response {
    Response(status, CorsJson, body)
  }

  /** An early `return` with `{ error }` and no upstream call. */
  function Rejected(status: HttpStatus, error: string): Outcome {
    Outcome(JsonResponse(status, ErrorBody(error)), None)
  }

  function InternalErrorResponse(): Response {
    JsonResponse(500, ErrorBody(InternalServerError))
  }

  /** `Deno.env.get('PI_SERVER_API_KEY')` is truthy: present and not empty. */
  predicate KeyConfigured(key: Option<string>) {
    key.Some? && key.value != ""
  }

  function KeyAuthorization(key: string): string {
    "Key " + key
  }

  /** `new Response(JSON.stringify(body), { status })`, which throws for a null-body status. */
  function NewJsonResponse(status: HttpStatus, body: Body): Completion {
    if IsNullBodyStatus(status) then Threw(NullBodyStatusMessage) else Returned(JsonResponse(status, body))
  }

  /**
   * The steps after the upstream fetch in the approve, complete, get and cancel
   * handlers: a non-ok status is forwarded with the upstream text as `details`;
   * an ok status answers 200 with the upstream JSON.
   */
  function RelayPaymentReply(reply: UpstreamReply, failure: string): Completion {
    match reply
    case FetchFailed(m) => Threw(m)
    case Replied(status, text, json) =>
      if !IsOk(status) then NewJsonResponse(status, ErrorWithDetails(failure, text))
      else match json
        case Malformed(m) => Threw(m)
        case WellFormed(v) => Returned(JsonResponse(200, Echo(v)))
  }

  /** The upstream reply is forwarded with its own status. */
  predicate Forwarded(reply: UpstreamReply) {
    reply.Replied? && !IsOk(reply.status) && !IsNullBodyStatus(reply.status)
  }

  /** The upstream reply is echoed with status 200. */
  predicate Echoed(reply: UpstreamReply) {
    reply.Replied? && IsOk(reply.status) && reply.json.WellFormed?
  }

  /** The catch block shared by approve, complete, get and verify-user. */
  function CatchAsInternalError(c: Completion): Response {
    match c
    case Returned(r) => r
    case Threw(_) => InternalErrorResponse()
  }
}
