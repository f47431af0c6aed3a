/** The `pi-cancel-payment` edge function: its catch block also reports the error's message. */
module CancelPayment {
  import opened Wrappers
  import opened JsonValues
  import opened Http

  const MissingIdText: string := "Payment ID is required"
  const FailureText: string := "Failed to cancel payment with Pi Network"

  function PaymentIdBinding(body: JsonText): Binding {
    match body
    case Malformed(m) => Thrown(m)
    case WellFormed(v) => Destructure(v, "paymentId")
  }

  predicate BodyUnreadable(req: Request) {
    req.httpMethod != "OPTIONS" && PaymentIdBinding(req.body).Thrown?
  }

  predicate IdMissing(req: Request) {
    req.httpMethod != "OPTIONS" && PaymentIdBinding(req.body).Bound? && !Truthy(PaymentIdBinding(req.body).field)
  }

  predicate IdPresent(req: Request) {
    req.httpMethod != "OPTIONS" && PaymentIdBinding(req.body).Bound? && Truthy(PaymentIdBinding(req.body).field)
  }

  predicate ReachesUpstream(req: Request, serverKey: Option<string>) {
    IdPresent(req) && KeyConfigured(serverKey)
  }

  /** A POST with no body. */
  function CancelCall(paymentId: Json, key: string): UpstreamCall {
    UpstreamCall(Post, PaymentsApi + ToJsString(paymentId) + "/cancel", KeyAuthorization(key), None)
  }

  /** The catch block: 500 with the thrown error's message. */
  function CatchWithMessage(c: Completion): Response {
    match c
    case Returned(r) => r
    case Threw(m) => JsonResponse(500, ErrorWithMessage(InternalServerError, m))
  }

  /** The message of the error the upstream step throws, when it throws. */
  function ThrownByRelay(reply: UpstreamReply): string {
    match RelayPaymentReply(reply, FailureText)
    case Threw(m) => m
    case Returned(_) => ""
  }

  function Serve(req: Request, serverKey: Option<string>, reply: UpstreamReply): (r: Outcome)
    ensures req.httpMethod == "OPTIONS" ==> r == Preflight()
    ensures BodyUnreadable(req) ==>
              r == Outcome(JsonResponse(500, ErrorWithMessage(InternalServerError, PaymentIdBinding(req.body).message)), None)
    ensures IdMissing(req) ==> r == Rejected(400, MissingIdText)
    ensures IdPresent(req) && !KeyConfigured(serverKey) ==> r == Rejected(500, ServerConfigurationError)
    ensures r.upstream.Some? <==> ReachesUpstream(req, serverKey)
    ensures ReachesUpstream(req, serverKey) ==>
              && r.upstream == Some(CancelCall(PaymentIdBinding(req.body).field.value, serverKey.value))
              && (Forwarded(reply) ==>
                    r.response == Response(reply.status, CorsJson, ErrorWithDetails(FailureText, reply.text)))
              && (Echoed(reply) ==> r.response == Response(200, CorsJson, Echo(reply.json.value)))
              && (!Forwarded(reply) && !Echoed(reply) ==>
                    r.response == JsonResponse(500, ErrorWithMessage(InternalServerError, ThrownByRelay(reply))))
  {
    if req.httpMethod == "OPTIONS" then Preflight()
    else match PaymentIdBinding(req.body)
      case Thrown(m) => Outcome(CatchWithMessage(Threw(m)), None)
      case Bound(paymentId) =>
        if !Truthy(paymentId) then Rejected(400, MissingIdText)
        else if !KeyConfigured(serverKey) then Rejected(500, ServerConfigurationError)
        else
          var call := CancelCall(paymentId.value, serverKey.value);
          Outcome(CatchWithMessage(RelayPaymentReply(reply, FailureText)), Some(call))
  }

  /** Which upstream failures become a 500, and the message each carries. */
  lemma RelayFailureMessages(reply: UpstreamReply)
    ensures reply.FetchFailed? ==> ThrownByRelay(reply) == reply.message
    ensures reply.Replied? && !IsOk(reply.status) && IsNullBodyStatus(reply.status) ==>
              ThrownByRelay(reply) == NullBodyStatusMessage
    ensures reply.Replied? && IsOk(reply.status) && reply.json.Malformed? ==>
              ThrownByRelay(reply) == reply.json.message
  {
  }
}
