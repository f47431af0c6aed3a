/** The `pi-approve-payment` edge function. */
module ApprovePayment {
  import opened Wrappers
  import opened JsonValues
  import opened Http

  const MissingIdText: string := "Payment ID is required"
  const FailureText: string := "Failed to approve payment with Pi Network"

  /** `const { paymentId } = await req.json()` */
  function PaymentIdBinding(body: JsonText): Binding {
    match body
    case Malformed(m) => Thrown(m)
    case WellFormed(v) => Destructure(v, "paymentId")
  }

  /** The body could not be read or destructured: the catch block answers 500. */
  predicate BodyUnreadable(req: Request) {
    req.httpMethod != "OPTIONS" && PaymentIdBinding(req.body).Thrown?
  }

  /** The body was destructured; `paymentId` is falsy or truthy. */
  predicate IdMissing(req: Request) {
    req.httpMethod != "OPTIONS" && PaymentIdBinding(req.body).Bound? && !Truthy(PaymentIdBinding(req.body).field)
  }

  predicate IdPresent(req: Request) {
    req.httpMethod != "OPTIONS" && PaymentIdBinding(req.body).Bound? && Truthy(PaymentIdBinding(req.body).field)
  }

  /** Every guard before the fetch passes. */
  predicate ReachesUpstream(req: Request, serverKey: Option<string>) {
    IdPresent(req) && KeyConfigured(serverKey)
  }

  function ApproveCall(paymentId: Json, key: string): UpstreamCall {
    UpstreamCall(Post, PaymentsApi + ToJsString(paymentId) + "/approve", KeyAuthorization(key), None)
  }

  function Serve(req: Request, serverKey: Option<string>, reply: UpstreamReply): (r: Outcome)
    ensures req.httpMethod == "OPTIONS" ==> r == Preflight()
    ensures BodyUnreadable(req) ==> r == Outcome(InternalErrorResponse(), None)
    ensures IdMissing(req) ==> r == Rejected(400, MissingIdText)
    ensures IdPresent(req) && !KeyConfigured(serverKey) ==> r == Rejected(500, ServerConfigurationError)
    ensures r.upstream.Some? <==> ReachesUpstream(req, serverKey)
    ensures ReachesUpstream(req, serverKey) ==>
              && r.upstream == Some(ApproveCall(PaymentIdBinding(req.body).field.value, serverKey.value))
              && (Forwarded(reply) ==>
                    r.response == Response(reply.status, CorsJson, ErrorWithDetails(FailureText, reply.text)))
              && (Echoed(reply) ==> r.response == Response(200, CorsJson, Echo(reply.json.value)))
              && (!Forwarded(reply) && !Echoed(reply) ==> r.response == InternalErrorResponse())
  {
    if req.httpMethod == "OPTIONS" then Preflight()
    else match PaymentIdBinding(req.body)
      case Thrown(_) => Outcome(InternalErrorResponse(), None)
      case Bound(paymentId) =>
        if !Truthy(paymentId) then Rejected(400, MissingIdText)
        else if !KeyConfigured(serverKey) then Rejected(500, ServerConfigurationError)
        else
          var call := ApproveCall(paymentId.value, serverKey.value);
          Outcome(CatchAsInternalError(RelayPaymentReply(reply, FailureText)), Some(call))
  }

  /** A request turned away before the fetch is answered the same whatever the upstream would say. */
  lemma RejectionIgnoresUpstream(req: Request, serverKey: Option<string>, a: UpstreamReply, b: UpstreamReply)
    requires !ReachesUpstream(req, serverKey)
    ensures Serve(req, serverKey, a) == Serve(req, serverKey, b)
    ensures Serve(req, serverKey, a).upstream == None
  {
  }
}
