/** The `pi-complete-payment` edge function. */
module CompletePayment {
  import opened Wrappers
  import opened JsonValues
  import opened Http

  const MissingFieldsText: string := "Payment ID and transaction ID are required"
  const FailureText: string := "Failed to complete payment with Pi Network"

  /** The two bindings of `const { paymentId, txid } = await req.json()`. */
  datatype Fields = Fields(paymentId: Option<Json>, txid: Option<Json>)

  datatype FieldsBinding = BoundFields(fields: Fields) | FieldsThrown(message: string)

  function FieldsOf(body: JsonText): FieldsBinding {
    match body
    case Malformed(m) => FieldsThrown(m)
    case WellFormed(v) =>
      match Destructure(v, "paymentId")
      case Thrown(m) => FieldsThrown(m)
      case Bound(paymentId) => BoundFields(Fields(paymentId, Destructure(v, "txid").field))
  }

  predicate BodyUnreadable(req: Request) {
    req.httpMethod != "OPTIONS" && FieldsOf(req.body).FieldsThrown?
  }

  /** Either field is falsy. */
  predicate FieldMissing(req: Request) {
    && req.httpMethod != "OPTIONS" && FieldsOf(req.body).BoundFields?
    && !(Truthy(FieldsOf(req.body).fields.paymentId) && Truthy(FieldsOf(req.body).fields.txid))
  }

  predicate FieldsPresent(req: Request) {
    && req.httpMethod != "OPTIONS" && FieldsOf(req.body).BoundFields?
    && Truthy(FieldsOf(req.body).fields.paymentId) && Truthy(FieldsOf(req.body).fields.txid)
  }

  predicate ReachesUpstream(req: Request, serverKey: Option<string>) {
    FieldsPresent(req) && KeyConfigured(serverKey)
  }

  /** The POST carries `JSON.stringify({ txid })`: an object with the single member `txid`. */
  function CompleteCall(paymentId: Json, txid: Json, key: string): UpstreamCall {
    UpstreamCall(Post, PaymentsApi + ToJsString(paymentId) + "/complete", KeyAuthorization(key),
                 Some(JObject([("txid", txid)])))
  }

  function Serve(req: Request, serverKey: Option<string>, reply: UpstreamReply): (r: Outcome)
    ensures req.httpMethod == "OPTIONS" ==> r == Preflight()
    ensures BodyUnreadable(req) ==> r == Outcome(InternalErrorResponse(), None)
    ensures FieldMissing(req) ==> r == Rejected(400, MissingFieldsText)
    ensures FieldsPresent(req) && !KeyConfigured(serverKey) ==> r == Rejected(500, ServerConfigurationError)
    ensures r.upstream.Some? <==> ReachesUpstream(req, serverKey)
    ensures ReachesUpstream(req, serverKey) ==>
              && r.upstream == Some(CompleteCall(FieldsOf(req.body).fields.paymentId.value,
                                                 FieldsOf(req.body).fields.txid.value, serverKey.value))
              && (Forwarded(reply) ==>
                    r.response == Response(reply.status, CorsJson, ErrorWithDetails(FailureText, reply.text)))
              && (Echoed(reply) ==> r.response == Response(200, CorsJson, Echo(reply.json.value)))
              && (!Forwarded(reply) && !Echoed(reply) ==> r.response == InternalErrorResponse())
  {
    if req.httpMethod == "OPTIONS" then Preflight()
    else match FieldsOf(req.body)
      case FieldsThrown(_) => Outcome(InternalErrorResponse(), None)
      case BoundFields(Fields(paymentId, txid)) =>
        if !Truthy(paymentId) || !Truthy(txid) then Rejected(400, MissingFieldsText)
        else if !KeyConfigured(serverKey) then Rejected(500, ServerConfigurationError)
        else
          var call := CompleteCall(paymentId.value, txid.value, serverKey.value);
          Outcome(CatchAsInternalError(RelayPaymentReply(reply, FailureText)), Some(call))
  }

  /** The forwarded body holds exactly the `txid` the client sent, and nothing else. */
  lemma ForwardsOnlyTxid(req: Request, serverKey: Option<string>, reply: UpstreamReply)
    requires ReachesUpstream(req, serverKey)
    ensures Serve(req, serverKey, reply).upstream.value.body.value.members == [("txid", FieldsOf(req.body).fields.txid.value)]
    ensures Member(Serve(req, serverKey, reply).upstream.value.body.value.members, "txid") == FieldsOf(req.body).fields.txid
  {
  }

  /**
   * Nothing is kept between requests: the same request and key produce the
   * same upstream call, however the upstream answered earlier calls.
   */
  lemma StatelessUpstream(req: Request, serverKey: Option<string>, a: UpstreamReply, b: UpstreamReply)
    ensures Serve(req, serverKey, a).upstream == Serve(req, serverKey, b).upstream
  {
  }
}
