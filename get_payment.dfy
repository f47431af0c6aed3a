/** The `pi-get-payment` edge function: the payment id is the last segment of the path. */
module GetPayment {
  import opened Wrappers
  import opened Text
  import opened JsonValues
  import opened Http

  const MissingIdText: string := "Payment ID is required"
  const FailureText: string := "Failed to get payment from Pi Network"

  /** `pathParts[pathParts.length - 1]` where `pathParts = url.pathname.split('/')`. */
  function PaymentIdOf(path: string): (id: string)
    ensures id == "" <==> (path == "" || path[|path| - 1] == '/')
    ensures '/' !in path ==> id == path
  {
    var parts := Split(path, '/');
    SplitLastIsFinalSegment(path, '/');
    FinalSegmentEmptyIff(Last(parts), path, '/');
    Last(parts)
  }

  /** The id is the text after the path's final `/` (all of it when there is none). */
  lemma PaymentIdOfIsFinalSegment(path: string)
    ensures IsFinalSegment(PaymentIdOf(path), path, '/')
  {
    SplitLastIsFinalSegment(path, '/');
  }

  /** The id is the only string with the final-segment property. */
  lemma PaymentIdIsTheFinalSegment(path: string, id: string)
    requires IsFinalSegment(id, path, '/')
    ensures PaymentIdOf(path) == id
  {
    PaymentIdOfIsFinalSegment(path);
    FinalSegmentUnique(PaymentIdOf(path), id, path, '/');
  }

  /** Appending `/<id>` to any path makes `id` the payment id, however many segments come before. */
  lemma PaymentIdOfAppended(prefix: string, id: string)
    requires '/' !in id
    ensures PaymentIdOf(prefix + "/" + id) == id
  {
    var path := prefix + "/" + id;
    assert path[|path| - |id|..] == id;
    assert path[|path| - |id| - 1] == '/';
    PaymentIdIsTheFinalSegment(path, id);
  }

  predicate IdMissing(req: Request) {
    req.httpMethod != "OPTIONS" && PaymentIdOf(req.path) == ""
  }

  predicate ReachesUpstream(req: Request, serverKey: Option<string>) {
    req.httpMethod != "OPTIONS" && PaymentIdOf(req.path) != "" && KeyConfigured(serverKey)
  }

  /** A default-method (GET) fetch of the payment resource. */
  function GetCall(paymentId: string, key: string): UpstreamCall {
    UpstreamCall(Get, PaymentsApi + paymentId, KeyAuthorization(key), None)
  }

  /** The request body is never read, so it does not appear. */
  function Serve(req: Request, serverKey: Option<string>, reply: UpstreamReply): (r: Outcome)
    ensures req.httpMethod == "OPTIONS" ==> r == Preflight()
    ensures IdMissing(req) ==> r == Rejected(400, MissingIdText)
    ensures req.httpMethod != "OPTIONS" && PaymentIdOf(req.path) != "" && !KeyConfigured(serverKey) ==>
              r == Rejected(500, ServerConfigurationError)
    ensures r.upstream.Some? <==> ReachesUpstream(req, serverKey)
    ensures ReachesUpstream(req, serverKey) ==>
              && r.upstream == Some(GetCall(PaymentIdOf(req.path), serverKey.value))
              && (Forwarded(reply) ==>
                    r.response == Response(reply.status, CorsJson, ErrorWithDetails(FailureText, reply.text)))
              && (Echoed(reply) ==> r.response == Response(200, CorsJson, Echo(reply.json.value)))
              && (!Forwarded(reply) && !Echoed(reply) ==> r.response == InternalErrorResponse())
  {
    if req.httpMethod == "OPTIONS" then Preflight()
    else
      var paymentId := PaymentIdOf(req.path);
      if paymentId == "" then Rejected(400, MissingIdText)
      else if !KeyConfigured(serverKey) then Rejected(500, ServerConfigurationError)
      else Outcome(CatchAsInternalError(RelayPaymentReply(reply, FailureText)), Some(GetCall(paymentId, serverKey.value)))
  }

  /** A path ending in `/` is answered 400 without reaching the upstream, and only such paths (or the empty one). */
  lemma TrailingSlashIsRejected(req: Request, serverKey: Option<string>, reply: UpstreamReply)
    requires req.httpMethod != "OPTIONS"
    ensures Serve(req, serverKey, reply) == Rejected(400, MissingIdText)
            <==> (req.path == "" || req.path[|req.path| - 1] == '/')
  {
  }

  /** The upstream URL ends with `/` followed by the very id that was requested. */
  lemma RequestedIdReachesUpstream(prefix: string, id: string, httpMethod: string, body: JsonText, key: string, reply: UpstreamReply)
    requires '/' !in id && id != "" && httpMethod != "OPTIONS" && key != ""
    ensures Serve(Request(httpMethod, prefix + "/" + id, body), Some(key), reply).upstream
            == Some(UpstreamCall(Get, PaymentsApi + id, "Key " + key, None))
  {
    PaymentIdOfAppended(prefix, id);
  }
}
