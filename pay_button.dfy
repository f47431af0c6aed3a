/**
 * The Pi payment button: two guards before the SDK is asked to pay, then a
 * busy flag that the SDK's callbacks clear. Each SDK callback is an event
 * method; they arrive one at a time.
 */
module PayButton {
  import opened Wrappers
  import opened Text
  import opened JsonValues
  import opened SessionCodec
  import opened PiSdk
  import opened Ui

  /** The button's props; the two outer callbacks are either given or not. */
  datatype PayButtonProps = PayButtonProps(
    amountCents: int,
    orderId: string,
    memo: Option<string>,
    hasOnSuccess: bool,
    hasOnError: bool,
    disabled: bool)

  /** A call the button makes to its owner. */
  datatype OuterCall = SuccessCalled(paymentId: string, txid: string) | ErrorCalled(error: string)

  /** What a click does. */
  datatype ClickResult =
    | NeedsPiBrowser
    | NeedsSignIn
    | PaymentStarted(call: SdkPaymentCall)
    | PaymentFailedToStart(message: string)

  const Source: string := "daily-pi-mart"

  const BrowserRequiredToast: Toast := Toast("Pi Browser Required", "Please open this app in Pi Browser to pay with Pi.", true)
  const SignInRequiredToast: Toast := Toast("Sign In Required", "Please sign in with Pi to make payments.", true)
  const ProcessingToast: Toast := Toast("Processing Payment", "Your payment is being processed...", false)
  const CancelledToast: Toast := Toast("Payment Cancelled", "Your payment was cancelled.", true)
  const FailedToast: Toast := Toast("Payment Failed", "Unable to process your payment. Please try again.", true)
  const ErrorToast: Toast := Toast("Payment Error", "Unable to initiate payment. Please try again.", true)

  function SuccessToast(txid: string): Toast {
    Toast("Payment Successful!", "Your order has been completed. Transaction: " + Prefix(txid, 8) + "...", false)
  }

  /** `memo || \`Daily Pi Mart Order ${orderId}\`` */
  function PaymentMemo(memo: Option<string>, orderId: string): (m: string)
    ensures memo.Some? && memo.value != "" ==> m == memo.value
    ensures memo.None? || memo.value == "" ==> m == "Daily Pi Mart Order " + orderId
  {
    if memo.Some? && memo.value != "" then memo.value else "Daily Pi Mart Order " + orderId
  }

  /** `{ orderId, source: 'daily-pi-mart' }` */
  function PaymentMetadata(orderId: string): (j: Json)
    ensures j.JObject? && |j.members| == 2
    ensures Member(j.members, "orderId") == Some(JString(orderId))
    ensures Member(j.members, "source") == Some(JString(Source))
    ensures forall k :: Member(j.members, k).Some? ==> k in {"orderId", "source"}
  {
    var members := [("orderId", JString(orderId)), ("source", JString(Source))];
    JObject(members)
  }

  function PaymentDataOf(props: PayButtonProps): PaymentData {
    PaymentData(props.amountCents, PaymentMemo(props.memo, props.orderId), PaymentMetadata(props.orderId))
  }

  /** The four callbacks `handlePayment` hands to the hook. */
  const ButtonCallbacks: PaymentCallbacks := PaymentCallbacks(
    Supplied("onReadyForServerApproval"),
    Supplied("onReadyForServerCompletion"),
    Some(Supplied("onCancelled")),
    Some(Supplied("onError")))

  class PiPayButton {
    const props: PayButtonProps
    /** The button's own instance of the session hook. */
    const sdk: PiSession
    var isProcessing: bool
    var toasts: seq<Toast>
    var outerCalls: seq<OuterCall>

    constructor(props: PayButtonProps, sdk: PiSession)
      ensures this.props == props && this.sdk == sdk
      ensures !isProcessing && toasts == [] && outerCalls == []
    {
      this.props := props;
      this.sdk := sdk;
      isProcessing := false;
      toasts := [];
      outerCalls := [];
    }

    /** `disabled || !isReady || !isAuthenticated || isProcessing` */
    predicate IsDisabled()
      reads this, sdk
    {
      props.disabled || !sdk.isReady || !sdk.IsAuthenticated() || isProcessing
    }

    /**
     * A click. The ready check comes first, then the sign-in check; only past
     * both is the flag raised and the SDK asked to pay. A call the hook refuses
     * lands in the catch block.
     */
    method HandlePayment(windowPi: WindowPi) returns (r: ClickResult)
      modifies this
      ensures outerCalls == old(outerCalls)
      ensures !sdk.isReady ==>
                r == NeedsPiBrowser && isProcessing == old(isProcessing) && toasts == old(toasts) + [BrowserRequiredToast]
      ensures sdk.isReady && !sdk.IsAuthenticated() ==>
                r == NeedsSignIn && isProcessing == old(isProcessing) && toasts == old(toasts) + [SignInRequiredToast]
      ensures sdk.isReady && sdk.IsAuthenticated() && windowPi.Present? ==>
                && r == PaymentStarted(SdkPaymentCall(PaymentDataOf(props), SdkCallbacks(
                        Supplied("onReadyForServerApproval"), Supplied("onReadyForServerCompletion"),
                        Supplied("onCancelled"), Supplied("onError"))))
                && isProcessing && toasts == old(toasts)
      ensures sdk.isReady && sdk.IsAuthenticated() && windowPi.Absent? ==>
                r == PaymentFailedToStart(SdkUnavailable) && !isProcessing && toasts == old(toasts) + [ErrorToast]
    {
      if !sdk.isReady {
        toasts := toasts + [BrowserRequiredToast];
        return NeedsPiBrowser;
      }
      if !sdk.IsAuthenticated() {
        toasts := toasts + [SignInRequiredToast];
        return NeedsSignIn;
      }
      isProcessing := true;
      var started := sdk.CreatePayment(windowPi, PaymentDataOf(props), ButtonCallbacks);
      match started {
        case Ok(call) =>
          r := PaymentStarted(call);
        case Err(message) =>
          toasts := toasts + [ErrorToast];
          isProcessing := false;
          r := PaymentFailedToStart(message);
      }
    }

    /** The SDK is ready for server approval: a toast, and nothing else. */
    method OnReadyForServerApproval(paymentId: string)
      modifies this
      ensures toasts == old(toasts) + [ProcessingToast]
      ensures isProcessing == old(isProcessing) && outerCalls == old(outerCalls)
    {
      toasts := toasts + [ProcessingToast];
    }

    /** The payment went through: the owner's `onSuccess` is told, then the flag is cleared. */
    method OnReadyForServerCompletion(paymentId: string, txid: string)
      modifies this
      ensures toasts == old(toasts) + [SuccessToast(txid)]
      ensures outerCalls == old(outerCalls) + (if props.hasOnSuccess then [SuccessCalled(paymentId, txid)] else [])
      ensures !isProcessing
    {
      toasts := toasts + [SuccessToast(txid)];
      if props.hasOnSuccess {
        outerCalls := outerCalls + [SuccessCalled(paymentId, txid)];
      }
      isProcessing := false;
    }

    /** The user cancelled in the SDK: the flag is cleared and the owner is not told. */
    method OnCancelled(paymentId: string)
      modifies this
      ensures toasts == old(toasts) + [CancelledToast]
      ensures outerCalls == old(outerCalls)
      ensures !isProcessing
    {
      toasts := toasts + [CancelledToast];
      isProcessing := false;
    }

    /** The SDK reported an error: the owner's `onError` is told and the flag is cleared. */
    method OnError(error: string)
      modifies this
      ensures toasts == old(toasts) + [FailedToast]
      ensures outerCalls == old(outerCalls) + (if props.hasOnError then [ErrorCalled(error)] else [])
      ensures !isProcessing
    {
      toasts := toasts + [FailedToast];
      if props.hasOnError {
        outerCalls := outerCalls + [ErrorCalled(error)];
      }
      isProcessing := false;
    }

    /** The promise `createPayment` returned was rejected: the catch block, which does not call `onError`. */
    method CreatePaymentRejected(message: string)
      modifies this
      ensures toasts == old(toasts) + [ErrorToast]
      ensures outerCalls == old(outerCalls)
      ensures !isProcessing
    {
      toasts := toasts + [ErrorToast];
      isProcessing := false;
    }
  }

  /** An enabled button's click always gets past both guards and raises the flag on its way to the SDK. */
  method EnabledClickReachesSdk(button: PiPayButton, windowPi: WindowPi) returns (r: ClickResult)
    requires !button.IsDisabled()
    requires windowPi.Present?
    modifies button
    ensures r.PaymentStarted? && r.call.data == PaymentDataOf(button.props)
    ensures button.isProcessing && button.IsDisabled()
  {
    r := button.HandlePayment(windowPi);
  }
}
