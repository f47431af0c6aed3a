/**
 * The checkout page: two redirect guards, the order id, the arguments given
 * to the payment button, and the two handlers the button calls back.
 */
module Checkout {
  import opened Wrappers
  import opened Text
  import opened CartStore
  import opened Ui
  import opened PayButton

  const OrderIdPrefix: string := "DPM-"

  /** `\`DPM-${Date.now()}\``, with the clock reading given. */
  function OrderId(now: nat): (id: string)
    ensures |id| > 4 && id[..4] == OrderIdPrefix
    ensures AllDigits(id[4..]) && ParseDigits(id[4..]) == now
  {
    ParseNatToString(now);
    assert (OrderIdPrefix + NatToString(now))[4..] == NatToString(now);
    OrderIdPrefix + NatToString(now)
  }

  /** Orders placed at different instants get different ids. */
  lemma OrderIdInjective(a: nat, b: nat)
    requires OrderId(a) == OrderId(b)
    ensures a == b
  {
  }

  /** `\`Daily Pi Mart Order - ${totalItems} items\`` */
  function CheckoutMemo(totalItems: int): string {
    "Daily Pi Mart Order - " + IntToString(totalItems) + " items"
  }

  /** What the page renders. */
  datatype CheckoutView =
    | Redirect(navigation: Navigation)
    | PaymentForm(orderId: string, button: PayButtonProps)

  /**
   * The guards, in order, then the form. `totalCents` and `totalItems` are
   * the cart store's `getTotalPrice()` and `getTotalItems()`; `now` is `Date.now()`.
   */
  function Render(isAuthenticated: bool, items: seq<CartItem>, totalCents: int, totalItems: int, now: nat): (v: CheckoutView)
    ensures !isAuthenticated ==> v == Redirect(Navigation("/cart", true))
    ensures isAuthenticated && items == [] ==> v == Redirect(Navigation("/browse", true))
    ensures isAuthenticated && items != [] ==>
              && v.PaymentForm? && v.orderId == OrderId(now)
              && v.button.amountCents == totalCents && v.button.orderId == v.orderId
              && v.button.memo == Some(CheckoutMemo(totalItems))
              && v.button.hasOnSuccess && v.button.hasOnError && !v.button.disabled
  {
    if !isAuthenticated then Redirect(Navigation("/cart", true))
    else if |items| == 0 then Redirect(Navigation("/browse", true))
    else
      var orderId := OrderId(now);
      PaymentForm(orderId, PayButtonProps(totalCents, orderId, Some(CheckoutMemo(totalItems)), true, true, false))
  }

  /** The memo the SDK receives is the checkout's, never the button's default. */
  lemma CheckoutMemoReachesSdk(isAuthenticated: bool, items: seq<CartItem>, totalCents: int, totalItems: int, now: nat)
    requires isAuthenticated && items != []
    ensures var v := Render(isAuthenticated, items, totalCents, totalItems, now);
            && PaymentDataOf(v.button).memo == CheckoutMemo(totalItems)
            && PaymentDataOf(v.button).amountCents == totalCents
  {
  }

  const OrderCompletedToast: Toast := Toast("Order Completed!", "Your order has been successfully processed.", false)

  class CheckoutPage {
    var isProcessing: bool
    var storeCalls: seq<StoreCall>
    var toasts: seq<Toast>
    var navigations: seq<Navigation>

    constructor()
      ensures !isProcessing && storeCalls == [] && toasts == [] && navigations == []
    {
      isProcessing := false;
      storeCalls := [];
      toasts := [];
      navigations := [];
    }

    /** `handlePaymentSuccess`: the cart is cleared and the user is sent to the orders page. */
    method HandlePaymentSuccess(paymentId: string, txid: string)
      modifies this
      ensures !isProcessing
      ensures storeCalls == old(storeCalls) + [ClearCart]
      ensures toasts == old(toasts) + [OrderCompletedToast]
      ensures navigations == old(navigations) + [Navigation("/orders", true)]
    {
      isProcessing := false;
      storeCalls := storeCalls + [ClearCart];
      toasts := toasts + [OrderCompletedToast];
      navigations := navigations + [Navigation("/orders", true)];
    }

    /** `handlePaymentError`: processing ends; the cart is left as it is. */
    method HandlePaymentError(error: string)
      modifies this
      ensures !isProcessing
      ensures storeCalls == old(storeCalls) && toasts == old(toasts) && navigations == old(navigations)
    {
      isProcessing := false;
    }

    /** The button's call to its owner, routed to the matching handler. */
    method Receive(call: OuterCall)
      modifies this
      ensures !isProcessing
      ensures call.SuccessCalled? ==> storeCalls == old(storeCalls) + [ClearCart]
                                      && toasts == old(toasts) + [OrderCompletedToast]
                                      && navigations == old(navigations) + [Navigation("/orders", true)]
      ensures call.ErrorCalled? ==> storeCalls == old(storeCalls) && toasts == old(toasts) && navigations == old(navigations)
    {
      match call {
        case SuccessCalled(paymentId, txid) => HandlePaymentSuccess(paymentId, txid);
        case ErrorCalled(error) => HandlePaymentError(error);
      }
    }
  }

  /**
   * A payment the SDK completes, delivered to the checkout page through its
   * button: the cart is cleared exactly once and the user lands on /orders.
   */
  method CompletedPaymentClearsCart(page: CheckoutPage, button: PiPayButton, paymentId: string, txid: string)
    requires button.props.hasOnSuccess
    modifies page, button
    ensures page.storeCalls == old(page.storeCalls) + [ClearCart]
    ensures page.navigations == old(page.navigations) + [Navigation("/orders", true)]
    ensures !page.isProcessing && !button.isProcessing
  {
    button.OnReadyForServerCompletion(paymentId, txid);
    page.Receive(button.outerCalls[|button.outerCalls| - 1]);
  }

  /** A payment that fails in the SDK reaches the page as an error and leaves the cart alone. */
  method FailedPaymentKeepsCart(page: CheckoutPage, button: PiPayButton, error: string)
    requires button.props.hasOnError
    modifies page, button
    ensures page.storeCalls == old(page.storeCalls) && page.navigations == old(page.navigations)
    ensures !page.isProcessing && !button.isProcessing
  {
    button.OnError(error);
    page.Receive(button.outerCalls[|button.outerCalls| - 1]);
  }

  /** A cancelled payment never reaches the page at all. */
  method CancelledPaymentKeepsCart(page: CheckoutPage, button: PiPayButton, paymentId: string)
    modifies button
    ensures button.outerCalls == old(button.outerCalls) && !button.isProcessing
    ensures page.storeCalls == old(page.storeCalls)
  {
    button.OnCancelled(paymentId);
  }
}
