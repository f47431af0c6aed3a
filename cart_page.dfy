/** The cart page: per-item steppers, removal, line totals and the checkout button. */
module CartPage {
  import opened Wrappers
  import opened CartStore

  /** One listed item and what its three buttons would ask of the store. */
  datatype LineView = LineView(
    item: CartItem,
    decrement: Option<StoreCall>,
    increment: Option<StoreCall>,
    remove: StoreCall,
    lineTotalCents: int)

  datatype CartView = EmptyCart | ItemList(lines: seq<LineView>)

  function LineOf(item: CartItem): LineView {
    LineView(item, DecrementClick(item), IncrementClick(item), RemoveClick(item), LineTotalCents(item))
  }

  /** The empty-cart message, or one card per item in the store's order. */
  function Render(items: seq<CartItem>): (v: CartView)
    ensures v == EmptyCart <==> |items| == 0
    ensures v.ItemList? ==> |v.lines| == |items| && forall i :: 0 <= i < |items| ==> v.lines[i].item == items[i]
  {
    if |items| == 0 then EmptyCart else ItemList(seq(|items|, i requires 0 <= i < |items| => LineOf(items[i])))
  }

  /** The minus button: disabled at one or below, otherwise asks for one less. */
  function DecrementClick(item: CartItem): (c: Option<StoreCall>)
    ensures c.None? <==> item.quantity <= 1
    ensures c.Some? ==> c.value == UpdateQuantity(item.product.id, item.quantity - 1)
  {
    if item.quantity <= 1 then None else Some(UpdateQuantity(item.product.id, item.quantity - 1))
  }

  /** The plus button: disabled at the stock or above, otherwise asks for one more. */
  function IncrementClick(item: CartItem): (c: Option<StoreCall>)
    ensures c.None? <==> item.quantity >= item.product.stock
    ensures c.Some? ==> c.value == UpdateQuantity(item.product.id, item.quantity + 1)
  {
    if item.quantity >= item.product.stock then None else Some(UpdateQuantity(item.product.id, item.quantity + 1))
  }

  /** The bin button removes the item by its product's id. */
  function RemoveClick(item: CartItem): (c: StoreCall)
    ensures c.RemoveItem? && c.productId == item.product.id
  {
    RemoveItem(item.product.id)
  }

  /** `item.product.pricePi * item.quantity`, in hundredths. */
  function LineTotalCents(item: CartItem): int {
    item.product.priceCents * item.quantity
  }

  /**
   * Any enabled step asks for a quantity within 1..stock, so a cart whose
   * quantities start in range is never asked to leave it by these buttons.
   */
  lemma StepsStayInRange(item: CartItem)
    requires 1 <= item.quantity <= item.product.stock
    ensures DecrementClick(item).Some? ==> 1 <= DecrementClick(item).value.quantity <= item.product.stock
    ensures IncrementClick(item).Some? ==> 1 <= IncrementClick(item).value.quantity <= item.product.stock
    ensures item.quantity < item.product.stock ==> IncrementClick(item).Some?
    ensures item.quantity > 1 ==> DecrementClick(item).Some?
  {
  }

  /**
   * For a cart whose quantities lie within 1..stock, every button of every
   * card names that card's product, removal included, and no enabled button
   * asks for a quantity outside 1..stock.
   */
  lemma ButtonsActOnTheirLine(items: seq<CartItem>)
    requires forall i :: 0 <= i < |items| ==> 1 <= items[i].quantity <= items[i].product.stock
    ensures Render(items).ItemList? ==>
              var lines := Render(items).lines;
              forall i :: 0 <= i < |lines| ==>
                && lines[i].remove == RemoveItem(items[i].product.id)
                && (lines[i].decrement.Some? ==>
                      lines[i].decrement.value.productId == items[i].product.id
                      && 1 <= lines[i].decrement.value.quantity <= items[i].product.stock)
                && (lines[i].increment.Some? ==>
                      lines[i].increment.value.productId == items[i].product.id
                      && 1 <= lines[i].increment.value.quantity <= items[i].product.stock)
  {
    if |items| > 0 {
      var lines := Render(items).lines;
      forall i | 0 <= i < |lines|
        ensures lines[i] == LineOf(items[i])
      {
      }
      forall i | 0 <= i < |items| {
        StepsStayInRange(items[i]);
      }
    }
  }

  /**
   * `!isAuthenticated || isLoadingSession`. The hook has no `isLoadingSession`,
   * so the flag reads `undefined`. The button wraps a link, so the flag only
   * changes how it looks.
   */
  predicate CheckoutDisabled(isAuthenticated: bool, isLoadingSession: Option<bool>) {
    !isAuthenticated || isLoadingSession == Some(true)
  }

  lemma CheckoutDisabledIffSignedOut(isAuthenticated: bool)
    ensures CheckoutDisabled(isAuthenticated, None) <==> !isAuthenticated
  {
  }
}
