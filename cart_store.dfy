/**
 * The cart store's interface. Its implementation is not part of this model:
 * pages only ask it for its items and totals and send it requests, which
 * are recorded here as values.
 */
module CartStore {
  import opened Catalog

  datatype CartItem = CartItem(product: Product, quantity: int)

  /** A request a page makes of the cart store. */
  datatype StoreCall =
    | AddItem(product: Product, quantity: int)
    | UpdateQuantity(productId: string, quantity: int)
    | RemoveItem(productId: string)
    | ClearCart
}
