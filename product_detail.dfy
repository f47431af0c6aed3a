/** The product page: the slug redirects, the quantity stepper and adding to the cart. */
module ProductDetail {
  import opened Wrappers
  import opened Text
  import opened Catalog
  import opened CartStore
  import opened Ui

  /** What the page renders for the route's `slug` parameter. */
  datatype DetailView = Redirect(navigation: Navigation) | Shown(product: Product)

  function Render(slug: Option<string>, catalog: seq<Product>): (v: DetailView)
    ensures slug.None? || slug.value == "" ==> v == Redirect(Navigation("/browse", true))
    ensures slug.Some? && slug.value != "" && GetProductBySlug(catalog, slug.value).None? ==>
              v == Redirect(Navigation("/404", true))
    ensures v.Shown? <==> slug.Some? && slug.value != "" && exists i :: 0 <= i < |catalog| && catalog[i].slug == slug.value
    ensures v.Shown? ==> v.product in catalog && v.product.slug == slug.value
  {
    if slug.None? || slug.value == "" then Redirect(Navigation("/browse", true))
    else match GetProductBySlug(catalog, slug.value)
      case None => Redirect(Navigation("/404", true))
      case Some(product) => Shown(product)
  }

  function Max(a: int, b: int): int { if a < b then b else a }

  function AddedToast(quantity: int, title: string): Toast {
    Toast("Added to cart", IntToString(quantity) + "x " + title + " added to your cart.", false)
  }

  class ProductDetailPage {
    const product: Product
    var quantity: int
    var storeCalls: seq<StoreCall>
    var toasts: seq<Toast>

    /** The quantity stays between 1 and the stock (or 1 when there is no stock). */
    predicate Valid()
      reads this
    {
      1 <= quantity <= Max(1, product.stock)
    }

    constructor(product: Product)
      ensures this.product == product
      ensures quantity == 1 && storeCalls == [] && toasts == []
      ensures Valid()
    {
      this.product := product;
      quantity := 1;
      storeCalls := [];
      toasts := [];
    }

    /** The quantity block (stepper and add-to-cart button) is rendered only while in stock. */
    predicate AddToCartOffered()
      reads this
    {
      product.stock > 0
    }

    predicate DecreaseDisabled() reads this { quantity <= 1 }
    predicate IncreaseDisabled() reads this { quantity >= product.stock }

    method IncreaseQuantity()
      modifies this
      ensures old(quantity) < product.stock ==> quantity == old(quantity) + 1
      ensures old(quantity) >= product.stock ==> quantity == old(quantity)
      ensures old(Valid()) ==> Valid()
      ensures storeCalls == old(storeCalls) && toasts == old(toasts)
    {
      if quantity < product.stock {
        quantity := quantity + 1;
      }
    }

    method DecreaseQuantity()
      modifies this
      ensures old(quantity) > 1 ==> quantity == old(quantity) - 1
      ensures old(quantity) <= 1 ==> quantity == old(quantity)
      ensures old(Valid()) ==> Valid()
      ensures storeCalls == old(storeCalls) && toasts == old(toasts)
    {
      if quantity > 1 {
        quantity := quantity - 1;
      }
    }

    /** Adds the chosen quantity of this product to the cart. */
    method HandleAddToCart()
      modifies this
      ensures storeCalls == old(storeCalls) + [AddItem(product, quantity)]
      ensures toasts == old(toasts) + [AddedToast(quantity, product.title)]
      ensures quantity == old(quantity)
    {
      storeCalls := storeCalls + [AddItem(product, quantity)];
      toasts := toasts + [AddedToast(quantity, product.title)];
    }
  }

  /** A click on an enabled stepper button always moves the quantity by one. */
  method EnabledStepMoves(page: ProductDetailPage, up: bool)
    requires page.Valid() && page.AddToCartOffered()
    requires if up then !page.IncreaseDisabled() else !page.DecreaseDisabled()
    modifies page
    ensures page.quantity == old(page.quantity) + (if up then 1 else -1)
    ensures page.Valid() && 1 <= page.quantity <= page.product.stock
  {
    if up {
      page.IncreaseQuantity();
    } else {
      page.DecreaseQuantity();
    }
  }

  /** Whatever the steps, what is added to the cart is a quantity between 1 and the stock. */
  method AddedQuantityInRange(page: ProductDetailPage)
    requires page.Valid() && page.AddToCartOffered()
    modifies page
    ensures |page.storeCalls| == |old(page.storeCalls)| + 1
    ensures var added := page.storeCalls[|page.storeCalls| - 1];
            added.AddItem? && 1 <= added.quantity <= page.product.stock && added.product == page.product
  {
    page.HandleAddToCart();
  }
}
