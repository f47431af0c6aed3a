/**
 * The product catalogue: the eight sample products, the category list, and
 * the two queries over them. Prices are in hundredths of a Pi.
 */
module Catalog {
  import opened Wrappers
  import opened Seqs

  /**
   * A product. `images` holds asset names; `createdAt` is the creation
   * instant in milliseconds.
   */
  datatype Product = Product(
    id: string,
    slug: string,
    title: string,
    description: string,
    priceCents: int,
    images: seq<string>,
    category: string,
    stock: int,
    active: bool,
    createdAt: int)

  /**
   * `sampleProducts`. Each product's `createdAt` is the clock reading taken
   * when the module was loaded, one reading per product, given here as `loadedAt`.
   */
  function SampleProducts(loadedAt: seq<int>): (ps: seq<Product>)
    requires |loadedAt| == 8
    ensures |ps| == 8
    ensures forall i :: 0 <= i < 8 ==> ps[i].createdAt == loadedAt[i]
  {
    [
      Product("1", "iphone-15-pro", "iPhone 15 Pro - 256GB",
              Description1,
              89999, ["iphone-15-pro.jpg"], "Electronics", 5, true, loadedAt[0]),
      Product("2", "organic-coffee-beans", "Premium Organic Coffee Beans - 1kg",
              Description2,
              2499, ["coffee-beans.jpg"], "Groceries", 50, true, loadedAt[1]),
      Product("3", "web-development-course", "Complete Web Development Bootcamp",
              Description3,
              14999, ["web-course.jpg"], "Services", 100, true, loadedAt[2]),
      Product("4", "wireless-headphones", "Sony WH-1000XM5 Wireless Headphones",
              Description4,
              34999, ["headphones.jpg"], "Electronics", 12, true, loadedAt[3]),
      Product("5", "designer-t-shirt", "Premium Cotton T-Shirt",
              Description5,
              2999, ["cotton-tshirt.jpg"], "Fashion", 25, true, loadedAt[4]),
      Product("6", "smart-home-hub", "Smart Home Hub with Voice Control",
              Description6,
              12999, ["smart-hub.jpg"], "Electronics", 8, true, loadedAt[5]),
      Product("7", "yoga-mat-premium", "Premium Eco-Friendly Yoga Mat",
              Description7,
              7999, ["yoga-mat.jpg"], "Sports & Outdoors", 30, true, loadedAt[6]),
      Product("8", "gourmet-chocolate-box", "Artisan Chocolate Collection",
              Description8,
              4599, ["chocolate-box.jpg"], "Groceries", 20, true, loadedAt[7])
    ]
  }

  const Description1: string := "The latest iPhone with A17 Pro chip, titanium design, and advanced camera system."
  const Description2: string := "Single-origin Ethiopian coffee beans, ethically sourced and freshly roasted."
  const Description3: string := "Learn HTML, CSS, JavaScript, React, and Node.js from beginner to advanced."
  const Description4: string := "Industry-leading noise canceling with premium sound quality."
  const Description5: string := "Comfortable and stylish t-shirt made from 100% organic cotton."
  const Description6: string := "Control your entire smart home with voice commands and smartphone app."
  const Description7: string := "Non-slip yoga mat made from sustainable materials with alignment guides."
  const Description8: string := "Handcrafted chocolates with exotic flavors from around the world."

  const AllCategories: string := "All"

  const Categories: seq<string> := [
    "All", "Electronics", "Groceries", "Services", "Fashion",
    "Home & Garden", "Books & Media", "Sports & Outdoors", "Automotive"
  ]

  /** The first product with this slug: `sampleProducts.find(p => p.slug === slug)`. */
  function GetProductBySlug(catalog: seq<Product>, slug: string): (r: Option<Product>)
    ensures r.None? <==> forall i :: 0 <= i < |catalog| ==> catalog[i].slug != slug
    ensures r.Some? ==> exists i :: 0 <= i < |catalog| && catalog[i] == r.value && r.value.slug == slug
                                   && forall j :: 0 <= j < i ==> catalog[j].slug != slug
    decreases |catalog|
  {
    if catalog == [] then None
    else if catalog[0].slug == slug then
      Some(catalog[0])
    else
      var r := GetProductBySlug(catalog[1..], slug);
      if r.Some? then
        var i :| 0 <= i < |catalog[1..]| && catalog[1..][i] == r.value && r.value.slug == slug
                 && forall j :: 0 <= j < i ==> catalog[1..][j].slug != slug;
        assert catalog[i + 1] == r.value;
        assert forall j :: 0 <= j < i + 1 ==> catalog[j].slug != slug by {
          forall j | 0 <= j < i + 1 ensures catalog[j].slug != slug {
            if j > 0 { assert catalog[j] == catalog[1..][j - 1]; }
          }
        }
        r
      else
        assert forall i :: 0 <= i < |catalog| ==> catalog[i].slug != slug by {
          forall i | 0 <= i < |catalog| ensures catalog[i].slug != slug {
            if i > 0 { assert catalog[i] == catalog[1..][i - 1]; }
          }
        }
        None
  }

  predicate InCategory(category: string, p: Product) {
    p.category == category
  }

  /** `'All'` answers the catalogue itself; any other category, its products in catalogue order. */
  function GetProductsByCategory(catalog: seq<Product>, category: string): (r: seq<Product>)
    ensures category == AllCategories ==> r == catalog
    ensures category != AllCategories ==> forall p :: p in r <==> p in catalog && p.category == category
    ensures IsSubsequence(r, catalog)
  {
    if category == AllCategories then
      SubsequenceReflexive(catalog);
      catalog
    else Filter(catalog, p => InCategory(category, p))
  }

  /** When slugs are distinct, the product found is the only one with that slug. */
  lemma SlugLookupIsExact(catalog: seq<Product>, slug: string, k: nat)
    requires forall i, j :: 0 <= i < j < |catalog| ==> catalog[i].slug != catalog[j].slug
    requires k < |catalog| && catalog[k].slug == slug
    ensures GetProductBySlug(catalog, slug) == Some(catalog[k])
  {
  }

  /** Each product can be found by its own slug. */
  lemma SampleProductsFoundBySlug(loadedAt: seq<int>, k: nat)
    requires |loadedAt| == 8 && k < 8
    ensures GetProductBySlug(SampleProducts(loadedAt), SampleProducts(loadedAt)[k].slug) == Some(SampleProducts(loadedAt)[k])
  {
    SampleProductsInvariants(loadedAt);
    SlugLookupIsExact(SampleProducts(loadedAt), SampleProducts(loadedAt)[k].slug, k);
  }

  /**
   * The sample data's invariants: ids and slugs are pairwise distinct, stock
   * is never negative, every product is active and every product's category
   * is one of the listed categories (and is not `'All'`).
   */
  lemma SampleProductsInvariants(loadedAt: seq<int>)
    requires |loadedAt| == 8
    ensures var ps := SampleProducts(loadedAt);
            && (forall i, j :: 0 <= i < j < |ps| ==> ps[i].id != ps[j].id && ps[i].slug != ps[j].slug)
            && (forall i :: 0 <= i < |ps| ==> ps[i].stock >= 0 && ps[i].active && ps[i].priceCents > 0)
            && (forall i :: 0 <= i < |ps| ==> ps[i].category in Categories && ps[i].category != AllCategories)
  {
    SampleIdsDistinct(loadedAt);
    SampleSlugsDistinct(loadedAt);
    SampleStocksAndPrices(loadedAt);
    SampleCategoriesListed(loadedAt);
  }

  lemma SampleIdsDistinct(loadedAt: seq<int>)
    requires |loadedAt| == 8
    ensures var ps := SampleProducts(loadedAt);
            forall i, j :: 0 <= i < j < |ps| ==> ps[i].id != ps[j].id
  {
    var ps := SampleProducts(loadedAt);
    forall i, j | 0 <= i < j < |ps| ensures ps[i].id != ps[j].id {
      assert ps[i].id[0] != ps[j].id[0];
    }
  }

  lemma SampleSlugsDistinct(loadedAt: seq<int>)
    requires |loadedAt| == 8
    ensures var ps := SampleProducts(loadedAt);
            forall i, j :: 0 <= i < j < |ps| ==> ps[i].slug != ps[j].slug
  {
    var ps := SampleProducts(loadedAt);
    forall i, j | 0 <= i < j < |ps| ensures ps[i].slug != ps[j].slug {
      assert ps[i].slug[0] != ps[j].slug[0] || ps[i].slug[1] != ps[j].slug[1];
    }
  }

  lemma SampleStocksAndPrices(loadedAt: seq<int>)
    requires |loadedAt| == 8
    ensures var ps := SampleProducts(loadedAt);
            forall i :: 0 <= i < |ps| ==> ps[i].stock >= 0 && ps[i].active && ps[i].priceCents > 0
  {
  }

  lemma SampleCategoriesListed(loadedAt: seq<int>)
    requires |loadedAt| == 8
    ensures var ps := SampleProducts(loadedAt);
            forall i :: 0 <= i < |ps| ==> ps[i].category in Categories && ps[i].category != AllCategories
  {
  }

  /** A category no product carries lists nothing; so do the three listed categories without stock. */
  lemma EmptyCategory(catalog: seq<Product>, category: string)
    requires category != AllCategories
    requires forall i :: 0 <= i < |catalog| ==> catalog[i].category != category
    ensures GetProductsByCategory(catalog, category) == []
  {
    var r := GetProductsByCategory(catalog, category);
    FirstIsMember(r);
  }

  lemma FirstIsMember(s: seq<Product>)
    ensures s == [] || s[0] in s
  {
  }

  lemma ListedButEmptyCategories(loadedAt: seq<int>)
    requires |loadedAt| == 8
    ensures GetProductsByCategory(SampleProducts(loadedAt), "Home & Garden") == []
    ensures GetProductsByCategory(SampleProducts(loadedAt), "Books & Media") == []
    ensures GetProductsByCategory(SampleProducts(loadedAt), "Automotive") == []
  {
    var ps := SampleProducts(loadedAt);
    forall i | 0 <= i < |ps|
      ensures ps[i].category != "Home & Garden" && ps[i].category != "Books & Media" && ps[i].category != "Automotive"
    {
      assert ps[i].category[0] in {'E', 'G', 'S', 'F'};
    }
    EmptyCategory(ps, "Home & Garden");
    EmptyCategory(ps, "Books & Media");
    EmptyCategory(ps, "Automotive");
  }
}
