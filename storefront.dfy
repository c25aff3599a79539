/**
 * The home page: it loads the catalog from storage (seeding it on first
 * run), shows the products of the selected category and counts each
 * category for the filter buttons.
 */
module Storefront {
  import opened Catalog

  /** The storage key under which the catalog is kept. */
  const ProductsKey := "urbanaura_products"

  /** The category value that disables filtering. */
  const AllCategories := "all"

  /** `filteredProducts`: the whole list for "all", otherwise the products of that category. */
  function Visible(products: seq<Product>, selected: string): (r: seq<Product>)
    ensures selected == AllCategories ==> r == products
    ensures selected != AllCategories ==>
              forall p :: p in r <==> p in products && p.category == selected
    ensures |r| <= |products|
  {
    if selected == AllCategories then products else OfCategory(products, selected)
  }

  /** The selected category's list keeps the catalog's order: it distributes over concatenation. */
  lemma VisibleKeepsOrder(a: seq<Product>, b: seq<Product>, selected: string)
    ensures Visible(a + b, selected) == Visible(a, selected) + Visible(b, selected)
  {
    if selected != AllCategories {
      FilterConcat(a, b, CategoryIs(selected));
    }
  }

  /** The seed catalog shows three products under either category button and six under "all". */
  lemma VisibleSeed()
    ensures |Visible(Seed(), IphoneCases)| == 3
    ensures |Visible(Seed(), Sunglasses)| == 3
    ensures |Visible(Seed(), AllCategories)| == 6
  {
    SeedCategories();
  }

  class StorefrontPage {
    var products: seq<Product>
    var selectedCategory: string
    /** The browser storage entries this page reads and writes, already decoded. */
    var storage: map<string, seq<Product>>

    /** The page's first render: no products yet, every category selected. */
    constructor (stored: map<string, seq<Product>>)
      ensures products == [] && selectedCategory == AllCategories && storage == stored
    {
      products := [];
      selectedCategory := AllCategories;
      storage := stored;
    }

    /** The mount effect: use the stored catalog, or seed and store the default one. */
    method LoadCatalog()
      modifies this`products, this`storage
      ensures ProductsKey in old(storage) ==>
                products == old(storage)[ProductsKey] && storage == old(storage)
      ensures ProductsKey !in old(storage) ==>
                products == Seed() && storage == old(storage)[ProductsKey := Seed()]
      ensures ProductsKey in storage && storage[ProductsKey] == products
      ensures forall k :: k in old(storage) && k != ProductsKey ==> k in storage && storage[k] == old(storage)[k]
    {
      if ProductsKey in storage {
        products := storage[ProductsKey];
      } else {
        var initial := Seed();
        products := initial;
        storage := storage[ProductsKey := initial];
      }
    }

    /** A category button's click handler. */
    method SelectCategory(category: string)
      modifies this`selectedCategory
      ensures selectedCategory == category
    {
      selectedCategory := category;
    }

    /** The counts shown on the two category buttons. */
    method CategoryCounts() returns (cases: nat, glasses: nat)
      ensures cases == |OfCategory(products, IphoneCases)|
      ensures glasses == |OfCategory(products, Sunglasses)|
      ensures cases + glasses <= |products|
    {
      cases := |OfCategory(products, IphoneCases)|;
      glasses := |OfCategory(products, Sunglasses)|;
      CategoriesFit(products);
    }
  }
}
