/**
 * The product page: it looks the route's id up in a fixed list, sends the
 * visitor home when nothing matches, and guards its add-to-cart button.
 */
module ProductDetail {
  import opened Text
  import opened Wrappers

  /** The product page's richer record, with features and a stock flag. */
  datatype DetailProduct = DetailProduct(
    id: int,
    name: string,
    category: string,
    price: int,
    image: string,
    description: string,
    features: seq<string>,
    inStock: bool)

  /** The page's fixed product list. */
  function Products(): seq<DetailProduct> {
    [ DetailProduct(1, "Clear iPhone 15 Case", "iphone-cases", 2500,
        "https://images.unsplash.com/photo-1601784551446-20c9e07cdbdb?w=500&h=500&fit=crop",
        "Crystal clear protection for your iPhone 15",
        ["Crystal Clear", "Drop Protection", "Wireless Charging Compatible", "Scratch Resistant"], true),
      DetailProduct(2, "Leather iPhone 15 Pro Case", "iphone-cases", 4500,
        "https://images.unsplash.com/photo-1556656793-08538906a9f8?w=500&h=500&fit=crop",
        "Premium leather case with card slots",
        ["Genuine Leather", "Card Slots", "Magnetic Closure", "Premium Feel"], true),
      DetailProduct(3, "MagSafe iPhone 14 Case", "iphone-cases", 3500,
        "https://images.unsplash.com/photo-1592779677260-dea1358c09d3?w=500&h=500&fit=crop",
        "Compatible with MagSafe charging",
        ["MagSafe Compatible", "Strong Magnets", "Easy Installation", "Wireless Charging"], true),
      DetailProduct(4, "Aviator Sunglasses", "sunglasses", 6500,
        "https://images.unsplash.com/photo-1572635196237-14b3f281503f?w=500&h=500&fit=crop",
        "Classic aviator style with UV protection",
        ["UV 400 Protection", "Metal Frame", "Classic Design", "Comfortable Fit"], true),
      DetailProduct(5, "Polarized Sport Sunglasses", "sunglasses", 8500,
        "https://images.unsplash.com/photo-1511499767150-a48a237f0083?w=500&h=500&fit=crop",
        "Perfect for outdoor activities",
        ["Polarized Lenses", "Sport Design", "Lightweight", "Anti-Glare"], true),
      DetailProduct(6, "Vintage Round Sunglasses", "sunglasses", 5500,
        "https://images.unsplash.com/photo-1508296695146-257a814070b4?w=500&h=500&fit=crop",
        "Retro style meets modern protection",
        ["Vintage Style", "Round Frame", "UV Protection", "Trendy Design"], true) ]
  }

  /** The position of the first product whose id is `id` (`===` never holds for NaN). */
  function FirstWithId(products: seq<DetailProduct>, id: Num): (r: Option<nat>)
    ensures r.Some? ==> r.value < |products| && Int(products[r.value].id) == id
    ensures r.Some? ==> forall j :: 0 <= j < r.value ==> Int(products[j].id) != id
    ensures r.None? ==> forall j :: 0 <= j < |products| ==> Int(products[j].id) != id
  {
    if products == [] then None
    else if Int(products[0].id) == id then Some(0)
    else match FirstWithId(products[1..], id)
         case None => None
         case Some(k) => Some(k + 1)
  }

  /** `products.find(p => p.id === parseInt(id || ""))` */
  function Lookup(products: seq<DetailProduct>, param: Option<string>): (r: Option<DetailProduct>)
    ensures var id := ParseInt(if param.Some? then param.value else "");
            && (r.Some? ==> r.value in products && Int(r.value.id) == id)
            && (r.None? <==> forall p :: p in products ==> Int(p.id) != id)
  {
    var id := ParseInt(if param.Some? then param.value else "");
    match FirstWithId(products, id)
    case None => None
    case Some(k) => Some(products[k])
  }

  /** A missing, empty or non-numeric route parameter finds nothing. */
  lemma LookupNotANumber(products: seq<DetailProduct>, param: Option<string>)
    requires param.None? || ParseInt(param.value) == NaN
    ensures Lookup(products, param) == None
  {
  }

  /** The fixed list holds ids 1 to 6 in order, all in stock. */
  lemma ProductsShape()
    ensures |Products()| == 6
    ensures forall j :: 0 <= j < 6 ==> Products()[j].id == j + 1 && Products()[j].inStock
  {
  }

  /** Every id 1 to 6 finds its own product in the fixed list, and that product is in stock. */
  lemma LookupFixedIds(n: int)
    requires 1 <= n <= 6
    ensures FirstWithId(Products(), Int(n)) == Some(n - 1)
    ensures Products()[n - 1].id == n && Products()[n - 1].inStock
  {
    ProductsShape();
    var found := FirstWithId(Products(), Int(n));
    assert Int(Products()[n - 1].id) == Int(n);
    assert found.Some?;
    assert Products()[found.value].id == found.value + 1;
  }

  /** The route "/product/n" for n from 1 to 6 shows product n. */
  lemma LookupRoute(n: int)
    requires 1 <= n <= 6
    ensures Lookup(Products(), Some(ToString(Int(n)))) == Some(Products()[n - 1])
  {
    ParseIntToString(Int(n));
    LookupFixedIds(n);
  }

  class ProductDetailPage {
    var product: Option<DetailProduct>
    var isLoading: bool
    /** The products handed to the cart context's `addToCart`, in call order. */
    var addedToCart: seq<DetailProduct>

    constructor ()
      ensures product == None && !isLoading && addedToCart == []
    {
      product := None;
      isLoading := false;
      addedToCart := [];
    }

    /** The mount effect for route parameter `param`: show the product, or go home. */
    method Load(param: Option<string>) returns (redirect: Option<string>)
      modifies this`product
      ensures var found := Lookup(Products(), param);
              && (found.Some? ==> product == found && redirect == None)
              && (found.None? ==> product == old(product) && redirect == Some("/"))
    {
      var found := Lookup(Products(), param);
      if found.Some? {
        product := found;
        redirect := None;
      } else {
        redirect := Some("/");
      }
    }

    /** The add-to-cart button is enabled only for a loaded, in-stock product while nothing is being added. */
    function CanAddToCart(): (ok: bool)
      reads this
      ensures ok ==> product.Some? && product.value.inStock
      ensures isLoading ==> !ok
    {
      product.Some? && !isLoading && product.value.inStock
    }

    /** `handleAddToCart`: nothing happens without a product. */
    method AddToCart()
      modifies this`isLoading, this`addedToCart
      ensures product.None? ==> addedToCart == old(addedToCart) && isLoading == old(isLoading)
      ensures product.Some? ==> addedToCart == old(addedToCart) + [product.value] && !isLoading
    {
      if product.None? {
        return;
      }
      isLoading := true;
      addedToCart := addedToCart + [product.value];
      isLoading := false;
    }
  }
}
