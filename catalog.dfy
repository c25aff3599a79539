/**
 * The product record shared by the storefront, admin and card views, the
 * six-product catalog seeded on first run, and the list filters the pages
 * build with `Array.prototype.filter`.
 */
module Catalog {
  import opened Text

  const IphoneCases := "iphone-cases"
  const Sunglasses := "sunglasses"

  /** A catalog entry; `price` is whatever `parseInt` gave the admin form. */
  datatype Product = Product(
    id: int,
    name: string,
    category: string,
    price: Num,
    image: string,
    description: string)

  /** The catalog written to storage when none is found there. */
  function Seed(): (s: seq<Product>)
    ensures |s| == 6
  {
    [ Product(1, "Clear iPhone 15 Case", IphoneCases, Int(2500),
              "https://images.unsplash.com/photo-1601784551446-20c9e07cdbdb?w=400&h=400&fit=crop",
              "Crystal clear protection for your iPhone 15"),
      Product(2, "Leather iPhone 15 Pro Case", IphoneCases, Int(4500),
              "https://images.unsplash.com/photo-1556656793-08538906a9f8?w=400&h=400&fit=crop",
              "Premium leather case with card slots"),
      Product(3, "MagSafe iPhone 14 Case", IphoneCases, Int(3500),
              "https://images.unsplash.com/photo-1592779677260-dea1358c09d3?w=400&h=400&fit=crop",
              "Compatible with MagSafe charging"),
      Product(4, "Aviator Sunglasses", Sunglasses, Int(6500),
              "https://images.unsplash.com/photo-1572635196237-14b3f281503f?w=400&h=400&fit=crop",
              "Classic aviator style with UV protection"),
      Product(5, "Polarized Sport Sunglasses", Sunglasses, Int(8500),
              "https://images.unsplash.com/photo-1511499767150-a48a237f0083?w=400&h=400&fit=crop",
              "Perfect for outdoor activities"),
      Product(6, "Vintage Round Sunglasses", Sunglasses, Int(5500),
              "https://images.unsplash.com/photo-1508296695146-257a814070b4?w=400&h=400&fit=crop",
              "Retro style meets modern protection") ]
  }

  /** `s.filter(keep)`: the elements `keep` accepts, in their original order. */
  function Filter<T(!new)>(s: seq<T>, keep: T -> bool): (r: seq<T>)
    ensures |r| <= |s|
    ensures forall x :: x in r <==> x in s && keep(x)
  {
    if s == [] then []
    else if keep(s[0]) then [s[0]] + Filter(s[1..], keep)
    else Filter(s[1..], keep)
  }

  /** Filtering distributes over concatenation, so kept elements keep their relative order. */
  lemma {:induction false} FilterConcat<T(!new)>(a: seq<T>, b: seq<T>, keep: T -> bool)
    ensures Filter(a + b, keep) == Filter(a, keep) + Filter(b, keep)
  {
    if a == [] {
      assert a + b == b;
    } else {
      assert (a + b)[0] == a[0] && (a + b)[1..] == a[1..] + b;
      FilterConcat(a[1..], b, keep);
    }
  }

  /** A filter that accepts everything changes nothing. */
  lemma {:induction false} FilterKeepsAll<T(!new)>(s: seq<T>, keep: T -> bool)
    requires forall x :: x in s ==> keep(x)
    ensures Filter(s, keep) == s
  {
    if s != [] {
      FilterKeepsAll(s[1..], keep);
    }
  }

  /** A filter that accepts nothing leaves nothing. */
  lemma {:induction false} FilterKeepsNone<T(!new)>(s: seq<T>, keep: T -> bool)
    requires forall x :: x in s ==> !keep(x)
    ensures Filter(s, keep) == []
  {
    if s != [] {
      FilterKeepsNone(s[1..], keep);
    }
  }

  /** Two filters that never accept the same element take at most `|s|` elements between them. */
  lemma {:induction false} DisjointFiltersFit<T(!new)>(s: seq<T>, f: T -> bool, g: T -> bool)
    requires forall x :: x in s ==> !(f(x) && g(x))
    ensures |Filter(s, f)| + |Filter(s, g)| <= |s|
  {
    if s != [] {
      DisjointFiltersFit(s[1..], f, g);
    }
  }

  /** The test `p => p.category === category`. */
  function CategoryIs(category: string): Product -> bool {
    (p: Product) => p.category == category
  }

  /** The test `p => p.id !== id`. */
  function IdIsNot(id: int): Product -> bool {
    (p: Product) => p.id != id
  }

  /** `products.filter(p => p.category === category)` */
  function OfCategory(products: seq<Product>, category: string): (r: seq<Product>)
    ensures forall p :: p in r <==> p in products && p.category == category
  {
    Filter(products, CategoryIs(category))
  }

  /** `products.filter(p => p.id !== id)` */
  function WithoutId(products: seq<Product>, id: int): (r: seq<Product>)
    ensures forall p :: p in r <==> p in products && p.id != id
  {
    Filter(products, IdIsNot(id))
  }

  /** The two category lists of a catalog never hold more products than the catalog. */
  lemma CategoriesFit(products: seq<Product>)
    ensures |OfCategory(products, IphoneCases)| + |OfCategory(products, Sunglasses)| <= |products|
  {
    DisjointFiltersFit(products, CategoryIs(IphoneCases), CategoryIs(Sunglasses));
  }

  /** The seed catalog: ids 1 to 6 in order, three cases followed by three pairs of sunglasses. */
  lemma SeedShape()
    ensures |Seed()| == 6
    ensures forall i :: 0 <= i < 6 ==> Seed()[i].id == i + 1
    ensures forall i :: 0 <= i < 3 ==> Seed()[i].category == IphoneCases
    ensures forall i :: 3 <= i < 6 ==> Seed()[i].category == Sunglasses
    ensures forall i :: 0 <= i < 6 ==> Seed()[i].price.Int? && Seed()[i].price.value > 0
  {
  }

  lemma SeedHalves()
    ensures forall x :: x in Seed()[..3] ==> x.category == IphoneCases
    ensures forall x :: x in Seed()[3..] ==> x.category == Sunglasses
  {
    var s := Seed();
    SeedShape();
    forall x | x in s[..3] ensures x.category == IphoneCases {
      var i :| 0 <= i < 3 && s[..3][i] == x;
    }
    forall x | x in s[3..] ensures x.category == Sunglasses {
      var i :| 0 <= i < 3 && s[3..][i] == x;
      assert x == s[i + 3];
    }
  }

  /** A filter that keeps a prefix of `s` and drops the rest returns that prefix. */
  lemma FilterPrefix<T(!new)>(s: seq<T>, k: nat, keep: T -> bool)
    requires k <= |s|
    requires forall x :: x in s[..k] ==> keep(x)
    requires forall x :: x in s[k..] ==> !keep(x)
    ensures Filter(s, keep) == s[..k]
  {
    assert s == s[..k] + s[k..];
    FilterConcat(s[..k], s[k..], keep);
    FilterKeepsAll(s[..k], keep);
    FilterKeepsNone(s[k..], keep);
    assert s[..k] + [] == s[..k];
  }

  /** A filter that drops a prefix of `s` and keeps the rest returns the rest. */
  lemma FilterSuffix<T(!new)>(s: seq<T>, k: nat, keep: T -> bool)
    requires k <= |s|
    requires forall x :: x in s[..k] ==> !keep(x)
    requires forall x :: x in s[k..] ==> keep(x)
    ensures Filter(s, keep) == s[k..]
  {
    assert s == s[..k] + s[k..];
    FilterConcat(s[..k], s[k..], keep);
    FilterKeepsNone(s[..k], keep);
    FilterKeepsAll(s[k..], keep);
    assert [] + s[k..] == s[k..];
  }

  /** The seed catalog splits into exactly its first three and its last three products. */
  lemma SeedCategories()
    ensures OfCategory(Seed(), IphoneCases) == Seed()[..3]
    ensures OfCategory(Seed(), Sunglasses) == Seed()[3..]
  {
    SeedHalves();
    assert |IphoneCases| != |Sunglasses|;
    FilterPrefix(Seed(), 3, CategoryIs(IphoneCases));
    FilterSuffix(Seed(), 3, CategoryIs(Sunglasses));
  }
}
