/**
 * The catalog card's image choice: a fixed table of six image URLs keyed by
 * product id overrides whatever image the product record carries.
 */
module ProductCard {
  import opened Catalog

  /** `imageMap` */
  const ImageTable: map<int, string> := map[
    1 := "https://images.unsplash.com/photo-1601784551446-20c9e07cdbdb?w=400&h=400&fit=crop",
    2 := "https://images.unsplash.com/photo-1556656793-08538906a9f8?w=400&h=400&fit=crop",
    3 := "https://images.unsplash.com/photo-1592779677260-dea1358c09d3?w=400&h=400&fit=crop",
    4 := "https://images.unsplash.com/photo-1572635196237-14b3f281503f?w=400&h=400&fit=crop",
    5 := "https://images.unsplash.com/photo-1511499767150-a48a237f0083?w=400&h=400&fit=crop",
    6 := "https://images.unsplash.com/photo-1508296695146-257a814070b4?w=400&h=400&fit=crop"]

  /** `getProductImage`: `imageMap[product.id] || product.image` */
  function ProductImage(p: Product): (url: string)
    ensures 1 <= p.id <= 6 ==> url == ImageTable[p.id] && url != ""
    ensures !(1 <= p.id <= 6) ==> url == p.image
  {
    if p.id in ImageTable && ImageTable[p.id] != "" then ImageTable[p.id] else p.image
  }

  /** The card's image depends on the product's id and image and on nothing else. */
  lemma ProductImageDependsOnIdAndImage(p: Product, q: Product)
    requires p.id == q.id && p.image == q.image
    ensures ProductImage(p) == ProductImage(q)
  {
  }

  /** The table agrees with the seed catalog, so on seeded products the override changes nothing. */
  lemma TableMatchesSeed(i: int)
    requires 0 <= i < 6
    ensures ImageTable[i + 1] == Seed()[i].image
    ensures ProductImage(Seed()[i]) == Seed()[i].image
  {
    SeedShape();
  }
}
