/** The static product catalog and its four read-only accessors (src/data/products.ts). */
module Catalog {
  import opened Models
  import opened Wrappers
  import opened Seqs

  // The catalog entries, with prices in cents and ratings in tenths.
  const Headphones := Product(1, "Wireless Bluetooth Headphones",
    "Experience crystal-clear sound with these premium wireless headphones featuring active noise cancellation and 30-hour battery life.",
    12999, "/placeholder.svg", "electronics", true, true, 48)
  const FitnessWatch := Product(2, "Smart Fitness Watch",
    "Track your fitness goals with this advanced smartwatch featuring heart rate monitoring, sleep tracking, and waterproof design.",
    8999, "/placeholder.svg", "electronics", true, true, 46)
  const OfficeChair := Product(3, "Ergonomic Office Chair",
    "Improve your work-from-home setup with this comfortable ergonomic chair featuring lumbar support and adjustable height.",
    19999, "/placeholder.svg", "furniture", false, true, 45)
  const WaterBottle := Product(4, "Stainless Steel Water Bottle",
    "Stay hydrated with this eco-friendly, vacuum-insulated water bottle that keeps drinks cold for 24 hours or hot for 12 hours.",
    2499, "/placeholder.svg", "accessories", false, true, 47)
  const ChargingPad := Product(5, "Wireless Charging Pad",
    "Charge your compatible devices wirelessly with this sleek, fast-charging pad featuring intelligent temperature control.",
    3499, "/placeholder.svg", "electronics", true, true, 44)
  const CuttingBoardSet := Product(6, "Bamboo Cutting Board Set",
    "Upgrade your kitchen with this sustainable bamboo cutting board set featuring three different sizes for all your food prep needs.",
    4299, "/placeholder.svg", "kitchen", false, true, 48)
  const Webcam := Product(7, "Ultra HD 4K Webcam",
    "Look your best during video calls with this crystal-clear 4K webcam featuring auto-focus and low-light correction technology.",
    7999, "/placeholder.svg", "electronics", false, true, 46)
  const YogaMat := Product(8, "Premium Yoga Mat",
    "Enhance your yoga practice with this eco-friendly, non-slip yoga mat featuring optimal cushioning and easy-to-clean surface.",
    4999, "/placeholder.svg", "fitness", true, true, 49)

  /** The fixed catalog, in the order `products.ts` lists it. */
  const Products: seq<Product> :=
    [Headphones, FitnessWatch, OfficeChair, WaterBottle, ChargingPad, CuttingBoardSet, Webcam, YogaMat]

  /** No two products of `ps` share an id. */
  predicate DistinctIds(ps: seq<Product>)
  {
    forall i, j :: 0 <= i < j < |ps| ==> ps[i].id != ps[j].id
  }

  /** `ps.find(p => p.id === id)`: the first product with that id, if any. */
  function FindById(ps: seq<Product>, id: int): (r: Option<Product>)
    ensures r.None? <==> forall i :: 0 <= i < |ps| ==> ps[i].id != id
    ensures r.Some? ==> r.value in ps && r.value.id == id
  {
    if ps == [] then None
    else if ps[0].id == id then Some(ps[0])
    else FindById(ps[1..], id)
  }

  /** `find` returns the earliest match. */
  lemma {:induction false} FindByIdReturnsFirst(ps: seq<Product>, id: int, k: nat)
    requires k < |ps| && ps[k].id == id
    requires forall j :: 0 <= j < k ==> ps[j].id != id
    ensures FindById(ps, id) == Some(ps[k])
  {
    if k > 0 {
      FindByIdReturnsFirst(ps[1..], id, k - 1);
    }
  }

  /** With distinct ids the lookup is unambiguous: it finds `p` exactly when `p` is the
      catalog product carrying that id. */
  lemma FindByIdUnambiguous(ps: seq<Product>, id: int, p: Product)
    requires DistinctIds(ps)
    ensures FindById(ps, id) == Some(p) <==> p in ps && p.id == id
  {
    if p in ps && p.id == id {
      var k :| 0 <= k < |ps| && ps[k] == p;
      FindByIdReturnsFirst(ps, id, k);
    }
  }

  /** The predicate `p => p.featured`. */
  predicate IsFeatured(p: Product)
  {
    p.featured
  }

  /** `ps.filter(p => p.featured)`. */
  function Featured(ps: seq<Product>): seq<Product>
  {
    Filter(ps, IsFeatured)
  }

  /** The featured products are exactly the flagged ones, in catalog order. */
  lemma FeaturedExactly(ps: seq<Product>)
    ensures forall p :: p in Featured(ps) <==> p in ps && p.featured
    ensures forall p :: multiset(Featured(ps))[p] == if p.featured then multiset(ps)[p] else 0
    ensures IsSubsequence(Featured(ps), ps)
  {
    FilterCounts(ps, IsFeatured);
    FilterIsSubsequence(ps, IsFeatured);
  }

  /** `ps.filter(p => p.category === category)`. */
  function ByCategory(ps: seq<Product>, category: string): seq<Product>
  {
    Filter(ps, (p: Product) => p.category == category)
  }

  /** The products of a category are exactly those whose category matches, in catalog order. */
  lemma ByCategoryExactly(ps: seq<Product>, category: string)
    ensures forall p :: p in ByCategory(ps, category) <==> p in ps && p.category == category
    ensures forall p :: multiset(ByCategory(ps, category))[p] ==
                       if p.category == category then multiset(ps)[p] else 0
    ensures IsSubsequence(ByCategory(ps, category), ps)
  {
    FilterCounts(ps, (p: Product) => p.category == category);
    FilterIsSubsequence(ps, (p: Product) => p.category == category);
  }

  /** `ps.map(p => p.category)`. */
  function CategoryColumn(ps: seq<Product>): (r: seq<string>)
    ensures |r| == |ps|
  {
    seq(|ps|, i requires 0 <= i < |ps| => ps[i].category)
  }

  /** `Array.from(new Set(ps.map(p => p.category)))`. */
  function Categories(ps: seq<Product>): seq<string>
  {
    Dedup(CategoryColumn(ps))
  }

  /** The category list has no repeats, holds exactly the categories that occur in `ps`,
      and lists them in order of first appearance. */
  lemma CategoriesExactly(ps: seq<Product>)
    ensures NoDuplicates(Categories(ps))
    ensures forall c :: c in Categories(ps) <==> exists i :: 0 <= i < |ps| && ps[i].category == c
    ensures forall i, j :: 0 <= i < j < |Categories(ps)| ==>
      FirstIndex(CategoryColumn(ps), Categories(ps)[i]) < FirstIndex(CategoryColumn(ps), Categories(ps)[j])
  {
    var col := CategoryColumn(ps);
    DedupFirstAppearanceOrder(col);
    forall c
      ensures c in Categories(ps) <==> exists i :: 0 <= i < |ps| && ps[i].category == c
    {
      if c in col {
        var i :| 0 <= i < |col| && col[i] == c;
        assert ps[i].category == c;
      }
      if exists i :: 0 <= i < |ps| && ps[i].category == c {
        var i :| 0 <= i < |ps| && ps[i].category == c;
        assert col[i] == c;
      }
    }
  }

  /** `getProductById(id)`. */
  function GetProductById(id: int): (r: Option<Product>)
    ensures r.Some? <==> 1 <= id <= 8
    ensures r.Some? ==> r.value.id == id && r.value in Products
  {
    CatalogIds();
    assert 1 <= id <= 8 ==> Products[id - 1].id == id;
    FindById(Products, id)
  }

  /** The catalog numbers its products 1 to 8 in order. */
  lemma CatalogIds()
    ensures |Products| == 8
    ensures forall i :: 0 <= i < |Products| ==> Products[i].id == i + 1
  {
  }

  /** Every catalog price lies between 0 and 199.99. */
  lemma CatalogPricesWithin()
    ensures forall i :: 0 <= i < |Products| ==> 0 <= Products[i].price <= 19999
  {
    var ps := Products;
    assert |ps| == 8;
    assert ps[0].price == 12999 && ps[1].price == 8999 && ps[2].price == 19999 && ps[3].price == 2499;
    assert ps[4].price == 3499 && ps[5].price == 4299 && ps[6].price == 7999 && ps[7].price == 4999;
  }

  /** `getFeaturedProducts()`. */
  function GetFeaturedProducts(): (r: seq<Product>)
    ensures forall p :: p in r <==> p in Products && p.featured
    ensures forall p :: multiset(r)[p] == if p.featured then multiset(Products)[p] else 0
    ensures IsSubsequence(r, Products)
  {
    FeaturedExactly(Products);
    Featured(Products)
  }

  /** `getProductsByCategory(category)`. */
  function GetProductsByCategory(category: string): (r: seq<Product>)
    ensures forall p :: p in r <==> p in Products && p.category == category
    ensures forall p :: multiset(r)[p] == if p.category == category then multiset(Products)[p] else 0
    ensures IsSubsequence(r, Products)
  {
    ByCategoryExactly(Products, category);
    ByCategory(Products, category)
  }

  /** `getAllCategories()`. */
  function GetAllCategories(): (r: seq<string>)
    ensures NoDuplicates(r)
    ensures forall c :: c in r <==> exists i :: 0 <= i < |Products| && Products[i].category == c
  {
    CategoriesExactly(Products);
    Categories(Products)
  }

  /** The catalog's ids are pairwise distinct, so `getProductById` is unambiguous. */
  lemma CatalogIdsDistinct()
    ensures DistinctIds(Products)
    ensures forall id, p :: GetProductById(id) == Some(p) <==> p in Products && p.id == id
  {
    CatalogIds();
    forall id, p ensures GetProductById(id) == Some(p) <==> p in Products && p.id == id {
      FindByIdUnambiguous(Products, id, p);
    }
  }
}
