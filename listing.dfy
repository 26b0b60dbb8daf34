/** The product listing's filter (src/pages/ProductsPage.tsx): category, inclusive price
    range and case-insensitive text search applied to the catalog one after the other,
    plus the category toggle and the filter reset. */
module Listing {
  import opened Models
  import opened Seqs
  import Catalog

  /** The filter inputs: a category ("" for all), an inclusive price range in cents, and
      a search term ("" for none). */
  datatype Filters = Filters(category: string, minPrice: int, maxPrice: int, searchTerm: string)

  /** `toLowerCase` on one character, over ASCII only. */
  function LowerChar(c: char): char
  {
    if 'A' <= c <= 'Z' then (c as int + 32) as char else c
  }

  /** `toLowerCase` on a string, over ASCII only. */
  function Lower(s: string): (r: string)
    ensures |r| == |s|
  {
    seq(|s|, i requires 0 <= i < |s| => LowerChar(s[i]))
  }

  /** Lowering is idempotent, so a lowered string has no upper-case letters left. */
  lemma LowerIdempotent(s: string)
    ensures Lower(Lower(s)) == Lower(s)
    ensures forall i :: 0 <= i < |s| ==> !('A' <= Lower(s)[i] <= 'Z')
  {
  }

  /** `t` occurs at the start of `s`. */
  predicate StartsWith(s: string, t: string)
  {
    |t| <= |s| && s[..|t|] == t
  }

  /** `s.includes(t)`: `t` occurs in `s` at some position. */
  function Includes(s: string, t: string): bool
  {
    StartsWith(s, t) || (s != [] && Includes(s[1..], t))
  }

  /** `t` occurs in `s` starting at position `i`. */
  predicate OccursAt(s: string, t: string, i: int)
  {
    0 <= i && i + |t| <= |s| && s[i..i + |t|] == t
  }

  /** `Includes` holds exactly when `t` occurs in `s` at some position. */
  lemma {:induction false} IncludesIff(s: string, t: string)
    ensures Includes(s, t) <==> exists i :: OccursAt(s, t, i)
  {
    if s == [] {
      if exists i :: OccursAt(s, t, i) {
        var i :| OccursAt(s, t, i);
        assert t == [];
      }
      if Includes(s, t) {
        assert OccursAt(s, t, 0);
      }
    } else {
      IncludesIff(s[1..], t);
      if StartsWith(s, t) {
        assert OccursAt(s, t, 0);
      } else if Includes(s[1..], t) {
        var j :| OccursAt(s[1..], t, j);
        assert s[1..][j..j + |t|] == s[j + 1..j + 1 + |t|];
        assert OccursAt(s, t, j + 1);
      }
      if exists i :: OccursAt(s, t, i) {
        var i :| OccursAt(s, t, i);
        if i > 0 {
          assert s[1..][i - 1..i - 1 + |t|] == s[i..i + |t|];
          assert OccursAt(s[1..], t, i - 1);
        }
      }
    }
  }

  /** A product's lowered name or lowered description contains `term`. */
  predicate MentionsTerm(p: Product, term: string)
  {
    Includes(Lower(p.name), term) || Includes(Lower(p.description), term)
  }

  /** The filter predicate `p => p.category === category`. */
  function CategoryIs(category: string): Product -> bool
  {
    (p: Product) => p.category == category
  }

  /** The filter predicate `p => p.price >= lo && p.price <= hi`. */
  function PriceWithin(lo: int, hi: int): Product -> bool
  {
    (p: Product) => p.price >= lo && p.price <= hi
  }

  /** The filter predicate for a lowered search term. */
  function Mentions(term: string): Product -> bool
  {
    (p: Product) => MentionsTerm(p, term)
  }

  /** The listing filter: the category filter when a category is set, then the price
      range, then the search term when one is set, each a `filter` of the previous list. */
  function ApplyFilters(ps: seq<Product>, f: Filters): seq<Product>
  {
    var byCategory := if f.category != "" then Filter(ps, CategoryIs(f.category)) else ps;
    var byPrice := Filter(byCategory, PriceWithin(f.minPrice, f.maxPrice));
    if f.searchTerm != "" then Filter(byPrice, Mentions(Lower(f.searchTerm))) else byPrice
  }

  /** A product passes every active filter: the category when one is set, the inclusive
      price range, and the case-insensitive search when a term is set. */
  predicate Matches(p: Product, f: Filters)
  {
    (f.category != "" ==> p.category == f.category) &&
    f.minPrice <= p.price <= f.maxPrice &&
    (f.searchTerm != "" ==> MentionsTerm(p, Lower(f.searchTerm)))
  }

  /** `Matches` as a filter predicate. */
  function Selects(f: Filters): Product -> bool
  {
    (p: Product) => Matches(p, f)
  }

  /** The chain of filters is one filter by the conjunction of the active predicates. */
  lemma ApplyFiltersIsOneFilter(ps: seq<Product>, f: Filters)
    ensures ApplyFilters(ps, f) == Filter(ps, Selects(f))
  {
    var price := PriceWithin(f.minPrice, f.maxPrice);
    var byCategory := if f.category != "" then Filter(ps, CategoryIs(f.category)) else ps;
    var first := if f.category != "" then (p: Product) => p.category == f.category && price(p) else price;
    if f.category != "" {
      FilterCompose(ps, CategoryIs(f.category), price, first);
    }
    assert Filter(byCategory, price) == Filter(ps, first);
    if f.searchTerm != "" {
      FilterCompose(ps, first, Mentions(Lower(f.searchTerm)), Selects(f));
    } else {
      FilterCongruence(ps, first, Selects(f));
    }
  }

  /** The listing is a subsequence of the catalog (its order is kept) and holds exactly
      the catalog products that pass every active filter, each as often as in the catalog. */
  lemma ApplyFiltersExactly(ps: seq<Product>, f: Filters)
    ensures IsSubsequence(ApplyFilters(ps, f), ps)
    ensures forall p :: p in ApplyFilters(ps, f) <==> p in ps && Matches(p, f)
    ensures forall p :: multiset(ApplyFilters(ps, f))[p] == if Matches(p, f) then multiset(ps)[p] else 0
  {
    ApplyFiltersIsOneFilter(ps, f);
    FilterCounts(ps, Selects(f));
    FilterIsSubsequence(ps, Selects(f));
  }

  /** Every listed product has the chosen category (when one is set), a price within the
      inclusive range, and (when a term is set) the lowered term in its lowered name or
      lowered description. */
  lemma ApplyFiltersSound(ps: seq<Product>, f: Filters)
    ensures forall p :: p in ApplyFilters(ps, f) ==>
      (f.category != "" ==> p.category == f.category) &&
      f.minPrice <= p.price && p.price <= f.maxPrice &&
      (f.searchTerm != "" ==>
        Includes(Lower(p.name), Lower(f.searchTerm)) || Includes(Lower(p.description), Lower(f.searchTerm)))
  {
    ApplyFiltersExactly(ps, f);
  }

  /** Every catalog product that passes every active filter is listed. */
  lemma ApplyFiltersComplete(ps: seq<Product>, f: Filters, p: Product)
    requires p in ps
    requires f.category != "" ==> p.category == f.category
    requires f.minPrice <= p.price <= f.maxPrice
    requires f.searchTerm != "" ==> MentionsTerm(p, Lower(f.searchTerm))
    ensures p in ApplyFilters(ps, f)
  {
    ApplyFiltersExactly(ps, f);
  }

  /** The search ignores case: searching for the lowered term lists the same products. */
  lemma SearchIgnoresCase(ps: seq<Product>, f: Filters)
    ensures ApplyFilters(ps, f.(searchTerm := Lower(f.searchTerm))) == ApplyFilters(ps, f)
  {
    LowerIdempotent(f.searchTerm);
    assert Lower(f.searchTerm) == "" <==> f.searchTerm == "";
  }

  /** `handleCategoryChange`: clicking the active category clears it, any other selects it. */
  function ToggleCategory(current: string, category: string): string
  {
    if current == category then "" else category
  }

  /** A toggle ends on "" exactly when it clicks the active category (or the "" category),
      and otherwise selects the clicked one. Clicking the same category twice restores the
      filter exactly when it started with no category or with that category. */
  lemma ToggleCategoryTwice(current: string, category: string)
    ensures ToggleCategory(current, category) == "" <==> current == category || category == ""
    ensures current != category ==> ToggleCategory(current, category) == category
    ensures ToggleCategory(ToggleCategory(current, category), category) == current <==>
      current == "" || current == category
  {
  }

  /** `Math.max(...ps.map(p => p.price))`, the highest price of a non-empty catalog. */
  function MaxPrice(ps: seq<Product>): (r: int)
    requires |ps| > 0
    ensures exists i :: 0 <= i < |ps| && ps[i].price == r
    ensures forall i :: 0 <= i < |ps| ==> ps[i].price <= r
  {
    if |ps| == 1 then ps[0].price
    else
      var rest := MaxPrice(ps[1..]);
      assert forall i :: 1 <= i < |ps| ==> ps[i] == ps[1..][i - 1];
      if ps[0].price >= rest then ps[0].price else rest
  }

  /** `clearFilters`: no category, the range from 0 to the catalog maximum, no term. */
  function ClearFilters(ps: seq<Product>): Filters
    requires |ps| > 0
  {
    Filters("", 0, MaxPrice(ps), "")
  }

  /** After the reset, a catalog with no negative prices is listed whole, in order. */
  lemma ClearFiltersListsAll(ps: seq<Product>)
    requires |ps| > 0
    requires forall i :: 0 <= i < |ps| ==> ps[i].price >= 0
    ensures ClearFilters(ps).category == "" && ClearFilters(ps).searchTerm == ""
    ensures ClearFilters(ps).minPrice == 0
    ensures forall i :: 0 <= i < |ps| ==> ps[i].price <= ClearFilters(ps).maxPrice
    ensures ApplyFilters(ps, ClearFilters(ps)) == ps
  {
    var f := ClearFilters(ps);
    FilterKeepsAll(ps, PriceWithin(f.minPrice, f.maxPrice));
  }

  /** On the shipped catalog the reset range is [0, 199.99] and lists every product. */
  lemma CatalogClearFilters()
    ensures ClearFilters(Catalog.Products) == Filters("", 0, 19999, "")
    ensures ApplyFilters(Catalog.Products, ClearFilters(Catalog.Products)) == Catalog.Products
  {
    Catalog.CatalogPricesWithin();
    var m := MaxPrice(Catalog.Products);
    assert Catalog.Products[2].price == 19999;
    ClearFiltersListsAll(Catalog.Products);
  }
}
