# Storefront cart store, catalog and listing filter in Dafny

This project models the logic of a client-side storefront. It has three parts.

- **Cart store** (`store.dfy`, module `Store`). It models `src/contexts/StoreContext.tsx`.
  - `Reduce` is `storeReducer`. It is a total function from a state and one of four
    actions (`AddToCart`, `RemoveFromCart`, `UpdateQuantity`, `ClearCart`) to the next
    state. The state is the cart lines in insertion order plus the derived subtotal.
  - `Reduce` also returns the toast the reducer shows, as a `Notice` value:
    - `Added` or `Updated` for an add;
    - `Removed` for a remove, and for an update to zero or less, even when no line matched;
    - `Cleared` for a clear;
    - `NoNotice` for a positive update.
  - `Subtotal` is `calculateSubtotal`: a left fold of `price * quantity` over the lines.
  - The class `StoreProvider` is the provider's single state cell. Its `Dispatch`
    replaces the held state by the reducer's result. `AddToCart`, `RemoveFromCart`,
    `UpdateQuantity` and `ClearCart` each dispatch one action.
- **Catalog** (`catalog.dfy`, module `Catalog`). It models `src/data/products.ts`: the
  eight-product catalog and its four accessors. `FindById`, `Featured`, `ByCategory` and
  `Categories` are stated for any catalog. `GetProductById`, `GetFeaturedProducts`,
  `GetProductsByCategory` and `GetAllCategories` apply them to the shipped catalog.
- **Listing filter** (`listing.dfy`, module `Listing`). It models the filter pipeline of
  `src/pages/ProductsPage.tsx`:
  - `ApplyFilters` applies a category filter when a category is set, then the inclusive
    price range, then a case-insensitive search over name or description when a term is set;
  - `ToggleCategory` is `handleCategoryChange`;
  - `ClearFilters` and `MaxPrice` model `clearFilters` and `maxPrice`.

Shared pieces:

- `seqs.dfy` (module `Seqs`): `Array.prototype.filter` as `Filter`, and
  `Array.from(new Set(...))` as `Dedup`, with their order properties.
- `models.dfy`: the `Product` and `CartItem` records.
- `store_scenarios.dfy`: worked runs of the reducer on small carts.

Money is modelled in integer cents (129.99 is `12999`), so the subtotal identity is exact.
Ratings are kept in tenths (4.8 is `48`). Quantities are unbounded integers.

Two behaviours of the code are kept as written:

- Adding a product whose id already has a line keeps that line's own product record. The
  record is spread from the old line at `src/contexts/StoreContext.tsx:38-41`. So the
  subtotal grows by the old record's price, not the passed product's price (`AddSubtotal`).
- A category toggle applied twice restores the previous filter only when that filter was
  empty or already that category. For example, toggling "furniture" twice from
  "electronics" ends on "" (`ToggleCategoryTwice` states the exact condition).

`getAllCategories` returns an array in first-appearance order, not a set. The model
follows that array (`CategoriesExactly`, `DedupFirstAppearanceOrder`).

## Model

| member | source | states |
|---|---|---|
| `Store.Subtotal` | src/contexts/StoreContext.tsx:22-24 | no contract; characterised by `SubtotalAppend`, `SubtotalReplace`, `SubtotalDelete` and `SubtotalNonNegative` |
| `Store.AddLine` | src/contexts/StoreContext.tsx:30-46 | no contract; characterised by `AddExisting`, `AddNew` and `AddLineCumulative` |
| `Store.RemoveLines` | src/contexts/StoreContext.tsx:56-58 | no contract; characterised by `RemoveDropsId`, `RemoveAbsent` and `RemovePresent` |
| `Store.SetQuantity` | src/contexts/StoreContext.tsx:84-88 | no contract; characterised by `UpdatePositive`, `SetQuantityAt` and `RemoveAfterSet` |
| `Store.SubtotalNonNegative` | src/contexts/StoreContext.tsx:22-24 | the subtotal is non-negative whenever every line has a non-negative price and quantity |
| `Store.SubtotalAppend` | src/contexts/StoreContext.tsx:22-24 | the subtotal of two concatenated carts is the sum of their subtotals |
| `Store.SubtotalReplace` | src/contexts/StoreContext.tsx:22-24 | replacing one line changes the recomputed subtotal by exactly the difference of the two line totals |
| `Store.SubtotalDelete` | src/contexts/StoreContext.tsx:22-24 | deleting one line lowers the recomputed subtotal by exactly that line's total |
| `Store.FindLine` | src/contexts/StoreContext.tsx:30-32 | returns -1 iff no line has the id; otherwise the first index whose line has the id |
| `Store.Reduce` | src/contexts/StoreContext.tsx:26-108 | after every action the state's subtotal equals the sum of price × quantity over its lines |
| `Store.AddExisting` | src/contexts/StoreContext.tsx:30-42 | adding an id that is in the cart keeps the length, raises the first matching line's quantity by the added amount in place, keeps that line's product, leaves every other line unchanged, and shows "updated" |
| `Store.AddNew` | src/contexts/StoreContext.tsx:43-45 | adding an id that is not in the cart appends `{product, quantity}` as the last line and shows "added" |
| `Store.AddSubtotal` | src/contexts/StoreContext.tsx:36-52 | from a consistent state, the new subtotal is the old one plus the added quantity times the price of the line's product |
| `Store.AddCumulative` | src/contexts/StoreContext.tsx:28-53 | adding a then b of a product gives the same state as adding a + b |
| `Store.AddLineCumulative` | src/contexts/StoreContext.tsx:30-46 | two successive adds of one product give the same cart as one add of the summed quantity |
| `Store.RemoveDropsId` | src/contexts/StoreContext.tsx:55-60 | after a remove no line has the id, the remaining lines are exactly the other lines, every copy kept, as a subsequence in original order, and "removed" is always shown |
| `Store.RemoveAbsent` | src/contexts/StoreContext.tsx:55-65 | removing an id that is not in the cart leaves a consistent state unchanged and still shows "removed" |
| `Store.RemovePresent` | src/contexts/StoreContext.tsx:55-65 | with one line per id, removing the id at index k deletes exactly line k and lowers the subtotal by its total |
| `Store.UpdateNonPositiveIsRemove` | src/contexts/StoreContext.tsx:71-81 | an update to a quantity ≤ 0 yields the same state and toast as a remove of that id |
| `Store.UpdatePositive` | src/contexts/StoreContext.tsx:84-94 | a positive update sets every matching line's quantity to exactly the value, keeps length, order and products, leaves other lines unchanged, and shows no toast |
| `Store.UpdateAbsent` | src/contexts/StoreContext.tsx:84-94 | a positive update of an id that is not in the cart leaves a consistent state unchanged |
| `Store.SetQuantityAt` | src/contexts/StoreContext.tsx:84-88 | with one line per id, the map over the cart replaces only line k |
| `Store.UpdateSubtotal` | src/contexts/StoreContext.tsx:84-94 | with one line per id, a positive update changes the subtotal by price × (new quantity − old quantity) |
| `Store.UpdateOverwrites` | src/contexts/StoreContext.tsx:68-95 | updates are absolute: a positive update followed by any update of the same id ends where the second update alone ends |
| `Store.RemoveAfterSet` | src/contexts/StoreContext.tsx:72-88 | removing an id after setting its quantity gives the same cart as removing it directly |
| `Store.ClearEmpties` | src/contexts/StoreContext.tsx:97-103 | clear yields the empty cart with subtotal 0 and "cleared" from any state, and is idempotent |
| `Store.RemoveKeepsUniqueIds` | src/contexts/StoreContext.tsx:56-58 | filtering a cart with one line per id keeps one line per id |
| `Store.ReduceKeepsUniqueIds` | src/contexts/StoreContext.tsx:26-108 | "at most one line per product id" is preserved by all four actions |
| `Store.ReduceKeepsPositiveQuantities` | src/contexts/StoreContext.tsx:26-108 | all lines keep positive quantities under every action except an add of a non-positive amount |
| `Store.RunKeepsInvariant` | src/contexts/StoreContext.tsx:120-137 | any sequence of dispatched actions keeps the subtotal consistent and one line per id |
| `Store.InitialInvariant` | src/contexts/StoreContext.tsx:17-20 | the initial state (empty cart, subtotal 0) satisfies the store invariant |
| `Store.StoreProvider.constructor` | src/contexts/StoreContext.tsx:120-121 | the provider starts with the empty cart and subtotal 0 |
| `Store.StoreProvider.Dispatch` | src/contexts/StoreContext.tsx:121 | the held state becomes the reducer's next state, the returned toast is the reducer's, and the invariant is kept |
| `Store.StoreProvider.AddToCart` | src/contexts/StoreContext.tsx:123-125 | dispatches an add; afterwards the product's id has a line, the toast says added or updated according to the old cart, and the subtotal grows by the priced quantity |
| `Store.StoreProvider.RemoveFromCart` | src/contexts/StoreContext.tsx:127-129 | dispatches a remove; afterwards no line has the id, the toast is "removed", and an absent id leaves the state unchanged |
| `Store.StoreProvider.UpdateQuantity` | src/contexts/StoreContext.tsx:131-133 | dispatches an update; a quantity ≤ 0 removes the id's lines, a positive one sets them to that quantity, keeps the length and shows no toast |
| `Store.StoreProvider.ClearCart` | src/contexts/StoreContext.tsx:135-137 | dispatches a clear; afterwards the state is the empty cart with subtotal 0 and the toast is "cleared" |
| `StoreScenarios.PricedRun` | src/contexts/StoreContext.tsx:26-108 | adding A ($12.99) once and B ($89.99) twice, setting A to 3 and removing B gives subtotals 12.99, 192.97, 218.95 and 38.97 |
| `StoreScenarios.CumulativeAdd` | src/contexts/StoreContext.tsx:28-53 | adding 2 and then 3 of a product leaves one line with quantity 5 |
| `StoreScenarios.AbsoluteUpdate` | src/contexts/StoreContext.tsx:68-95 | from quantity 5, updating to 2 gives 2, and updating to 0 or -1 removes the line |
| `StoreScenarios.InsertionOrder` | src/contexts/StoreContext.tsx:43-60 | adding A, B and C and then removing B leaves [A, C] |
| `StoreScenarios.RemoveAbsentKeepsState` | src/contexts/StoreContext.tsx:55-65 | removing an absent id leaves the state equal and still shows "removed" |
| `Catalog.Products` | src/data/products.ts:4-93 | the eight catalog records, field by field; characterised by `CatalogIds`, `CatalogIdsDistinct` and `CatalogPricesWithin` |
| `Catalog.Featured` | src/data/products.ts:99-101 | no contract; characterised by `FeaturedExactly` |
| `Catalog.ByCategory` | src/data/products.ts:103-105 | no contract; characterised by `ByCategoryExactly` |
| `Catalog.Categories` | src/data/products.ts:107-109 | no contract; characterised by `CategoriesExactly` |
| `Seqs.Filter` | src/data/products.ts:100 | `Array.prototype.filter`: the result is no longer than the input and holds exactly the input's elements that satisfy the predicate; each survivor keeps every copy (`Seqs.FilterCounts`) and order is kept (`Seqs.FilterIsSubsequence`) |
| `Seqs.FilterCounts` | src/data/products.ts:100 | `Array.prototype.filter` keeps every copy: each element satisfying the predicate occurs in the result exactly as often as in the input, any other element not at all |
| `Catalog.FindById` | src/data/products.ts:95-97 | returns nothing iff no product has the id; otherwise a catalog product with that id |
| `Catalog.FindByIdReturnsFirst` | src/data/products.ts:95-97 | the lookup returns the first product whose id matches |
| `Catalog.FindByIdUnambiguous` | src/data/products.ts:95-97 | with distinct ids, the lookup finds p exactly when p is the catalog product with that id |
| `Catalog.CatalogIds` | src/data/products.ts:4-93 | the catalog has eight products with ids 1 to 8 in order |
| `Catalog.CatalogIdsDistinct` | src/data/products.ts:4-93 | catalog ids are pairwise distinct, so `getProductById` returns p iff p is the catalog product with that id |
| `Catalog.GetProductById` | src/data/products.ts:95-97 | defined exactly for ids 1 to 8, and then returns the catalog product with that id |
| `Catalog.FeaturedExactly` | src/data/products.ts:99-101 | the featured list holds exactly the products with `featured` set, each as often as in the input, in catalog order |
| `Catalog.GetFeaturedProducts` | src/data/products.ts:99-101 | exactly the shipped catalog's featured products, each as often as in the catalog, in catalog order |
| `Catalog.ByCategoryExactly` | src/data/products.ts:103-105 | the category list holds exactly the products of that category, each as often as in the input, in catalog order |
| `Catalog.GetProductsByCategory` | src/data/products.ts:103-105 | exactly the shipped catalog's products of the category, each as often as in the catalog, in catalog order |
| `Catalog.CategoriesExactly` | src/data/products.ts:107-109 | the category list has no duplicates, holds exactly the categories occurring in the catalog, and lists them in order of first appearance |
| `Catalog.GetAllCategories` | src/data/products.ts:107-109 | the shipped catalog's categories, each once, exactly those that occur |
| `Seqs.Dedup` | src/data/products.ts:108 | the de-duplicated list has no repeats and the same elements as its input |
| `Seqs.DedupFirstAppearanceOrder` | src/data/products.ts:107-109 | values are listed in order of their first index in the input, as `Set` insertion order gives |
| `Listing.Lower` | src/pages/ProductsPage.tsx:42-46 | `toLowerCase` over ASCII: keeps the length; characterised by `LowerIdempotent` |
| `Listing.Includes` | src/pages/ProductsPage.tsx:45-46 | no contract; characterised by `IncludesIff` |
| `Listing.ApplyFilters` | src/pages/ProductsPage.tsx:28-49 | no contract; characterised by `ApplyFiltersIsOneFilter`, `ApplyFiltersExactly`, `ApplyFiltersSound` and `ApplyFiltersComplete` |
| `Listing.ToggleCategory` | src/pages/ProductsPage.tsx:58-60 | no contract; characterised by `ToggleCategoryTwice` |
| `Listing.ClearFilters` | src/pages/ProductsPage.tsx:62-66 | no contract; characterised by `ClearFiltersListsAll` and `CatalogClearFilters` |
| `Listing.LowerIdempotent` | src/pages/ProductsPage.tsx:42-46 | ASCII lowering is idempotent and leaves no upper-case letter |
| `Listing.IncludesIff` | src/pages/ProductsPage.tsx:45-46 | `includes` holds iff the term occurs as a slice of the string at some position |
| `Listing.ApplyFiltersIsOneFilter` | src/pages/ProductsPage.tsx:28-49 | the chain of filters equals one filter by the conjunction of the active predicates |
| `Listing.ApplyFiltersExactly` | src/pages/ProductsPage.tsx:28-49 | the listing is a subsequence of the catalog and holds exactly the products that pass every active filter, each as often as in the catalog |
| `Listing.ApplyFiltersSound` | src/pages/ProductsPage.tsx:31-47 | every listed product has the set category, a price within both inclusive bounds, and the lowered term in its lowered name or description when a term is set |
| `Listing.ApplyFiltersComplete` | src/pages/ProductsPage.tsx:28-49 | every catalog product that passes every active predicate is listed |
| `Listing.SearchIgnoresCase` | src/pages/ProductsPage.tsx:41-47 | searching for the lowered term lists the same products as the original term |
| `Listing.ToggleCategoryTwice` | src/pages/ProductsPage.tsx:58-60 | a toggle clears the filter iff it clicks the active category (or ""), otherwise selects the clicked one; two toggles restore the filter iff it was "" or that category |
| `Listing.MaxPrice` | src/pages/ProductsPage.tsx:25 | the result is the price of some product and no product costs more |
| `Listing.ClearFiltersListsAll` | src/pages/ProductsPage.tsx:62-66 | the reset is (category "", range [0, maximum price], term ""), and with it a catalog without negative prices is listed whole, in order |
| `Catalog.CatalogPricesWithin` | src/data/products.ts:4-93 | every shipped catalog price lies between 0 and 199.99 |
| `Listing.CatalogClearFilters` | src/pages/ProductsPage.tsx:25 | on the shipped catalog the reset range is [0, 199.99] and the listing is the whole catalog |

## Left out

- Rendering, styling and every page component other than the filter logic of the products page. These are presentation only.
- The `sonner` toast calls as side effects. The model returns the toast as a `Notice` value. Message texts are reduced to the toast kind and the product name.
- React machinery (`createContext`, `useContext`, `useReducer`, `useEffect` scheduling). The `useStore` check that throws outside a provider is also left out. The provider is a plain class holding the state.
- The reducer's `default: return state` branch. The action datatype is closed, so the branch cannot be reached.
- URL search-parameter syncing and navigation on the products page. These are browser I/O.
- The initial price range `[0, 200]` of the products page. The model covers only the filter, the toggle and the reset.
- The checkout and contact-form delays. These are asynchronous simulation outside the core.
- Floating-point behaviour. Prices are exact integer cents, so JavaScript double rounding, the 8% tax and `toFixed(2)` formatting are not modelled. Fractional or non-numeric quantities are also not modelled.
- Unicode case folding. `toLowerCase` is modelled over ASCII letters only.
- The `inStock` flag. The reducer never consults it.
- `Listing.MaxPrice`: requires a non-empty catalog. `Math.max` over an empty list gives `-Infinity`, which has no integer counterpart. The page only calls it on the fixed eight-product catalog.
- The concrete contents of `getFeaturedProducts()` and `getAllCategories()` on the shipped catalog are stated through their characterising ensures clauses only, not as literal lists.
