# Storefront favorites/cart store and catalog filter, in Dafny

This project models the state logic of a small React storefront.

- **The shared store** (`AppProvider` in `src/contexts/AppContext.tsx`) holds two ordered lists for a browsing session: the favorite products and the cart lines. Six operations replace those lists: `addToFavorites`, `removeFromFavorites`, `addToCart`, `removeFromCart`, `updateCartQuantity` and `clearCart`. The `isFavorite` query only reads them. Two folds read the cart: `getTotalPrice` and `getTotalItems`.
- **The catalog filter** of the shop page (`filteredProducts` in `src/pages/Shop.tsx`) lists a product when its lower-cased name contains the lower-cased search term and its category is the selected one. The category `"All"` selects every category.

Layout:

- `store.dfy`, module `Store`:
  - `Product` and `CartItem` are datatypes. A cart line copies the product's fields when it is created and adds a `quantity`.
  - Each state transition is a pure function of the previous list: `WithFavorite`, `WithoutFavorite`, `WithItem`, `WithoutItem` and `WithQuantity`. Their helpers are `Incremented` and `Reassigned`, the two `map`s.
  - The totals are left folds from 0 (`TotalPrice`, `TotalItems`), as `reduce` computes them.
  - Lemmas state the store's promises. These are: one entry per id, quantities that accumulate on repeated adds, exact totals, idempotent removal, and frame conditions.
  - The class `AppStore` holds `favorites` and `cart` as fields. Each method replaces a field with the result of the matching function. `Valid()` (one entry per id in both lists) is established by the constructor and kept by every method.
- `shop.dfy`, module `Shop`:
  - ASCII lower-casing (`LowerChar`, `ToLower`) and `Includes`, a substring test.
  - The tests `MatchesSearch`, `MatchesCategory` and `Matches`.
  - `FilteredProducts`, together with lemmas about order, membership, the `"All"` category, the empty search term and case-insensitivity.

Prices and quantities are `int`: the catalog prices are whole numbers (src/pages/Shop.tsx:33). The `addToCart` default quantity of 1 is the constant `Store.DefaultQuantity`, which callers that omit the argument pass.

## Model

| member | source | states |
|---|---|---|
| `Store.NewItem` | src/contexts/AppContext.tsx:62 | the new line `{...product, quantity}` gives back exactly the product's fields and holds `quantity` units |
| `Store.HasFavorite` | src/contexts/AppContext.tsx:38 | the `find`/`some` test: true iff some favorite has the id |
| `Store.WithFavorite` | src/contexts/AppContext.tsx:36-42 | if the id is already a favorite the list is returned unchanged; otherwise the product is appended at the end (old list is a prefix, length +1, last element is the product); the id is a favorite afterwards |
| `Store.WithFavoriteInvariants` | src/contexts/AppContext.tsx:36-42 | adding keeps at most one favorite per id; the ids afterwards are exactly the old ids plus the product's |
| `Store.WithoutFavorite` | src/contexts/AppContext.tsx:45 | the `filter` of `removeFromFavorites`: never longer than the list; with `WithoutFavoriteIds`, `WithoutFavoriteMembers` and `WithoutFavoriteConcat` it keeps exactly the entries with another id, in order |
| `Store.WithoutFavoriteIds` | src/contexts/AppContext.tsx:44-46 | after removal an id is present iff it was present before and is not the removed id |
| `Store.WithoutFavoriteMembers` | src/contexts/AppContext.tsx:45 | the entries kept are exactly the old entries whose id differs |
| `Store.WithoutFavoriteConcat` | src/contexts/AppContext.tsx:45 | removal acts on each part of a concatenation separately, so the kept entries stay in their order |
| `Store.WithoutFavoriteUnique` | src/contexts/AppContext.tsx:44-46 | removal keeps at most one favorite per id |
| `Store.WithoutFavoriteAbsent` | src/contexts/AppContext.tsx:44-46 | removing an id that is not present changes nothing |
| `Store.WithoutFavoriteIdempotent` | src/contexts/AppContext.tsx:44-46 | removing the same id twice equals removing it once |
| `Store.FavoriteRoundTrip` | src/contexts/AppContext.tsx:36-50 | add then remove by id leaves the id no favorite; when it was not a favorite before, the list is back to exactly what it was |
| `Store.HasItem` | src/contexts/AppContext.tsx:54 | the `find` test on the cart: true iff some line has the id |
| `Store.Incremented` | src/contexts/AppContext.tsx:56-60 | the `map` of `addToCart` keeps the number of lines; `IncrementedLines` gives each line |
| `Store.IncrementedLines` | src/contexts/AppContext.tsx:56-60 | line by line, each line with the id gets `quantity` more units and keeps every other field; every other line is unchanged |
| `Store.WithItem` | src/contexts/AppContext.tsx:52-64 | existing id: same length, the matching line's quantity becomes old + q with its snapshot fields kept, other lines unchanged; new id: one line `{...product, quantity}` appended at the end |
| `Store.WithItemInvariants` | src/contexts/AppContext.tsx:52-64 | adding keeps at most one line per id; the ids afterwards are the old ids plus the product's; quantities stay positive when q >= 1 |
| `Store.WithoutItem` | src/contexts/AppContext.tsx:67 | the `filter` of `removeFromCart`: never longer than the cart; with `WithoutItemIds`, `WithoutItemMembers` and `WithoutItemConcat` it keeps exactly the lines with another id, in order |
| `Store.WithoutItemIds` | src/contexts/AppContext.tsx:66-68 | after removal an id has a line iff it had one before and is not the removed id |
| `Store.WithoutItemMembers` | src/contexts/AppContext.tsx:67 | the lines kept are exactly the old lines whose id differs |
| `Store.WithoutItemConcat` | src/contexts/AppContext.tsx:67 | removal acts on each part of a concatenation separately, so the kept lines stay in their order |
| `Store.WithoutItemInvariants` | src/contexts/AppContext.tsx:66-68 | removal keeps at most one line per id and keeps quantities positive |
| `Store.WithoutItemAbsent` | src/contexts/AppContext.tsx:66-68 | removing an id without a line changes nothing |
| `Store.WithoutItemIdempotent` | src/contexts/AppContext.tsx:66-68 | removing the same id twice equals removing it once |
| `Store.Reassigned` | src/contexts/AppContext.tsx:75-79 | the `map` of `updateCartQuantity` keeps the number of lines; `ReassignedLines` gives each line |
| `Store.ReassignedLines` | src/contexts/AppContext.tsx:75-79 | line by line, each line with the id holds exactly `quantity` units and keeps every other field; every other line is unchanged |
| `Store.WithQuantity` | src/contexts/AppContext.tsx:70-80 | q <= 0 is exactly removal of the id; q > 0 keeps the length and sets (does not add) the matching line's quantity to q; an absent id leaves the cart unchanged |
| `Store.WithQuantityInvariants` | src/contexts/AppContext.tsx:70-80 | updating adds no id, keeps at most one line per id, and keeps quantities positive whatever q is |
| `Store.QuantityOf` | src/contexts/AppContext.tsx:12-14 | the units held for an id; 0 when the id has no line |
| `Store.QuantityOfLine` | src/contexts/AppContext.tsx:12-14 | in a cart with one line per id, the units held for an id are that line's quantity |
| `Store.TotalPrice` | src/contexts/AppContext.tsx:86-88 | the `price * quantity` fold from 0; never negative when no price and no quantity is |
| `Store.TotalItems` | src/contexts/AppContext.tsx:90-92 | the quantity fold from 0; never negative when no quantity is |
| `Store.TotalPriceConcat` | src/contexts/AppContext.tsx:86-88 | the `price * quantity` fold splits over a concatenation |
| `Store.TotalItemsConcat` | src/contexts/AppContext.tsx:90-92 | the quantity fold splits over a concatenation |
| `Store.TotalPriceCons` | src/contexts/AppContext.tsx:86-88 | the price fold read from the first line: first line's value plus the rest |
| `Store.TotalItemsCons` | src/contexts/AppContext.tsx:90-92 | the quantity fold read from the first line: first line's quantity plus the rest |
| `Store.TotalsExample` | src/contexts/AppContext.tsx:86-92 | an empty cart totals 0 and 0 units; lines (299, 2), (89, 1) total 687 for 3 units |
| `Store.TotalsBounds` | src/contexts/AppContext.tsx:86-92 | with positive quantities there are at least as many units as lines, and with non-negative prices the total price is non-negative |
| `Store.WithoutItemTotalItems` | src/contexts/AppContext.tsx:66-68 | removing an id lowers the unit count by exactly that id's units |
| `Store.IncrementedAbsent` | src/contexts/AppContext.tsx:56-60 | the `map` of `addToCart` changes nothing when no line has the id |
| `Store.IncrementedTotalItems` | src/contexts/AppContext.tsx:56-60 | incrementing the one line with the id adds exactly q units to the unit count |
| `Store.IncrementedTotalPrice` | src/contexts/AppContext.tsx:56-60 | incrementing the one line with the id adds q units at that line's snapshot price |
| `Store.WithItemTotals` | src/contexts/AppContext.tsx:52-64 | `addToCart(p, q)` raises the unit count by q and the total price by q times the line's snapshot price (existing id) or `p.price` (new id) |
| `Store.IncrementedQuantity` | src/contexts/AppContext.tsx:56-60 | incrementing adds q to the id's units when it has a line and leaves every other id's units alone |
| `Store.AppendQuantity` | src/contexts/AppContext.tsx:62 | appending a line adds its quantity to its id's units only |
| `Store.WithItemAccumulates` | src/contexts/AppContext.tsx:52-64 | repeated adds accumulate: `addToCart(p, q)` adds q to the units of `p.id` and leaves every other id's units unchanged |
| `Store.AddTwiceAggregates` | src/contexts/AppContext.tsx:52-64 | adding 2 then 3 units of a new product leaves one line for it, at the end, holding 5 units, and one line per id |
| `Store.ReassignedQuantity` | src/contexts/AppContext.tsx:75-79 | the quantity `map` sets the id's units to q when it has a line and leaves every other id's units alone |
| `Store.WithQuantitySets` | src/contexts/AppContext.tsx:70-80 | `updateCartQuantity(id, q)` sets the id's units to q when q > 0 and the line exists, drops them to 0 when q <= 0, and leaves other ids alone |
| `Store.WithoutItemQuantity` | src/contexts/AppContext.tsx:66-68 | removal takes the id's units to 0 and leaves every other id's units unchanged |
| `Store.RemovalViaZero` | src/contexts/AppContext.tsx:70-74 | `updateCartQuantity(id, 0)` lowers `getTotalItems()` by exactly the units the id held |
| `Store.AppStore.constructor` | src/contexts/AppContext.tsx:33-34 | both lists start empty, and the store is valid |
| `Store.AppStore.AddToFavorites` | src/contexts/AppContext.tsx:36-42 | favorites become `WithFavorite(old favorites, product)`; the cart is untouched; validity is kept |
| `Store.AppStore.RemoveFromFavorites` | src/contexts/AppContext.tsx:44-46 | favorites become `WithoutFavorite(old favorites, id)`; the cart is untouched; validity is kept |
| `Store.AppStore.IsFavorite` | src/contexts/AppContext.tsx:48-50 | true iff some current favorite has the id |
| `Store.AppStore.AddToCart` | src/contexts/AppContext.tsx:52-64 | the cart becomes `WithItem(old cart, product, q)`; favorites are untouched; validity is kept; in a valid store the product's units grow by q, every other product's units stay, and the unit count grows by q |
| `Store.AppStore.RemoveFromCart` | src/contexts/AppContext.tsx:66-68 | the cart becomes `WithoutItem(old cart, id)`; favorites are untouched; validity is kept; the id's units drop to 0, every other id's units stay, and the unit count falls by what the id held |
| `Store.AppStore.UpdateCartQuantity` | src/contexts/AppContext.tsx:70-80 | the cart becomes `WithQuantity(old cart, id, q)`, delegating to `RemoveFromCart` when q <= 0; favorites are untouched; validity is kept; in a valid store the id's units become q when q > 0 and it has a line, 0 otherwise, and every other id's units stay |
| `Store.AppStore.ClearCart` | src/contexts/AppContext.tsx:82-84 | the cart becomes empty and favorites stay exactly as they were |
| `Store.AppStore.GetTotalPrice` | src/contexts/AppContext.tsx:86-88 | 0 for an empty cart; non-negative when quantities are positive and prices non-negative |
| `Store.AppStore.GetTotalItems` | src/contexts/AppContext.tsx:90-92 | 0 for an empty cart; at least the number of lines when quantities are positive |
| `Shop.LowerChar` | src/pages/Shop.tsx:77 | the result is never an upper-case ASCII letter; a character changes iff it is an upper-case ASCII letter, and then it becomes a lower-case letter |
| `Shop.ToLower` | src/pages/Shop.tsx:77 | lower-casing keeps the length |
| `Shop.ToLowerChars` | src/pages/Shop.tsx:77 | character by character, `ToLower` applies `LowerChar` |
| `Shop.Includes` | src/pages/Shop.tsx:77 | `includes`: a term longer than the string never occurs in it |
| `Shop.IncludesIffOccurs` | src/pages/Shop.tsx:77 | `includes` holds iff the term occurs in the string at some position |
| `Shop.MatchesSearch` | src/pages/Shop.tsx:77 | the search test: an empty term matches every name; a term longer than the name matches none |
| `Shop.MatchesCategory` | src/pages/Shop.tsx:78 | the category test: `"All"` admits every product; any other category admits exactly the products of that category |
| `Shop.Matches` | src/pages/Shop.tsx:77-79 | both tests: under `"All"` only the search decides; with an empty term only the category decides |
| `Shop.FilteredProducts` | src/pages/Shop.tsx:76-80 | the filtered list is no longer than the catalog |
| `Shop.FilteredMembers` | src/pages/Shop.tsx:76-80 | a product is listed iff it is in the catalog and passes both the search and the category test |
| `Shop.FilteredConcat` | src/pages/Shop.tsx:76 | the filter acts on each part of a concatenation separately, so the listing keeps catalog order |
| `Shop.CategoryRestricts` | src/pages/Shop.tsx:78 | a selected category other than `"All"` lists only products of that category |
| `Shop.AllIsUnrestricted` | src/pages/Shop.tsx:78 | with `"All"` a product is listed iff it is in the catalog and passes the search test |
| `Shop.CategoryRefinesAll` | src/pages/Shop.tsx:76-80 | filtering the `"All"` listing by a category gives exactly that category's listing |
| `Shop.IncludesEmpty` | src/pages/Shop.tsx:77 | every string contains the empty string |
| `Shop.EmptySearchListsAll` | src/pages/Shop.tsx:76-80 | an empty search term with `"All"` lists the whole catalog, in order |
| `Shop.EmptySearchListsCategory` | src/pages/Shop.tsx:76-80 | an empty search term lists exactly the catalog's products of the selected category, whatever it is |
| `Shop.CategoriesCoverAll` | src/pages/Shop.tsx:74-80 | when every product belongs to one of the selectable categories, the `"All"` listing holds exactly the products some other selectable category lists |
| `Shop.SearchIgnoresCase` | src/pages/Shop.tsx:77 | terms that differ only in letter case give the same listing |
| `Shop.LowerTermSameListing` | src/pages/Shop.tsx:77 | lower-casing the term first does not change the listing |

## Left out

- Rendering, layout, GSAP animations, routing, toasts and the login form. These are view-layer code with no store logic.
- React's context and re-render mechanics are not modelled: `createContext`, the `useState` setters and the `useApp` provider check. The store is a plain object whose methods replace its fields. Functional setter updates and reads of the render-time snapshot (`isFavorite`, the totals) are therefore the same state here.
- Tax and grand-total display in the cart page: it uses floating point (`* 0.08`, `toFixed(2)`).
- The catalog data itself (src/pages/Shop.tsx:27-72) is not modelled. `FilteredProducts` takes the product list as a parameter.
- `Shop.LowerChar`: lower-cases ASCII letters only. JavaScript's `toLowerCase` follows Unicode case mapping, which is not modelled.
- `Store.AppStore.AddToCart`: the quantity is not validated, as in the code. Positivity of quantities is only claimed when the added quantity is at least 1. The callers keep that guard on their side: the product card passes the default of 1 (src/components/ProductCard.tsx:43), and the detail page passes a quantity that starts at 1 and is never decreased below 1 (src/pages/ProductDetail.tsx:13, 88, 203).
- JavaScript numbers are modelled as unbounded integers. Fractional prices and floating-point rounding in the totals are not modelled. Nor is a `NaN` id, which the detail page produces from a non-numeric route parameter (src/pages/ProductDetail.tsx:38). Because `NaN === NaN` is false, the `find`, `some` and `filter` tests never match that id. In the source, each add then appends another entry and removal never drops it, so one entry per id fails there. The model's `int` ids cannot express this case.
