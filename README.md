# Storefront cart and category filter

This project models the state logic of a single-page storefront. The page lists a fixed
catalog of six products (clothing and cosmetics). It can show the whole catalog or one
category, and it keeps a client-side shopping cart. The page keeps two pieces of state:

- `cart`, the list of cart lines. A line is a product plus a quantity.
- `activeCategory`, the filter: `"all"` or a category name.

Three handlers replace the cart wholesale:

- `addToCart` raises the quantity of the product's line, or appends a new line with quantity 1.
- `removeFromCart` filters out every line with the given id.
- `updateQuantity` treats quantity 0 as removal. Any other value overwrites the quantity of the matching lines.

The page also derives three values: the total price (sum of price times quantity), the
total number of units, and the filtered product list.

Layout:

- `catalog.dfy` (`Catalog`): the `Product` record, the `Category` enumeration and the six catalog entries.
- `cart.dfy` (`CartLines`): cart lines and the pure updates the handlers apply. These are `find`, the two `map`s, `filter` and append, written as recursive functions. Lemmas cover order, uniqueness and positivity.
- `totals.dfy` (`CartTotals`): the two `reduce` totals (left folds) and how each update changes them.
- `filter.dfy` (`ProductFilter`): the filtered product list.
- `storefront.dfy` (`Storefront`): class `Index`, the page component. Its two fields are the two state cells. Its methods are the handlers, and each is proved against the pure functions above. The class invariant `Valid()` says the cart has at most one line per id and every quantity is at least 1.
- `subsequences.dfy`, `wrappers.dfy`: order-preserving deletion (`IsSubsequence`) and `Option`.

Modelling decisions:

- Prices and quantities are unbounded `int`. The catalog prices are whole rubles.
- A cart line is `CartItem(product, quantity)`. This is equivalent to the source's `{ ...product, quantity }`.
- The filter compares the category's string name with `activeCategory`, as the code does. So a filter string that names no category shows nothing.
- The pure functions follow the code even when the cart has duplicate ids. `Bump` and `SetQty` change every matching line, and `RemoveId` drops every matching line. The lemmas then add the uniqueness hypothesis where the source's promise needs it.
- `updateQuantity` does not reject a negative quantity. It stores any non-zero value in the matching lines (`CartLines.UpdateLineNegativeStored`).

## Model

| member | source | states |
|---|---|---|
| `Catalog.CatalogWellFormed` | src/pages/Index.tsx:25-74 | the catalog has six products with ids 1..6 (so distinct) and positive prices |
| `CartLines.FindLine` | src/pages/Index.tsx:78 | `find` succeeds exactly when some line carries the id, and then returns a line of the cart with that id |
| `CartLines.FindLineFirst` | src/pages/Index.tsx:78 | `find` returns the line at the first index carrying the id |
| `CartLines.FindLineUnique` | src/pages/Index.tsx:78 | with unique ids, `find` returns the line at any index carrying the id |
| `CartLines.Bump` | src/pages/Index.tsx:80-82 | same length and products; matching lines gain one unit, the others are unchanged |
| `CartLines.BumpAbsent` | src/pages/Index.tsx:80-82 | bumping an id no line carries leaves the cart unchanged |
| `CartLines.SetQty` | src/pages/Index.tsx:97-101 | same length and products; matching lines get quantity `q`, the others are unchanged |
| `CartLines.RemoveId` | src/pages/Index.tsx:89 | no line with the id remains; the result is an order-preserving subsequence of the cart |
| `CartLines.RemoveIdMembers` | src/pages/Index.tsx:89 | a line survives removal exactly when it is in the cart and carries another id |
| `CartLines.AddLine` | src/pages/Index.tsx:76-86 | id absent: exactly one line `(p, 1)` appended after the unchanged earlier lines; id present: same length and products, the matching lines gain one unit; either way a line for `p.id` exists afterwards |
| `CartLines.UpdateLine` | src/pages/Index.tsx:92-102 | zero: exactly the removal of the id, as the call of `removeFromCart` at lines 93-95 makes it; otherwise: same length and products, only matching lines get the new quantity |
| `CartLines.AddLinePresent` | src/pages/Index.tsx:78-83 | with unique ids and the id at index k, only line k changes, by exactly one unit |
| `CartLines.AddLinePreservesUnique` | src/pages/Index.tsx:76-86 | `addToCart` keeps at most one line per id |
| `CartLines.AddLinePreservesPositive` | src/pages/Index.tsx:76-86 | `addToCart` keeps every quantity at least 1 |
| `CartLines.RemoveIdAbsent` | src/pages/Index.tsx:88-90 | removing an absent id is a no-op |
| `CartLines.RemoveIdAppend` | src/pages/Index.tsx:88-90 | removal distributes over concatenation, so relative order is kept |
| `CartLines.RemoveIdUnique` | src/pages/Index.tsx:88-90 | with unique ids, removal cuts exactly the one matching line out of the cart |
| `CartLines.RemoveIdPreservesUnique` | src/pages/Index.tsx:88-90 | `removeFromCart` keeps at most one line per id |
| `CartLines.RemoveIdPreservesPositive` | src/pages/Index.tsx:88-90 | `removeFromCart` keeps every quantity at least 1 |
| `CartLines.AddThenRemove` | src/pages/Index.tsx:76-90 | adding a product whose id is absent, then removing that id, restores the cart |
| `CartLines.UpdateLineAbsent` | src/pages/Index.tsx:92-102 | updating an absent id is a no-op for every quantity and creates no line |
| `CartLines.UpdateLinePreservesUnique` | src/pages/Index.tsx:92-102 | `updateQuantity` keeps at most one line per id |
| `CartLines.UpdateLinePreservesPositive` | src/pages/Index.tsx:92-102 | `updateQuantity` with a non-negative quantity keeps every quantity at least 1 |
| `CartLines.UpdateLineNegativeStored` | src/pages/Index.tsx:92-102 | a negative quantity is not rejected: the cart keeps its length, every line carrying the id gets exactly that quantity, so some quantity drops below 1 |
| `CartLines.AddRepeatedly` | src/pages/Index.tsx:76-86 | n successive adds of one product add a line only when n >= 1 and the id was absent, and then a line for the id exists |
| `CartLines.AddRepeatedlyToLine` | src/pages/Index.tsx:78-83 | m further adds to a single line of quantity k give quantity k + m |
| `CartLines.AddRepeatedlyFromEmpty` | src/pages/Index.tsx:76-86 | n >= 1 adds of one product to an empty cart give the single line `(p, n)` |
| `CartTotals.LinePrice` | src/pages/Index.tsx:105 | `price * quantity` of one line is zero for no units and not negative for a non-negative price and quantity |
| `CartTotals.TotalPrice` | src/pages/Index.tsx:104-106 | the left fold of line prices from 0 is not negative when no price and no quantity is |
| `CartTotals.TotalItems` | src/pages/Index.tsx:108-110 | the left fold of quantities from 0 is not negative when no quantity is |
| `CartTotals.TotalsAppend` | src/pages/Index.tsx:104-110 | both reduce totals are additive over concatenation |
| `CartTotals.TotalsCons` | src/pages/Index.tsx:104-110 | the totals of a cart split into its first line and the rest |
| `CartTotals.TotalItemsBounds` | src/pages/Index.tsx:108-110 | with positive quantities the unit count is at least the number of lines, and zero exactly for the empty cart |
| `CartTotals.BumpTotals` | src/pages/Index.tsx:80-82 | with unique ids, bumping line k adds one unit and line k's stored price |
| `CartTotals.AddLineTotals` | src/pages/Index.tsx:76-86 | with unique ids, `addToCart` adds exactly one unit and the price stored on the affected line (`p.price` when newly appended) |
| `CartTotals.RemoveIdTotals` | src/pages/Index.tsx:88-90 | with unique ids, removing line k subtracts its units and its price times quantity |
| `CartTotals.AddRepeatedlyFromEmptyTotals` | src/pages/Index.tsx:76-86 | n >= 1 adds of one product from empty: one line, n units, n times its price |
| `CartTotals.TwoProductSession` | src/pages/Index.tsx:76-102 | adding p once and q twice (distinct ids) gives `[(p,1), (q,2)]`; setting p to zero leaves `[(q,2)]` |
| `CartTotals.CheckoutScenario` | src/pages/Index.tsx:25-110 | qipao once and mascara twice: 11800 for 3 units; dropping the qipao leaves 2900 |
| `ProductFilter.OfCategory` | src/pages/Index.tsx:114 | the category filter's result is an order-preserving subsequence of the products |
| `ProductFilter.OfCategoryMembers` | src/pages/Index.tsx:114 | a product is kept exactly when it is in the list and its category name equals the filter |
| `ProductFilter.Visible` | src/pages/Index.tsx:112-114 | `"all"` shows the full list in order; otherwise exactly the products of that category, in their order |
| `ProductFilter.UnknownCategoryEmpty` | src/pages/Index.tsx:112-114 | a filter string that is neither `"all"` nor a category name shows nothing |
| `ProductFilter.CategoriesPartition` | src/pages/Index.tsx:112-114 | every product is shown under exactly one of the two category filters |
| `ProductFilter.OfCategoryAppend` | src/pages/Index.tsx:114 | filtering distributes over concatenation |
| `ProductFilter.OfCategoryPrefix` | src/pages/Index.tsx:114 | filtering one more element extends the filtered prefix by that element exactly when it matches |
| `ProductFilter.CatalogClothing` | src/pages/Index.tsx:25-114 | the catalog under `"clothing"` is the products with ids 1, 3, 5 in that order |
| `ProductFilter.CatalogCosmetics` | src/pages/Index.tsx:25-114 | the catalog under `"cosmetics"` is the products with ids 2, 4, 6 in that order |
| `Storefront.Index.constructor` | src/pages/Index.tsx:22-23 | the page starts with an empty cart and filter `"all"` |
| `Storefront.Index.AddToCart` | src/pages/Index.tsx:76-86 | the cart becomes `AddLine` of the old cart; the invariant holds; one more unit; the filter is untouched |
| `Storefront.Index.RemoveFromCart` | src/pages/Index.tsx:88-90 | the cart becomes `RemoveId` of the old cart; no line with the id remains; a no-op when absent; the invariant holds |
| `Storefront.Index.UpdateQuantity` | src/pages/Index.tsx:92-102 | the cart becomes `UpdateLine` of the old cart; a no-op when the id is absent; the invariant holds |
| `Storefront.Index.SetActiveCategory` | src/pages/Index.tsx:23 | the filter becomes the chosen value; the cart is untouched |
| `Storefront.Index.GetTotalPrice` | src/pages/Index.tsx:104-106 | zero for the empty cart; not negative when no price is negative |
| `Storefront.Index.GetTotalItems` | src/pages/Index.tsx:108-110 | at least the number of lines; positive exactly when the cart has a line (the badge condition) |
| `Storefront.Index.FilteredProducts` | src/pages/Index.tsx:112-114 | the whole catalog under `"all"`; otherwise exactly the catalog products of the active category, in catalog order |

## Left out

- Rendering (JSX, styling, images, badges, animation, hero and footer text) is presentation only.
- The navigation `menuItems` list is left out. Its only logic is calling `setActiveCategory`, which `Storefront.Index.SetActiveCategory` models.
- React's `useState` and re-rendering are left out. The two state cells are plain fields replaced by the methods.
- The checkout button has no handler.
- JavaScript `number` is floating point. The model uses unbounded integers. They agree with the code as long as every quantity, every `price * quantity` and every running sum of the totals stays below 2^53.
- Storefront.Index.UpdateQuantity: requires `quantity >= 0`, which the code does not check. The page only ever passes a line's quantity plus or minus one, and the class invariant (quantities at least 1) needs it. The pure `CartLines.UpdateLine` accepts any quantity.
- Storefront.Index.GetTotalPrice, Storefront.Index.GetTotalItems: require the class invariant, which the constructor establishes and every handler keeps.
- A catalog lookup by id, a validation error for negative quantities, and a subscription mechanism are not in the code, so the model has none of them.
