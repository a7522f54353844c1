# Storefront client state, modelled in Dafny

This project models the client-side state updates of a React storefront.
Everything the storefront does beyond these updates is a request to a REST
backend and the rendering of its answer. The modelled parts are:

- **The cart** (`App`, `Cart`, `CartSummary`). The application shell owns the
  cart, a sequence of `{product, quantity}` entries. `addToCart` merges a
  product into the entry with the same id or appends a new entry. The cart
  page maps a new quantity onto an entry, filters an entry out, and sums
  `price * quantity`. The summary panel renders one line per entry and the
  same total. The header shows the sum of the quantities. The invariant
  "at most one entry per product id" is proved to survive `addToCart`, a
  quantity change and a removal. `updateCart` itself stores whatever
  sequence it is given, so the invariant holds for the cart page's own
  updates, not for an arbitrary caller.
- **The catalogue page** (`ProductList`, with `Decimal`). The category filter
  is a JavaScript `Set`, which iterates in insertion order. It is modelled
  as a duplicate-free sequence. The page builds the products URL with a
  `categoryIds` query from that set. The sort buttons order the products by
  price or by name.
- **The new-product form** (`CreateProduct`). Checkboxes toggle ids in an
  ordered list. The POST body carries that list as `{id}` objects.
- **The product page** (`ProductDetails`). Its admin actions are: edit the
  fields, save, mark the product unavailable, and delete a review. Each
  action's result depends on the HTTP outcome.
- **The order page** (`OrderDetails`). It keeps a map from product id to
  "review form open". It also has a loading/error/order screen.

The shell passes `addToCart` to the catalogue and details pages, but neither
page calls it (src/routes/product-list/ProductList.tsx:22,
src/routes/product-details/ProductDetails.tsx:23), so in the shipped wiring
the cart changes only through the cart page; the merge is modelled and
proved for the day a page calls it. Likewise the shell renders the details
page without an `isAdmin` prop (src/App.tsx:63), so as wired the admin
controls receive `undefined` and stay hidden; the model takes `isAdmin` as
a constructor parameter and covers both values. Neither the shell nor the
cart page renders the summary panel.

Prices and quantities are integers (prices in minor currency units), so
every total is exact. An HTTP outcome is the value `Response`: `Ok` (2xx),
`NotOk` (another status) or `Failed(message)` (the request threw).
`Shared.Shown` models the JavaScript truthiness of an error string, where
an empty message shows nothing.

Functions are recursive over sequences. The left folds (`reduce`) and the
cart's own `map` and `filter` recurse from the back of the sequence, so
those definitions line up in the proofs. The `map`s that only render
(the summary lines, the order lines, the reviews, the category refs) and
the independent reference sums recurse from the front. Component state is a class per page. Its
handlers are methods whose `ensures` give the whole new state.

## Model

| member | source | states |
|---|---|---|
| `App.AppState.constructor` | src/App.tsx:15 | the cart starts empty |
| `App.AppState.AddToCart` | src/App.tsx:17-29 | the new cart is the merge-or-append of the old one; unique ids stay unique; with unique ids the header count grows by exactly the added quantity |
| `App.AppState.UpdateCart` | src/App.tsx:31-33 | the cart becomes exactly the given sequence |
| `App.AddedToCart` | src/App.tsx:18-28 | the merged cart always holds the product's id; it keeps the length when the id was present and grows by one otherwise; entries of other ids stay in place unchanged |
| `App.ItemCount` | src/App.tsx:58 | the empty cart counts 0, and a cart of non-negative quantities counts at least 0 |
| `App.AppState.HeaderCount` | src/App.tsx:58 | the header badge of the current cart: 0 for the empty cart, never negative when no quantity is |
| `App.Incremented` | src/App.tsx:21-25 | the `map` keeps the length; entries with the id gain the quantity and keep their product snapshot; all other entries are unchanged |
| `App.AddExisting` | src/App.tsx:19-25 | adding a present id keeps the length, keeps that entry's product snapshot, adds exactly the quantity to it, and leaves other ids' entries alone |
| `App.AddAbsent` | src/App.tsx:27 | adding an absent id appends `{product, quantity}` as the last entry, growing the length by one |
| `App.AddKeepsUniqueIds` | src/App.tsx:17-28 | at most one entry per product id is preserved, and afterwards the product's id occurs exactly once |
| `App.UniqueCountsOne` | src/App.tsx:19 | with unique ids, a present id occurs exactly once, so `find` and `map` touch one entry |
| `App.IncrementedItemCount` | src/App.tsx:21-25 | the merge raises the quantity sum by the added quantity once per matching entry |
| `App.AddGrowsItemCount` | src/App.tsx:58 | with unique ids, the header count after `addToCart(p, q)` is the old count plus q, whatever q is (no stock bound) |
| `App.ItemCountSnoc` | src/App.tsx:58 | the header's reduce step: one more entry at the end adds its quantity to the count |
| `App.RepeatedAdds` | src/App.tsx:17-28 | any non-empty run of adds of one product gives one entry, appended last, whose quantity is the sum of the added quantities |
| `App.AddsIntoEntry` | src/App.tsx:20-25 | when the product's entry is the last one and holds the product being added, further adds only raise that entry's quantity by their sum |
| `App.AddExistingAt` | src/App.tsx:19-25 | with unique ids, adding a product whose id sits at entry k raises entry k alone, whatever product snapshot it holds |
| `App.AddsIntoExisting` | src/App.tsx:17-28 | with unique ids, once the product's id has an entry at any position, a run of adds leaves the cart as it was except that entry gains the sum of the added quantities |
| `App.RaiseTwice` | src/App.tsx:21-25 | raising an entry's quantity by a and then by b raises it by a + b |
| `Cart.LineAmount` | src/routes/cart/Cart.tsx:50-53 | an entry's amount is 0 at quantity 0 and never negative for a non-negative price and quantity |
| `Cart.Total` | src/routes/cart/Cart.tsx:50-53 | the reduce gives 0 for the empty cart |
| `Cart.TotalNonNegative` | src/routes/cart/Cart.tsx:50-53 | the total is never negative when no price or quantity is |
| `Cart.QuantityChanged` | src/routes/cart/Cart.tsx:27-31 | the `map` sets the quantity of the entries with the id; length, order and all other entries are unchanged |
| `Cart.QuantityChangeAbsent` | src/routes/cart/Cart.tsx:27-31 | a quantity change for an id not in the cart gives an identical cart |
| `Cart.QuantityChangeKeepsUniqueIds` | src/routes/cart/Cart.tsx:27-31 | a quantity change keeps ids unique |
| `Cart.QuantityChangedAt` | src/routes/cart/Cart.tsx:27-31 | with unique ids, the change touches entry k alone: the entries before and after it are identical, and entry k gets the new quantity |
| `Cart.QuantityChangeSwapsLine` | src/routes/cart/Cart.tsx:27-31 | with unique ids, the new total is the old total with entry k's line amount replaced by the amount at the new quantity |
| `Cart.QuantityChangeTotal` | src/routes/cart/Cart.tsx:27-31 | with unique ids the total moves by price × (new − old quantity) of the changed entry |
| `Cart.Removed` | src/routes/cart/Cart.tsx:41 | the `filter` leaves no entry with the id, keeps exactly the other entries, and shrinks by the number of entries with the id |
| `Cart.RemovedAppend` | src/routes/cart/Cart.tsx:41 | removal distributes over concatenation, so survivors keep their relative order |
| `Cart.RemoveAbsent` | src/routes/cart/Cart.tsx:41 | removing an id that no entry carries gives back the same cart |
| `Cart.RemoveIdempotent` | src/routes/cart/Cart.tsx:41 | removing an absent id is a no-op, and removing twice equals removing once |
| `Cart.RemovedKeepsUniqueIds` | src/routes/cart/Cart.tsx:41 | removal keeps ids unique |
| `Cart.RemovedEntry` | src/routes/cart/Cart.tsx:41 | with unique ids, removal takes out exactly entry k, and its price × quantity out of the total |
| `Cart.TotalAppend` | src/routes/cart/Cart.tsx:50-53 | total(a ++ b) = total(a) + total(b), which includes the fold step total(cart ++ [item]) = total(cart) + price × quantity |
| `Cart.TotalOne` | src/routes/cart/Cart.tsx:50-53 | a one-entry cart's total is that entry's price × quantity |
| `Cart.TotalAround` | src/routes/cart/Cart.tsx:50-53 | the total splits around any entry into prefix, entry amount and suffix |
| `Cart.TotalIsSumOfLines` | src/routes/cart/Cart.tsx:50-53 | the reduce equals the independent front-to-back sum of price × quantity, and the empty cart's total is 0 |
| `Cart.TotalIgnoresStock` | src/routes/cart/Cart.tsx:50-53 | the total depends only on each entry's price and requested quantity, not on stock, name or id |
| `Cart.QuantityOptions` | src/routes/cart/Cart.tsx:79-86 | the select offers exactly 1..stock in order, and nothing when the stock is 0 or less |
| `Cart.CartPage.constructor` | src/routes/cart/Cart.tsx:22-23 | the coupon text starts empty and the spinner off |
| `Cart.CartPage.HandleQuantityChange` | src/routes/cart/Cart.tsx:25-38 | the parent's cart becomes the mapped cart, unique ids stay unique, and the spinner ends off |
| `Cart.CartPage.HandleRemoveProduct` | src/routes/cart/Cart.tsx:40-43 | the parent's cart becomes the filtered cart and unique ids stay unique |
| `Cart.CartPage.SetCoupon` | src/routes/cart/Cart.tsx:106 | typing changes only the coupon text |
| `Cart.CartPage.HandleApplyCoupon` | src/routes/cart/Cart.tsx:45-48 | applying a coupon changes neither the page nor the cart, so not the total |
| `Cart.CartPage.Render` | src/routes/cart/Cart.tsx:55-123 | an empty cart shows only the notice, even while the spinner is up; otherwise every entry in cart order, the coupon text, and a total iff not loading, equal to the sum of price × quantity |
| `CartSummary.Lines` | src/components/cart-summary/CartSummary.tsx:22-26 | exactly one line per cart entry, in cart order, with that entry's name, quantity and price |
| `CartSummary.TotalAmount` | src/components/cart-summary/CartSummary.tsx:14-17 | the panel's reduce of price × quantity gives 0 for the empty cart |
| `CartSummary.TotalAmountIsCartTotal` | src/components/cart-summary/CartSummary.tsx:14-17 | the panel's own reduce equals the cart page's total for every cart |
| `CartSummary.Render` | src/components/cart-summary/CartSummary.tsx:14-31 | one line per entry, and a total line iff the cart is non-empty |
| `CartSummary.TotalMatchesLines` | src/components/cart-summary/CartSummary.tsx:14-17 | the shown total equals the sum of its own lines' quantity × price, and equals the cart page's total |
| `CartSummary.LinesAmountIsSumOfLines` | src/components/cart-summary/CartSummary.tsx:22-26 | summing the rendered lines gives the sum of price × quantity over the cart |
| `Decimal.NatToString` | src/routes/product-list/ProductList.tsx:50 | a number's decimal text is a non-empty run of digits |
| `Decimal.IntToString` | src/routes/product-list/ProductList.tsx:50 | an id's text is non-empty and has no comma |
| `Decimal.IntToStringShape` | src/routes/product-list/ProductList.tsx:50 | an id's text is the digits of a non-negative id, or a minus sign followed by the digits of a negative one's magnitude |
| `Decimal.NatRoundTrip` | src/routes/product-list/ProductList.tsx:50 | reading the decimal text of n gives n |
| `Decimal.IntRoundTrip` | src/routes/product-list/ProductList.tsx:50 | reading the text of any integer id, negative ones included, gives the id |
| `Decimal.Join` | src/routes/product-list/ProductList.tsx:50 | `join(",")` is empty exactly for no ids, and otherwise has no comma at either end |
| `Decimal.SplitNoComma` | src/routes/product-list/ProductList.tsx:50 | text without commas splits into itself |
| `Decimal.SplitAtComma` | src/routes/product-list/ProductList.tsx:50 | a comma-free prefix followed by a comma splits off as the first part |
| `Decimal.JoinRoundTrip` | src/routes/product-list/ProductList.tsx:50 | splitting the joined ids on commas and reading each part gives back the ids, in order |
| `ProductList.IndexOf` | src/routes/product-list/ProductList.tsx:72 | the first position of an element in the set |
| `ProductList.DeleteAtMembers` | src/routes/product-list/ProductList.tsx:72 | `delete` on a duplicate-free set removes exactly the deleted value and keeps every other member |
| `ProductList.DeleteAtNoDuplicates` | src/routes/product-list/ProductList.tsx:72 | `delete` keeps the set duplicate-free |
| `ProductList.DeleteAtOthers` | src/routes/product-list/ProductList.tsx:72 | deleting one position keeps every value not stored there |
| `ProductList.AddNoDuplicates` | src/routes/product-list/ProductList.tsx:74 | `add` of a new value appends it and keeps the set duplicate-free |
| `ProductList.SetDelete` | src/routes/product-list/ProductList.tsx:72 | `delete` shrinks the set by one iff the value was there and keeps every other value; on a duplicate-free set the value is gone, the others keep their insertion order (the result is the set filtered by the value), and the set stays duplicate-free |
| `ProductList.DeleteAtIsWithout` | src/routes/product-list/ProductList.tsx:72 | on a duplicate-free set, removing a value's slot equals filtering the value out, so the other values keep their order |
| `ProductList.SetAdd` | src/routes/product-list/ProductList.tsx:74 | `add` leaves a present value's set unchanged and otherwise appends the value last, after the old elements in order; the result holds exactly the old values and the new one, duplicate-free if the old set was |
| `ProductList.SetToggled` | src/routes/product-list/ProductList.tsx:68-78 | the toggle appends an absent id last and removes a present one with the other ids kept in insertion order; other ids' membership is unaffected, and the set stays duplicate-free |
| `ProductList.ToggleTwice` | src/routes/product-list/ProductList.tsx:70-76 | toggling twice restores the set of ids, and restores the exact order when the id was absent; a present id comes back at the end, after the other ids in their order |
| `ProductList.UrlShape` | src/routes/product-list/ProductList.tsx:48-51 | no ids gives the bare base URL; otherwise base + "?categoryIds=" + a comma list with no comma at either end, which reads back as exactly the ids in order |
| `ProductList.ProductsUrl` | src/routes/product-list/ProductList.tsx:48-51 | the URL always starts with the products base, and is longer than it exactly when some category is selected |
| `ProductList.Insert` | src/routes/product-list/ProductList.tsx:82-86 | inserting adds exactly one element (multiset) |
| `ProductList.InsertMembers` | src/routes/product-list/ProductList.tsx:82-86 | after an insertion the list holds exactly the new element and the old ones |
| `ProductList.SortBy` | src/routes/product-list/ProductList.tsx:82-86 | the sort returns a permutation of its input |
| `ProductList.InsertSorted` | src/routes/product-list/ProductList.tsx:82-86 | inserting into a sorted list keeps it sorted under a total preorder |
| `ProductList.SortSorted` | src/routes/product-list/ProductList.tsx:82-86 | the sort's result is ordered by any total-preorder comparator |
| `ProductList.PriceLe` | src/routes/product-list/ProductList.tsx:86 | the price comparator lets a stay before b exactly when `a.price - b.price` is not positive |
| `ProductList.PriceSort` | src/routes/product-list/ProductList.tsx:85-86 | sorting by "price" gives a permutation in non-decreasing price order |
| `ProductList.NameSort` | src/routes/product-list/ProductList.tsx:83-84 | sorting by "name" gives a permutation ordered by the collation, when the collation is a total preorder |
| `ProductList.SortKeepsProducts` | src/routes/product-list/ProductList.tsx:80-89 | no option changes the length or multiset of products, and an option other than "name"/"price" leaves the list exactly as it was |
| `ProductList.SortedFor` | src/routes/product-list/ProductList.tsx:80-89 | every sort option returns a permutation of the products |
| `ProductList.ProductListPage.constructor` | src/routes/product-list/ProductList.tsx:23-29 | empty products, categories and selection, no sort option, loading, no error |
| `ProductList.ProductListPage.RequestUrl` | src/routes/product-list/ProductList.tsx:45-66 | the URL for the current selection is the bare base with nothing selected, and otherwise its query reads back as exactly the selected ids in insertion order |
| `ProductList.ProductListPage.FetchStarted` | src/routes/product-list/ProductList.tsx:45-66 | a fetch turns the spinner on and requests the URL of the current selection; nothing else changes, so the selection invariant is kept |
| `ProductList.ProductListPage.ToggleCategory` | src/routes/product-list/ProductList.tsx:68-78 | the selection becomes the toggled set, stays duplicate-free, and nothing else changes |
| `ProductList.ProductListPage.HandleSortChange` | src/routes/product-list/ProductList.tsx:80-89 | the sort option is recorded and the products become the sorted copy; the rest is unchanged and the selection invariant is kept |
| `ProductList.ProductListPage.ProductsFetched` | src/routes/product-list/ProductList.tsx:53-61 | success stores the products; a non-2xx status or a thrown error sets its message; loading ends off either way; the selection invariant is kept |
| `ProductList.ProductListPage.CategoriesFetched` | src/routes/product-list/ProductList.tsx:32-40 | success stores the categories; otherwise the error is set; the selection invariant is kept |
| `ProductList.ProductListPage.ShownProducts` | src/routes/product-list/ProductList.tsx:114-126 | the grid shows exactly the stored products, and only when not loading and no non-empty error is set |
| `Shared.Without` | src/routes/create-product/CreateProduct.tsx:44 | the `filter` leaves every element except the removed value, and no copy of that value |
| `Shared.WithoutAppend` | src/routes/create-product/CreateProduct.tsx:44 | the `filter` distributes over concatenation, so survivors keep their order |
| `Shared.WithoutKeepsNoDuplicates` | src/routes/create-product/CreateProduct.tsx:44 | filtering a duplicate-free list keeps it duplicate-free |
| `Shared.WithoutAppendOne` | src/routes/create-product/CreateProduct.tsx:44-45 | filtering a list with one more element at the end |
| `Shared.Shown` | src/routes/product-list/ProductList.tsx:115 | an error renders only when it is set and non-empty: `null` and `""` render nothing |
| `CreateProduct.CategoryToggled` | src/routes/create-product/CreateProduct.tsx:41-47 | the checkbox change puts the id in the list iff it was not there, and leaves every other id's membership alone |
| `CreateProduct.ToggleBranches` | src/routes/create-product/CreateProduct.tsx:43-45 | an absent id is appended at the end (length + 1); a present id loses all its occurrences |
| `CreateProduct.ToggleKeepsOthers` | src/routes/create-product/CreateProduct.tsx:42-46 | other ids keep their relative order under either branch |
| `CreateProduct.ToggleKeepsNoDuplicates` | src/routes/create-product/CreateProduct.tsx:41-47 | a duplicate-free list stays duplicate-free |
| `CreateProduct.ToggleTwice` | src/routes/create-product/CreateProduct.tsx:41-47 | toggling an absent id twice restores the list; toggling a present id twice moves it to the end |
| `CreateProduct.CategoryRefs` | src/routes/create-product/CreateProduct.tsx:64 | the payload has the same length and order as the selection, each element `{id}` |
| `CreateProduct.CreateProductForm.constructor` | src/routes/create-product/CreateProduct.tsx:11-17 | empty fields, zero price and quantity, nothing selected, no error |
| `CreateProduct.CreateProductForm.HandleCategoryChange` | src/routes/create-product/CreateProduct.tsx:41-47 | the selection becomes the toggled list and stays duplicate-free; the other fields are unchanged |
| `CreateProduct.CreateProductForm.Request` | src/routes/create-product/CreateProduct.tsx:59-65 | the POST body carries the form's fields and one `{id}` per selected id, in order |
| `CreateProduct.CreateProductForm.HandleCreateProduct` | src/routes/create-product/CreateProduct.tsx:68-78 | a non-2xx status sets "Nie udało się utworzyć produktu.", a thrown error its message; the form is unchanged |
| `CreateProduct.CreateProductForm.CategoriesFetched` | src/routes/create-product/CreateProduct.tsx:22-37 | success stores the categories; otherwise the error is set |
| `ProductDetails.ReviewsWithout` | src/routes/product-details/ProductDetails.tsx:103 | the reviews left are exactly those whose id differs |
| `ProductDetails.ReviewsWithoutAppend` | src/routes/product-details/ProductDetails.tsx:103 | the kept reviews stay in order (the filter distributes over concatenation) |
| `ProductDetails.ReviewsWithoutAbsent` | src/routes/product-details/ProductDetails.tsx:103 | deleting an id that no review has changes nothing |
| `ProductDetails.ReviewViews` | src/routes/product-details/ProductDetails.tsx:211-235 | one view per review, in order, with a delete button iff the user is an admin |
| `ProductDetails.ProductDetailsPage.constructor` | src/routes/product-details/ProductDetails.tsx:25-30 | no product, no reviews, loading, not editing, no error |
| `ProductDetails.ProductDetailsPage.DataFetched` | src/routes/product-details/ProductDetails.tsx:59-71 | both 2xx stores product and reviews; any failure sets the fixed message; loading ends off |
| `ProductDetails.ProductDetailsPage.HandleUpdateProduct` | src/routes/product-details/ProductDetails.tsx:78-93 | a successful save leaves edit mode; a failed save keeps `editMode` and sets the error |
| `ProductDetails.ProductDetailsPage.HandleDeleteReview` | src/routes/product-details/ProductDetails.tsx:95-108 | success removes exactly the reviews with the id; failure keeps the reviews and sets the error |
| `ProductDetails.ProductDetailsPage.HandleSetQuantityToZero` | src/routes/product-details/ProductDetails.tsx:110-127 | no product at the click: nothing happens; success: the product becomes the click-time snapshot with quantity 0, whatever was edited meanwhile; failure: product unchanged, error set |
| `ProductDetails.EditLostDuringMarkUnavailable` | src/routes/product-details/ProductDetails.tsx:110-127 | in edit mode, a name typed while the PUT is pending is overwritten: the page shows the clicked-on product with stock 0 and its old name |
| `ProductDetails.ProductDetailsPage.EditName` | src/routes/product-details/ProductDetails.tsx:150-152 | only the name changes; a null product stays null |
| `ProductDetails.ProductDetailsPage.EditDescription` | src/routes/product-details/ProductDetails.tsx:156-158 | only the description changes; a null product stays null |
| `ProductDetails.ProductDetailsPage.EditPrice` | src/routes/product-details/ProductDetails.tsx:163-165 | only the price changes; a null product stays null |
| `ProductDetails.ProductDetailsPage.EditQuantity` | src/routes/product-details/ProductDetails.tsx:170-172 | only the quantity changes; a null product stays null |
| `ProductDetails.ProductDetailsPage.ToggleEditMode` | src/routes/product-details/ProductDetails.tsx:201 | the button flips `editMode` and nothing else |
| `ProductDetails.ProductDetailsPage.Render` | src/routes/product-details/ProductDetails.tsx:131-241 | details show once loaded with a product; "Produkt niedostępny" iff not editing and quantity is 0; admin buttons and per-review delete buttons iff `isAdmin`; the error line shows the error's own text |
| `OrderDetails.IsExpanded` | src/routes/order-details/OrderDetails.tsx:94-98 | a product's review form is open iff its key is present and true; a missing key (`undefined`) counts as closed |
| `OrderDetails.ReviewToggled` | src/routes/order-details/OrderDetails.tsx:35-40 | the toggle writes the product's key with the negation of its current truth value |
| `OrderDetails.ToggleFlips` | src/routes/order-details/OrderDetails.tsx:35-40 | the toggle flips the product's flag (missing counts as false and becomes true), writes the key, and leaves every other key unchanged |
| `OrderDetails.ToggleTwice` | src/routes/order-details/OrderDetails.tsx:36-39 | toggling twice restores the flag's truth value but leaves the key present: from a missing key the result is an explicit `false` |
| `OrderDetails.LineViews` | src/routes/order-details/OrderDetails.tsx:80-118 | one line per order product, in order, with subtotal quantity × unit price and a review form iff `expanded[product.id]` |
| `OrderDetails.OrderDetailsPage.constructor` | src/routes/order-details/OrderDetails.tsx:25-28 | no order, loading, no error, nothing expanded |
| `OrderDetails.OrderDetailsPage.HandleToggleReview` | src/routes/order-details/OrderDetails.tsx:35-40 | `expanded` becomes the toggled map and nothing else changes |
| `OrderDetails.OrderDetailsPage.OrderFetched` | src/routes/order-details/OrderDetails.tsx:49-59 | success stores the order; a non-2xx status or a thrown error sets its message; loading ends off either way; `expanded` is unchanged |
| `OrderDetails.OrderDetailsPage.Render` | src/routes/order-details/OrderDetails.tsx:65-120 | only the loading text while loading; after that a non-empty error wins over the order view; each line's review form shows iff its product is expanded; the error line shows the error's own text; the order lines are exactly the rendered order lines, with their quantity × price subtotals |

## Left out

- Network I/O. Every `fetch` is absent: URLs other than the products
  query, headers, bearer tokens and JSON parsing. Where a handler branches
  on the result, the outcome is a `Response` parameter. The data it
  returned is a parameter too.
- Decimal.IntToString: ids are taken to be below 10^21 in magnitude.
  JavaScript's `String` writes larger numbers in exponent form ("1e+21"),
  which this function does not produce; the URL round trip is proved for
  the digit form only.
- Asynchronous handlers are modelled as one atomic step at the moment
  their request resolves, except where a handler reads state captured at
  the click (`HandleSetQuantityToZero` takes that snapshot as a
  parameter). Interleavings of two pending requests are not modelled.
- ProductList.ProductListPage.ProductsFetched: each selection change starts
  a new fetch (`FetchStarted`), and overlapping fetches may resolve out of
  order, so an older selection's products can end up on screen with
  `loading` off while a newer request is pending. The model takes the
  responses in the order they are given and does not tie a response to the
  selection that requested it.
- Cart.CartPage.HandleQuantityChange: the 500 ms `setTimeout` is collapsed,
  so the spinner's on-phase is not modelled. A removal made inside that
  window, which the delayed stale `updateCart` would undo, is not modelled
  either.
- ProductList.SortBy: `Array.prototype.sort` is the engine's own code. The
  model is a stable insertion sort. It is proved to be a sorted permutation,
  but stability is not stated. Name ordering uses `localeCompare`, a
  locale-dependent collation. It is the parameter `collate`, assumed to be
  a total preorder where the ordering is claimed.
- `Number(e.target.value)` parsing in the price and quantity inputs
  (NaN, decimals). Those inputs are modelled as already-parsed integers.
- Floating-point prices and `toFixed(2)` formatting. Prices are integer
  minor units.
- Coupons, discounts and order submission. The coupon button only logs and
  the order button has no handler (src/routes/cart/Cart.tsx:124-126), so
  neither has behaviour to model.
- `alert`, `console`, `navigate`, `localStorage`, React hooks and styling.
  The text-field setters of the new-product form (`setName`, `setPrice`, …)
  are plain assignments and are left out. `ProductDetails`' unused
  `quantity` state and `addToCart` prop are left out too.
- The login, registration and order-history pages, the product card, the
  review list and the service helpers. They are form-to-request plumbing or
  pure presentation.
