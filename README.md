# ForeverShop storefront client: cart, quantity input and catalog page

A Dafny model of three pieces of sequential logic in the ForeverShop web
client, with proofs of what each one promises.

- `shop_context.dfy` (module `CartState`) is the cart state layer that the
  shop context provides. The cart is an ordered sequence of line items
  `(product, size, quantity)`, keyed by the product's id together with the
  size. `addToCart` either raises a matching line by one or appends a new
  line. `updateQuantity` rewrites the matching line and drops every line
  whose quantity is not positive. The count and amount are folds over the
  cart. With a session token, each change is also posted to the remote
  cart store. Only a successful post is followed by a fetch of the remote
  cart, and only a successful fetch replaces the local cart. The class
  `ShopContext` holds the cart, the token, a log of the remote requests it
  issued and the error notices it showed. The pure parts are functions
  with lemmas: `AddLine`, `UpdateLines`, `CartCount` and `CartAmount`.
- `cart_item_input.dfy` (module `QuantityInput`) is the quantity field of
  one cart row. It keeps a draft that is clamped to [1, 50] on every edit.
  It has one debounce timer, which every change of the draft cancels and
  re-arms and which teardown cancels. When the timer fires it commits
  `localQty || 1`. When the committed quantity changes from outside, the
  draft is resynced to it. Time is a sequence of events; the expiry of a
  timer is the event `Fire(id)`. The row's remove control is
  `updateQuantity(id, size, 0)`.
- `collection.dfy` (module `Collection`) is the catalog page:
  - toggling category and subcategory choices;
  - the filter chain by search text, category and subcategory;
  - the optional in-place sort by price;
  - pages of 24 items, and the page buttons with "..." markers;
  - the page navigation.

Remote calls, toasts and browser storage are not modelled as effects. A
post's outcome is the parameter `postOk` and a fetch's outcome is the
parameter `fetch`. The model records which requests are issued and which
notices are shown.

Where the code and its comments disagree, the model follows the code.
Some behaviours of the code worth knowing:

- The debounce delay is 5000 ms, although the comment above it says one
  second (`QuantityInput.DebounceDelayMs`).
- An edit always stores a draft in [1, 50]. `addToCart` has no upper cap,
  so the committed quantity prop can exceed 50, and until the user edits,
  the timer commits that prop as it is (`QuantityInput.CartItemInput.Fire`).
- The debounce effect also runs on mount. A row therefore commits its
  current quantity once after the delay even when nobody edits it. It
  commits again after every outside change of the quantity that changes the
  draft (`MountCommitsOnce`, `External`).
- `updateQuantity` on an absent key inserts nothing, and it drops any
  non-positive line present in the cart (`CartState.UpdateLinesKey`).

## Model

| member | source | states |
|---|---|---|
| CartState.KeyIndex | src/context/ShopContext.jsx:29-31 | -1 exactly when no line has the key; otherwise the first line with the key |
| CartState.FindIndex | src/context/ShopContext.jsx:28-31 | the loop returns the first index whose line has (product id, size), or -1 |
| CartState.AddLine | src/context/ShopContext.jsx:28-40 | the reference add: the cart grows by at most one line; its exact effect is stated by AddLineAt and AddLineEffect |
| CartState.AddLineAt | src/context/ShopContext.jsx:28-40 | the recursive reference for an add equals findIndex-then-overwrite (quantity + 1) on an existing key and push of (product, size, 1) on a new key |
| CartState.AddLineEffect | src/context/ShopContext.jsx:33-40 | an existing key: same length, that line gains exactly one unit; a new key: (product, size, 1) appended at the end; no other line changes |
| CartState.AddLineWellFormed | src/context/ShopContext.jsx:29-40 | an add keeps the keys unique and the quantities positive |
| CartState.ReplaceKeepsWellFormed | src/context/ShopContext.jsx:34-37 | overwriting a line with the same key and a positive quantity keeps the cart well formed |
| CartState.AppendKeepsWellFormed | src/context/ShopContext.jsx:39 | pushing a line with a new key and positive quantity keeps the cart well formed |
| CartState.AddTwiceMerges | src/context/ShopContext.jsx:33-39 | adding one (product, size) twice to a cart without it gives one new line of quantity 2 |
| CartState.SetQuantity | src/context/ShopContext.jsx:69-74 | the map step keeps the length |
| CartState.KeepPositive | src/context/ShopContext.jsx:75 | the filter step leaves only positive quantities, drawn from the input, no more lines than before |
| CartState.UpdateLines | src/context/ShopContext.jsx:68-75 | the local effect of updateQuantity, map then filter: every line left is positive and no line is added |
| CartState.KeepPositiveAppend | src/context/ShopContext.jsx:75 | the filter distributes over concatenation |
| CartState.KeepPositiveOfPositive | src/context/ShopContext.jsx:75 | the filter keeps an all-positive cart as it is |
| CartState.KeepPositiveUnique | src/context/ShopContext.jsx:75 | the filter keeps keys unique |
| CartState.KeepPositiveAround | src/context/ShopContext.jsx:68-75 | with one line replaced, the filter keeps it exactly when its quantity is positive, else removes just that line |
| CartState.SetQuantityUnique | src/context/ShopContext.jsx:69-74 | with unique keys the map step touches only the first matching line, or nothing |
| CartState.UpdateLinesEffect | src/context/ShopContext.jsx:68-75 | absent key: cart unchanged; positive quantity: only the matching line's quantity changes; otherwise exactly that line is deleted and the rest keep their order |
| CartState.UpdateLinesWellFormed | src/context/ShopContext.jsx:68-75 | after an update every line is positive and the keys stay unique |
| CartState.UpdateLinesKey | src/context/ShopContext.jsx:68-75 | a quantity of 0 or less leaves no line with the key; every line with the key holds the new quantity; an absent key only filters, never inserts |
| CartState.UpdateLinesNoNewKeys | src/context/ShopContext.jsx:68-75 | an update never brings in a key the cart did not have |
| CartState.LineAmount | src/context/ShopContext.jsx:97-99 | a line without a resolved price adds nothing; a non-negative price and positive quantity never add a negative sum |
| CartState.CartCount | src/context/ShopContext.jsx:61-63 | on a positive cart the count is at least the number of lines |
| CartState.CartAmount | src/context/ShopContext.jsx:95-101 | on a positive cart with non-negative prices the amount is non-negative |
| CartState.CountAppend | src/context/ShopContext.jsx:61-63 | the count of a concatenation is the sum of the counts |
| CartState.AmountAppend | src/context/ShopContext.jsx:95-101 | the amount of a concatenation is the sum of the amounts |
| CartState.SingleLine | src/context/ShopContext.jsx:95-101 | a one-line cart counts its quantity and costs price times quantity, a missing price counting 0 |
| CartState.CountAndAmountExample | src/context/ShopContext.jsx:95-101 | quantities 2 and 3 at prices 10 and 20 give count 5 and amount 80 |
| CartState.SplitAt | src/context/ShopContext.jsx:96-100 | count and amount split around any one line |
| CartState.ReplaceLine | src/context/ShopContext.jsx:96-100 | replacing a line moves count and amount by exactly that line's difference |
| CartState.AmountCons | src/context/ShopContext.jsx:96-100 | the amount of a line followed by a cart is their sum |
| CartState.AddLineCount | src/context/ShopContext.jsx:33-40 | every add raises the count by exactly 1 |
| CartState.AddLineAmount | src/context/ShopContext.jsx:33-40 | every add raises the amount by the unit price of the line that gained the unit |
| CartState.UpdateLinesCount | src/context/ShopContext.jsx:68-75 | an update moves the count by the matching line's change, to 0 on deletion |
| CartState.AnonymousSessionWellFormed | src/context/ShopContext.jsx:21-77 | with no token any sequence of adds and updates keeps unique keys and positive quantities |
| CartState.AfterSync | src/context/ShopContext.jsx:45-57 | the cart after a post and its fetch is the local cart or the fetched one, never anything else, so it stays well formed when both of those are |
| CartState.SyncNotices | src/context/ShopContext.jsx:45-57 | at most one notice: the post's own on a failed post, the fetch's on a failed fetch, none when both succeed |
| CartState.ShopContext.constructor | src/context/ShopContext.jsx:15-17 | empty cart, no token, no requests and no notices |
| CartState.ShopContext.SetToken | src/context/ShopContext.jsx:17 | only the token changes |
| CartState.ShopContext.GetUserCart | src/context/ShopContext.jsx:119-135 | issues the fetch; on success the fetched cart replaces the cart wholesale; on failure the cart is unchanged and a notice is shown |
| CartState.ShopContext.AddToCart | src/context/ShopContext.jsx:21-58 | empty size: only the select-size notice; otherwise the local add, and with a token the add post then on success the fetch-and-replace, on failure a notice; keeps the cart well formed |
| CartState.ShopContext.UpdateQuantity | src/context/ShopContext.jsx:66-92 | the local map-and-filter, and with a token the update post then on success the fetch-and-replace, on failure a notice; keeps the cart well formed |
| CartState.ShopContext.ClearCart | src/pages/PlaceOrder.jsx:78 | the cart becomes empty and nothing else changes |
| QuantityInput.OrOne | src/pages/Cart.jsx:19 | JavaScript's or-1 fallback is never 0 and keeps any non-zero value |
| QuantityInput.ClampDraft | src/pages/Cart.jsx:30-31 | every stored draft lies in [1, 50]; in-range input is kept, larger input gives 50, smaller, empty or non-numeric input gives 1 |
| QuantityInput.CartItemInput.constructor | src/pages/Cart.jsx:8-22 | the draft starts at the prop and the mount run of the effect leaves one timer pending |
| QuantityInput.CartItemInput.Rearm | src/pages/Cart.jsx:17-22 | the pending timer is replaced by a fresh one |
| QuantityInput.CartItemInput.Edit | src/pages/Cart.jsx:30-31 | the draft becomes the clamped input; a changed draft cancels and re-arms the timer, an unchanged one leaves it; nothing is committed |
| QuantityInput.CartItemInput.External | src/pages/Cart.jsx:12-14 | a changed prop resets the draft to it and re-arms the timer when the draft changes |
| QuantityInput.CartItemInput.Fire | src/pages/Cart.jsx:18-20 | only the pending timer commits, once, the draft (1 if the draft is 0), never 0 and in [1, 50] or the prop itself |
| QuantityInput.CartItemInput.Unmount | src/pages/Cart.jsx:21 | teardown cancels the timer, so no later expiry commits |
| QuantityInput.CartItemInput.EditBurst | src/pages/Cart.jsx:17-22 | a burst of edits commits nothing, leaves the last clamped value as the draft, and leaves only the newest timer pending |
| QuantityInput.RemoveLine | src/pages/Cart.jsx:101 | after the remove control no line has that key |
| QuantityInput.RemoveLineKeepsOthers | src/pages/Cart.jsx:101 | on a well-formed cart remove deletes exactly the matching line and keeps the rest in order |
| QuantityInput.StaleCommitRevivesRemovedLine | src/pages/Cart.jsx:17-22 | as written: a commit that maps the cart captured before another row's removal puts the removed line back |
| QuantityInput.CommitOnCurrentCartKeepsRemoval | src/pages/Cart.jsx:17-22 | as intended: a commit applied to the current cart never brings a removed line back |
| Collection.Without | src/pages/Collection.jsx:21 | the filter removes every copy of the value and keeps everything else |
| Collection.Toggle | src/pages/Collection.jsx:19-24 | the value is chosen afterwards exactly when it was not before; other values are unaffected |
| Collection.WithoutAbsent | src/pages/Collection.jsx:21 | removing an absent value leaves the list as it is |
| Collection.WithoutAppend | src/pages/Collection.jsx:21 | removal distributes over concatenation |
| Collection.ToggleTwice | src/pages/Collection.jsx:19-24 | toggling twice restores the chosen set, and the very list when the value was not chosen |
| Collection.Lower | src/pages/Collection.jsx:42 | lower-casing keeps the length |
| Collection.Includes | src/pages/Collection.jsx:42 | the empty text is included in every string; a longer text is never included |
| Collection.SomeMatches | src/pages/Collection.jsx:48-50 | a value in the list always matches; an empty list matches nothing |
| Collection.FilterBy | src/pages/Collection.jsx:41-43 | an item is kept exactly when it is in the input and passes |
| Collection.FilterTwice | src/pages/Collection.jsx:46-59 | two filters in a row are one filter by the conjunction |
| Collection.FilterAll | src/pages/Collection.jsx:46 | a filter that keeps everything is the identity, so an empty choice list filters nothing |
| Collection.FilterSame | src/pages/Collection.jsx:41-59 | filters by pointwise-equal predicates agree |
| Collection.FilterIsSubsequence | src/pages/Collection.jsx:41-59 | a filter keeps the relative order of what it keeps |
| Collection.Chain | src/pages/Collection.jsx:40-60 | the chain as written keeps exactly the products that pass every active filter |
| Collection.ChainIsChosen | src/pages/Collection.jsx:38-60 | the three-step chain selects exactly the products matching search, category and subcategory, in catalog order |
| Collection.SortedByPrice | src/pages/Collection.jsx:62-68 | low-high means ascending price, high-low descending |
| Collection.SortByPrice | src/pages/Collection.jsx:62-68 | the array ends sorted by the comparator's key and holds the same items |
| Collection.InsertAt | src/pages/Collection.jsx:64 | inserting the next item into the sorted prefix extends it by one and keeps the items |
| Collection.SwapStep | src/pages/Collection.jsx:64 | one swap of an inverted pair keeps the items and moves the insertion point left |
| Collection.SinkDone | src/pages/Collection.jsx:64 | when the inserted item meets a key no larger, the prefix is sorted |
| Collection.TotalPages | src/pages/Collection.jsx:85 | the least page count whose pages of 24 hold every item |
| Collection.JsSlice | src/pages/Collection.jsx:87-90 | slice clamps both bounds: elements from start, empty exactly when start is past the end or the window is empty |
| Collection.CurrentProducts | src/pages/Collection.jsx:86-90 | at most 24 items, those from (page - 1) * 24 on, empty exactly when that start is at or past the end |
| Collection.PageInRange | src/pages/Collection.jsx:85-90 | a page is non-empty exactly when it is between 1 and the page count |
| Collection.PagesPartition | src/pages/Collection.jsx:86-90 | the pages from any page on, read in order, are the rest of the list |
| Collection.AllPages | src/pages/Collection.jsx:85-90 | all pages, read in order, give back every item once |
| Collection.Run | src/pages/Collection.jsx:97 | the numbers from lo to hi, in order |
| Collection.BarArith | src/pages/Collection.jsx:99-105 | the window lies between the first and last page and within two of the current one; a "..." shows exactly when the window misses the end it faces |
| Collection.PaginationButtons | src/pages/Collection.jsx:92-108 | up to 7 pages: exactly 1..n; beyond: starts with 1, ends with the last page, at most 9 entries, numbers strictly increasing, "..." exactly where numbers are skipped, every page near the current one shown and nothing else |
| Collection.BarSpaced | src/pages/Collection.jsx:98-106 | the assembled bar has 3 to 9 entries and is well spaced |
| Collection.BarNumbers | src/pages/Collection.jsx:99-105 | each entry of the bar is page 1, the last page, a window number or one of the two "..." |
| Collection.BarCovers | src/pages/Collection.jsx:98-106 | every number shown is 1, the last page or near the current one, and every such page is shown |
| Collection.CollectionPage.constructor | src/pages/Collection.jsx:10-16 | no choices, relevant order, page 1, and after the effect's mount run exactly the selected products in catalog order |
| Collection.CollectionPage.ToggleCategory | src/pages/Collection.jsx:19-26 | the category list is toggled; the effect at lines 77-79 then shows exactly the new selection, sorted as chosen, from page 1 |
| Collection.CollectionPage.ToggleSubCategory | src/pages/Collection.jsx:28-35 | the subcategory list is toggled; the effect then shows exactly the new selection, sorted as chosen, from page 1 |
| Collection.CollectionPage.SetSortType | src/pages/Collection.jsx:178 | a change of the sort order (the select fires only on a change); the effect at lines 77-79 then re-sorts the selection and returns to page 1 |
| Collection.CollectionPage.ApplyFilterAndSort | src/pages/Collection.jsx:37-75 | the result is a permutation of the selected products: in catalog order for "relevent", ascending or descending by price otherwise; the page resets to 1 |
| Collection.CollectionPage.PrevPage | src/pages/Collection.jsx:206-207 | one page back, except on page 1 |
| Collection.CollectionPage.NextPage | src/pages/Collection.jsx:229-230 | one page on, except on the last page; the page stays within range |
| Collection.CollectionPage.ClickButton | src/pages/Collection.jsx:216-222 | a number goes to that page, "..." does nothing |

## Left out

- HTTP: the axios posts and gets and the product-list fetch are not modelled. A post is the `postOk` outcome and a fetch is the `fetch` outcome, with the notices they raise. The HTTP transport, headers, error messages and toasts are not part of this model.
- Concurrency: in-flight refreshes that finish out of order are not modelled, and neither are React's render batching or effect scheduling. Each call is taken to run to completion before the next event. The one interleaving the model does show is the stale debounce commit under "## Findings".
- Bootstrapping: restoring the token from `localStorage` at start-up is not modelled. Nor are login, registration or logout in `src/pages/Login.jsx` and `src/pages/Profile.jsx`. The token is a string whose emptiness decides whether a call is remote.
- Wall-clock time: timer expiries are events. `DebounceDelayMs` records the delay but no member reasons about milliseconds.
- Cart data shapes: a fetched line with a missing quantity field, or a line whose product is missing, is not represented. Quantities are integers and a product always exists. A missing price is the `None` case.
- Numbers: prices and quantities are integers. JavaScript floating point and `NaN` arithmetic are not modelled. A non-numeric field value is the `NaN` case of `JsNumber`.
- Collection.Lower: folds only ASCII letters, because full Unicode case mapping is out of scope.
- Collection.SortByPrice: states sortedness and permutation but not stability. Items of equal price therefore have no stated relative order, although JavaScript's sort keeps them in input order.
- Collection.CollectionPage.ApplyFilterAndSort: for the two price orders, states a sorted permutation of the selection rather than the exact stable order.
- QuantityInput.CartItemInput.Fire: the committed value is in [1, 50] or equal to the prop. The code does not cap the prop, so a stronger bound does not hold.
- QuantityInput.CartItemInput.Fire: the commit is taken to act on the cart as it is when the timer fires, and the row's product and size are fixed for its lifetime. In the code, the effect depends only on `localQty`. Its callback therefore holds the `updateQuantity`, product id and size of the render where the draft last changed, and that `updateQuantity` maps that render's cart. Rows are keyed by position, so a row can change product without unmounting. The stale-cart outcome is shown under "## Findings"; the model's `ShopContext.UpdateQuantity` always reads the current cart.
- CartState.ShopContext.ClearCart: models the checkout and payment pages clearing the cart as the empty sequence. Those pages set it to an empty object (`src/pages/PlaceOrder.jsx:78`, `src/pages/Verify.jsx:29`).
- `src/pages/Product.jsx` passes a product id where `addToCart` expects a product object. That caller is not part of this model.
- Not modelled: the filter panel's show/hide toggle, `scrollTo` and all rendering.

## Findings

| source | as written | input that shows it | evidently intended | confidence | as-written member | corrected member |
|---|---|---|---|---|---|---|
| src/pages/Cart.jsx:17-22 | the debounce effect depends only on `localQty`, so its timer commits through the `updateQuantity` of an earlier render, which maps that render's cart (src/context/ShopContext.jsx:68-77) | cart [A(1), B(1)] at mount; B's bin removes B within the delay; A's mount timer then calls the captured `updateQuantity(A, size, 1)` on [A, B] and writes [A, B] back (no token, or the post or fetch fails) | a commit updates the cart as it is when the timer fires, so a removed line stays removed | medium; a reading of the code, not executed | QuantityInput.StaleCommitRevivesRemovedLine | QuantityInput.CommitOnCurrentCartKeepsRemoval |
