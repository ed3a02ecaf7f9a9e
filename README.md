# Virtual shop navigator: title truncation and cart page rules

This project models the two pieces of decision logic in a client-side storefront's
user interface, and proves properties of them in Dafny.

- **Product card title truncation** (module `ProductCard`, file `product_card.dfy`).
  `truncateTitle(title, maxLength = 50)` shows a title unchanged when it fits.
  Otherwise it shows the first `maxLength` characters followed by `"..."`. The
  model keeps JavaScript's `substring` clamping: a negative limit keeps no
  characters, so the result is `"..."`. The default limit of 50 is a Dafny default
  parameter value. Titles are sequences of UTF-16 code units, as JavaScript strings
  are, so a cut can separate the two halves of a surrogate pair.
- **Cart page** (module `CartPage`, file `cart_page.dfy`). The model covers:
  - how a quantity change becomes a store action: below 1 is a removal,
    anything else an update with exactly that quantity;
  - what the +/- buttons ask for;
  - shipping: free strictly above 50 dollars, otherwise 5.99;
  - the final total;
  - the free-shipping hint;
  - the singular/plural item label;
  - the choice of the empty-cart view;
  - the rows of the item list, with the line subtotal and the actions of each row's
    minus, plus and trash buttons;
  - the Clear Cart button.

  `Render` combines these into the page's view.

Money is integer cents: the threshold is 5000 and the shipping charge is 599. All
comparisons with the threshold are therefore exact. The cart store lives in a cart
context that is not part of this model. The page reads three things from it: its
items, its total price and its total item count. These are parameters of the model.
The store operations the page's buttons call are values of the `CartAction` datatype:
`RemoveFromCart` (minus at quantity 1 and the trash button), `UpdateQuantity` (minus
and plus) and `ClearCart` (the Clear Cart button).

## Model

| member | source | states |
|---|---|---|
| `ProductCard.FitsUnchanged` | src/components/ProductCard.tsx:31 | a title whose length is at most `maxLength` is returned unchanged |
| `ProductCard.TooLongIsCut` | src/components/ProductCard.tsx:31 | a longer title becomes exactly its first `max(maxLength, 0)` characters followed by `"..."` |
| `ProductCard.LengthBound` | src/components/ProductCard.tsx:31 | the result is at most `max(maxLength, 0) + 3` long; for `maxLength >= 0` its length is `maxLength + 3` exactly when the title was cut |
| `ProductCard.KeepsPrefix` | src/components/ProductCard.tsx:31 | the first `min(length of title, maxLength)` characters of the result are those of the title; what follows is nothing or `"..."` |
| `ProductCard.TruncateTwice` | src/components/ProductCard.tsx:31 | truncating to `first` and then to `second <= first` gives the same as truncating straight to `second` |
| `ProductCard.Idempotent` | src/components/ProductCard.tsx:31 | truncating a truncated title again with the same limit changes nothing, for every limit |
| `ProductCard.FixedPoints` | src/components/ProductCard.tsx:31 | a title is left unchanged iff it fits, or it already is `max(maxLength, 0)` characters followed by `"..."` |
| `ProductCard.CutsThroughSurrogatePair` | src/components/ProductCard.tsx:31 | a limit of 1 on the two code units of U+1F600 keeps the lone high surrogate D83D, followed by `"..."` |
| `ProductCard.DefaultLimit` | src/components/ProductCard.tsx:30-31 | with no limit given, titles up to 50 characters are unchanged; longer ones become 53 characters: their first 50 and `"..."` |
| `CartPage.HandleQuantityChange` | src/pages/Cart.tsx:19-25 | the action concerns the given product; it is a removal iff the quantity is below 1; an update carries exactly the requested quantity, which is then at least 1 |
| `CartPage.QuantityControls` | src/pages/Cart.tsx:112-123 | on an item of quantity `n >= 1`: minus at `n = 1` removes it, minus at `n > 1` updates to `n - 1`, plus updates to `n + 1` |
| `CartPage.ControlsNeverUpdateBelowOne` | src/pages/Cart.tsx:19-25 | neither button ever asks the store for an update to a quantity below 1, whatever the item's quantity |
| `CartPage.ShippingCost` | src/pages/Cart.tsx:29 | shipping is 0 or 599 cents, and it is 0 iff the subtotal is strictly above 5000 cents |
| `CartPage.FinalTotal` | src/pages/Cart.tsx:30 | the total is never below the subtotal, and exceeds it by exactly the shipping cost |
| `CartPage.FinalTotalShape` | src/pages/Cart.tsx:29-30 | the total is the subtotal or the subtotal plus 599, and equals the subtotal iff the subtotal is above 5000 |
| `CartPage.FinalTotalAcrossThreshold` | src/pages/Cart.tsx:29-30 | the total grows with the subtotal on each side of the threshold; going from 5000 to 5001 cents lowers it by 598 |
| `CartPage.ShippingLine` | src/pages/Cart.tsx:181-185 | the shipping line reads "Free" iff the subtotal is above 5000; otherwise it shows 599 |
| `CartPage.HintBelowThreshold` | src/pages/Cart.tsx:189 | the free-shipping hint is shown iff the subtotal is below 5000 (the shipping condition never decides it); shipping is charged whenever it is shown |
| `CartPage.AtThreshold` | src/pages/Cart.tsx:189 | at a subtotal of exactly 5000 cents shipping is charged and no hint is shown |
| `CartPage.HintAmount` | src/pages/Cart.tsx:191 | the amount the hint shows is strictly positive and brings the subtotal exactly to the threshold |
| `CartPage.HintAmountFallsShort` | src/pages/Cart.tsx:189-191 | adding exactly the hinted amount still leaves shipping charged |
| `CartPage.FreeShippingShortfall` | src/pages/Cart.tsx:29 | for a subtotal at or below 5000, this is the least positive amount whose addition makes shipping free |
| `CartPage.ShortfallIsExact` | src/pages/Cart.tsx:29 | adding an amount makes shipping free iff the amount is at least the shortfall |
| `CartPage.ItemLabel` | src/pages/Cart.tsx:67 | the label is "item" iff the total item count is 1, and "items" otherwise |
| `CartPage.ItemRows` | src/pages/Cart.tsx:74-151 | one row per cart item, in order; row `i` carries item `i`'s product id, title, unit price and line subtotal `price * quantity`; its minus and plus buttons ask for the quantity changes to `quantity - 1` and `quantity + 1`; its trash button removes that product |
| `CartPage.RowControls` | src/pages/Cart.tsx:109-127 | when the item's quantity is at least 1, its row's minus removes its own product iff its quantity is 1 and otherwise updates it to one less; its plus updates it to one more |
| `CartPage.HintOf` | src/pages/Cart.tsx:189-191 | the hint is present iff its condition holds; its amount is then positive and brings the subtotal exactly to the threshold |
| `CartPage.Render` | src/pages/Cart.tsx:27-32 | the empty-cart view is chosen iff there are no items. Otherwise the view holds: the label, "item" for one item and "items" otherwise; exactly `ItemRows(items)`; `Free` above 5000, otherwise `Charge(599)`; the hint `AddMore(5000 - subtotal)` below 5000 and none otherwise; the total, the subtotal above 5000 and the subtotal plus 599 otherwise; and `ClearCart` as the Clear Cart button's action |

The functions that these rows are about model the source as follows:
- `ProductCard.TruncateTitle` models src/components/ProductCard.tsx:30-32.
- `CartPage.DecrementClicked` models src/pages/Cart.tsx:112.
- `CartPage.IncrementClicked` models src/pages/Cart.tsx:123.
- `CartPage.ShowsFreeShippingHint` models src/pages/Cart.tsx:189.
- `CartPage.ShowsEmptyCart` models src/pages/Cart.tsx:32.
- `CartPage.RowOf` models one iteration of the map at src/pages/Cart.tsx:74-151, including the trash button at src/pages/Cart.tsx:130-137.
- The `onClear` field of `CartPage.ContentsView` models the Clear Cart button at src/pages/Cart.tsx:155-162.

## Findings

| source | as written | input that shows it | evidently intended | confidence | as-written member | corrected member |
|---|---|---|---|---|---|---|
| src/pages/Cart.tsx:189-191 | the hint says "Add {50 - totalPrice} more for free shipping", but shipping is free only strictly above 50 (line 29) | subtotal 40.00: the hint asks for 10.00 more; a 50.00 subtotal still pays 5.99 | the hint names an amount that actually makes shipping free: in cents, `5001 - subtotal` | medium, not executed | `CartPage.HintAmountFallsShort` | `CartPage.FreeShippingShortfall` |

The page as modelled by `Render` shows the hint with the amount as written (`HintAmount`). The condition for showing it is the same under both readings.

## Left out

- The cart store (`addToCart`, `removeFromCart`, `updateQuantity`, `clearCart`, `getTotalItems`, `getTotalPrice`) lives in a cart context that is not part of this model. Its totals are parameters, and the operations the page's buttons ask for are `CartAction` values whose effect on the store is not modelled.
- Floating-point prices: the model uses integer cents and does not model the IEEE rounding of `price * quantity` or of `totalPrice + 5.99`.
- `formatPrice` is a wrapper over `Intl.NumberFormat`, a library outside this model. Amounts are kept as numbers, not as formatted text.
- `ProductCard.TruncateTitle` takes the limit as an integer. Fractional or NaN limits are not modelled. Titles are modelled as UTF-16 code units, not as Dafny `char`s, so lone surrogates are covered.
- The order summary's "Subtotal ({totalItems} items)" (src/pages/Cart.tsx:174) always says "items". It is fixed markup, not a decision.
- Rendering, routing, event plumbing, the product detail page, the header, the product grid, the loading skeletons and the HTTP client (src/services/api.ts) have no logic beyond markup and network calls. They are not modelled.
