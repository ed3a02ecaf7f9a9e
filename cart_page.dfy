/*
 * Decisions the cart page makes on its own.
 *
 * Money is modelled as integer cents instead of the page's floating-point
 * dollars: the free-shipping threshold of 50 dollars is 5000 cents and the
 * flat shipping charge of 5.99 dollars is 599 cents, so every comparison
 * against the threshold is exact. The cart store (its items, its totals and
 * the effect of its actions) belongs to a cart context that is not part of
 * this model: the page's inputs `items`, `totalPrice` and `totalItems` are
 * parameters here, and the store operations the page invokes are values of
 * `CartAction`.
 */
module CartPage {

  import ProductCard

  /** Orders strictly above this subtotal ship for free (50 dollars). */
  const FreeShippingThreshold: int := 5000

  /** Shipping charged at or below the threshold (5.99 dollars). */
  const FlatShipping: int := 599

  /**
   * A catalogue product as the page reads it; the price is in cents and the
   * title is a JavaScript string, shown as it is.
   */
  datatype Product = Product(id: int, title: ProductCard.JsString, price: int)

  /** One line of the cart: a product and how many of it. */
  datatype CartItem = CartItem(product: Product, quantity: int)

  /** A store operation one of the page's buttons asks for. */
  datatype CartAction =
    | RemoveFromCart(productId: int)
    | UpdateQuantity(productId: int, quantity: int)
    | ClearCart

  /**
   * `handleQuantityChange`: a requested quantity below 1 removes the item;
   * any other quantity is passed to the store as it is, never clamped.
   */
  function HandleQuantityChange(productId: int, newQuantity: int): (a: CartAction)
    ensures !a.ClearCart? && a.productId == productId
    ensures a.RemoveFromCart? <==> newQuantity < 1
    ensures a.UpdateQuantity? ==> a.quantity == newQuantity && a.quantity >= 1
  {
    if newQuantity < 1 then RemoveFromCart(productId) else UpdateQuantity(productId, newQuantity)
  }

  /** The minus button of an item: ask for one fewer. */
  function DecrementClicked(item: CartItem): CartAction
  {
    HandleQuantityChange(item.product.id, item.quantity - 1)
  }

  /** The plus button of an item: ask for one more. */
  function IncrementClicked(item: CartItem): CartAction
  {
    HandleQuantityChange(item.product.id, item.quantity + 1)
  }

  /**
   * On an item held at least once, minus at quantity 1 removes it, minus
   * above 1 lowers the quantity by one, and plus raises it by one.
   */
  lemma QuantityControls(item: CartItem)
    requires item.quantity >= 1
    ensures item.quantity == 1 ==> DecrementClicked(item) == RemoveFromCart(item.product.id)
    ensures item.quantity > 1 ==>
              DecrementClicked(item) == UpdateQuantity(item.product.id, item.quantity - 1)
    ensures IncrementClicked(item) == UpdateQuantity(item.product.id, item.quantity + 1)
  {
  }

  /** No control of the page ever asks the store for a quantity below 1. */
  lemma ControlsNeverUpdateBelowOne(item: CartItem)
    ensures DecrementClicked(item).UpdateQuantity? ==> DecrementClicked(item).quantity >= 1
    ensures IncrementClicked(item).UpdateQuantity? ==> IncrementClicked(item).quantity >= 1
  {
  }

  /** `shippingCost`: free strictly above the threshold, otherwise the flat charge. */
  function ShippingCost(totalPrice: int): (s: int)
    ensures s == 0 || s == FlatShipping
    ensures s == 0 <==> totalPrice > FreeShippingThreshold
  {
    if totalPrice > FreeShippingThreshold then 0 else FlatShipping
  }

  /** `finalTotal`: the subtotal with shipping added. */
  function FinalTotal(totalPrice: int): (t: int)
    ensures t >= totalPrice
    ensures t - totalPrice == ShippingCost(totalPrice)
  {
    totalPrice + ShippingCost(totalPrice)
  }

  /**
   * The total is the subtotal, or the subtotal and 5.99 more; it equals the
   * subtotal exactly when the order is above the threshold.
   */
  lemma FinalTotalShape(totalPrice: int)
    ensures FinalTotal(totalPrice) == totalPrice || FinalTotal(totalPrice) == totalPrice + 599
    ensures FinalTotal(totalPrice) == totalPrice <==> totalPrice > 5000
  {
  }

  /**
   * The total grows with the subtotal on either side of the threshold, but
   * crossing it lowers the total: one cent above 50 dollars costs 5.98
   * dollars less than exactly 50 dollars.
   */
  lemma FinalTotalAcrossThreshold(lower: int, higher: int)
    requires lower <= higher
    ensures (higher <= 5000 || lower > 5000) ==> FinalTotal(lower) <= FinalTotal(higher)
    ensures lower == 5000 && higher == 5001 ==> FinalTotal(higher) + 598 == FinalTotal(lower)
  {
  }

  /** The shipping line shows "Free" or a charge. */
  datatype ShippingDisplay = Free | Charge(amount: int)

  function ShippingLine(totalPrice: int): (d: ShippingDisplay)
    ensures d == Free <==> totalPrice > FreeShippingThreshold
    ensures d.Charge? ==> d.amount == FlatShipping
  {
    if ShippingCost(totalPrice) == 0 then Free else Charge(ShippingCost(totalPrice))
  }

  /** Whether the "add more for free shipping" hint is shown. */
  predicate ShowsFreeShippingHint(totalPrice: int)
  {
    totalPrice < FreeShippingThreshold && ShippingCost(totalPrice) > 0
  }

  /**
   * The hint is shown exactly below the threshold (its second condition
   * never decides anything), and never together with free shipping.
   */
  lemma HintBelowThreshold(totalPrice: int)
    ensures ShowsFreeShippingHint(totalPrice) <==> totalPrice < 5000
    ensures ShowsFreeShippingHint(totalPrice) ==> ShippingCost(totalPrice) == 599
  {
  }

  /** At exactly 50 dollars shipping is charged and no hint is shown. */
  lemma AtThreshold()
    ensures ShippingCost(5000) == 599 && !ShowsFreeShippingHint(5000)
  {
  }

  /** The amount the hint displays: what is left up to the threshold. */
  function HintAmount(totalPrice: int): (r: int)
    requires ShowsFreeShippingHint(totalPrice)
    ensures r > 0
    ensures totalPrice + r == FreeShippingThreshold
  {
    FreeShippingThreshold - totalPrice
  }

  /**
   * Adding exactly the amount the hint displays reaches the threshold but
   * does not pass it, so shipping is still charged.
   */
  lemma HintAmountFallsShort(totalPrice: int)
    requires ShowsFreeShippingHint(totalPrice)
    ensures ShippingCost(totalPrice + HintAmount(totalPrice)) == 599
  {
  }

  /**
   * The least amount, in cents, that makes an order at or below the
   * threshold ship for free.
   */
  function FreeShippingShortfall(totalPrice: int): (r: int)
    requires totalPrice <= FreeShippingThreshold
    ensures r > 0
    ensures ShippingCost(totalPrice + r) == 0
    ensures ShippingCost(totalPrice + r - 1) == FlatShipping
  {
    FreeShippingThreshold - totalPrice + 1
  }

  /** Adding any amount at least the shortfall makes shipping free, and any smaller amount does not. */
  lemma ShortfallIsExact(totalPrice: int, added: int)
    requires totalPrice <= 5000
    ensures ShippingCost(totalPrice + added) == 0 <==> added >= FreeShippingShortfall(totalPrice)
  {
  }

  /** The header's label: "item" for exactly one item, "items" otherwise. */
  function ItemLabel(totalItems: int): (word: string)
    ensures word == "item" <==> totalItems == 1
    ensures word != "item" ==> word == "items"
  {
    if totalItems == 1 then "item" else "items"
  }

  /** The page shows its empty-cart view when the store holds no items. */
  predicate ShowsEmptyCart(items: seq<CartItem>)
  {
    |items| == 0
  }

  /**
   * One rendered cart line: the product's id and title, its unit price, the
   * line subtotal, and the store actions its minus, plus and trash buttons
   * ask for.
   */
  datatype ItemRow = ItemRow(productId: int, title: ProductCard.JsString, unitPrice: int, lineSubtotal: int,
                             onMinus: CartAction, onPlus: CartAction, onRemove: CartAction)

  function RowOf(item: CartItem): ItemRow
  {
    ItemRow(item.product.id, item.product.title, item.product.price,
            item.product.price * item.quantity, DecrementClicked(item), IncrementClicked(item),
            RemoveFromCart(item.product.id))
  }

  /** The item list: one row per cart item, in the store's order. */
  function ItemRows(items: seq<CartItem>): (rows: seq<ItemRow>)
    ensures |rows| == |items|
    ensures forall i :: 0 <= i < |items| ==>
              rows[i].productId == items[i].product.id
              && rows[i].title == items[i].product.title
              && rows[i].unitPrice == items[i].product.price
              && rows[i].lineSubtotal == items[i].product.price * items[i].quantity
              && rows[i].onMinus == HandleQuantityChange(items[i].product.id, items[i].quantity - 1)
              && rows[i].onPlus == HandleQuantityChange(items[i].product.id, items[i].quantity + 1)
              && rows[i].onRemove == RemoveFromCart(items[i].product.id)
  {
    if items == [] then [] else [RowOf(items[0])] + ItemRows(items[1..])
  }

  /**
   * For an item held at least once, as the store keeps it, its row's minus
   * removes its own product exactly at quantity 1 and otherwise lowers it by
   * one, and its plus raises it by one.
   */
  lemma {:induction false} RowControls(items: seq<CartItem>, i: int)
    requires 0 <= i < |items|
    requires items[i].quantity >= 1
    ensures var row := ItemRows(items)[i];
            (row.onMinus == RemoveFromCart(row.productId) <==> items[i].quantity == 1)
            && (items[i].quantity > 1 ==> row.onMinus == UpdateQuantity(row.productId, items[i].quantity - 1))
            && row.onPlus == UpdateQuantity(row.productId, items[i].quantity + 1)
  {
    QuantityControls(items[i]);
  }

  /** The free-shipping hint: absent, or the amount it asks the shopper to add. */
  datatype FreeShippingHint = NoHint | AddMore(amount: int)

  function HintOf(totalPrice: int): (h: FreeShippingHint)
    ensures h.AddMore? <==> ShowsFreeShippingHint(totalPrice)
    ensures h.AddMore? ==> h.amount > 0 && totalPrice + h.amount == FreeShippingThreshold
  {
    if ShowsFreeShippingHint(totalPrice) then AddMore(HintAmount(totalPrice)) else NoHint
  }

  /** What the page renders, reduced to the decisions it makes. */
  datatype CartView =
    | EmptyCartView
    | ContentsView(itemLabel: string, rows: seq<ItemRow>, shipping: ShippingDisplay,
                   hint: FreeShippingHint, total: int, onClear: CartAction)

  /**
   * The whole page: the empty-cart view for an empty cart, otherwise the
   * item label, one row per item, the shipping line, the hint with its
   * amount, the total and the Clear Cart button's action.
   */
  function Render(items: seq<CartItem>, totalPrice: int, totalItems: int): (v: CartView)
    ensures v == EmptyCartView <==> items == []
    ensures v.ContentsView? ==>
              v.itemLabel == (if totalItems == 1 then "item" else "items")
              && v.rows == ItemRows(items)
              && v.shipping == (if totalPrice > 5000 then Free else Charge(599))
              && v.hint == (if totalPrice < 5000 then AddMore(5000 - totalPrice) else NoHint)
              && v.total == (if totalPrice > 5000 then totalPrice else totalPrice + 599)
              && v.onClear == ClearCart
  {
    if ShowsEmptyCart(items) then EmptyCartView
    else
      HintBelowThreshold(totalPrice);
      ContentsView(ItemLabel(totalItems), ItemRows(items), ShippingLine(totalPrice),
                   HintOf(totalPrice), FinalTotal(totalPrice), ClearCart)
  }
}
