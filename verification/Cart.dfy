/**
 * The cart page: the empty-cart branch, the order summary (fixed shipping,
 * a hard-coded 19 % tax, the total) and the requests the quantity and
 * trash buttons send to the cart.
 */
module Cart {
  import opened Wrappers
  import opened Money

  /** A cart line as the pages read it; `weight` is in kilograms and may be absent. */
  datatype CartItem = CartItem(id: int, price: real, quantity: int, weight: Option<real>)

  /** The summary panel: subtotal, shipping, rounded tax and total, in dinars. */
  datatype CartSummary = CartSummary(subtotal: real, shipping: real, tax: int, total: real)

  /** The shipping line of the cart page, independent of wilaya and settings. */
  const CartShipping: real := 800.0

  /** The tax rate of the cart page, independent of the configured rate. */
  const CartTaxRate: real := 0.19

  /** The summary for a cart whose total price is `subtotal`. */
  function Summary(subtotal: real): (s: CartSummary)
    ensures s.subtotal == subtotal && s.shipping == 800.0
    ensures s.tax as real - 0.5 <= subtotal * 0.19 < s.tax as real + 0.5
    ensures s.total == subtotal + 800.0 + s.tax as real
  {
    var tax := Round(subtotal * CartTaxRate);
    CartSummary(subtotal, CartShipping, tax, subtotal + CartShipping + tax as real)
  }

  /** What the page shows: nothing but the empty state for an empty cart, else the summary. */
  function CartView(items: seq<CartItem>, subtotal: real): (v: Option<CartSummary>)
    ensures v.None? <==> |items| == 0
    ensures v.Some? ==> v.value.shipping == CartShipping && v.value.subtotal == subtotal
  {
    if |items| == 0 then None else Some(Summary(subtotal))
  }

  /** The displayed total is within half a dinar of the exact `1.19 * subtotal + 800`. */
  lemma CartTotalNearExact(subtotal: real)
    ensures -0.5 < Summary(subtotal).total - (subtotal * 1.19 + 800.0) <= 0.5
  {
  }

  /** A larger subtotal never shows a smaller tax or total. */
  lemma CartTotalMonotone(s1: real, s2: real)
    requires s1 <= s2
    ensures Summary(s1).tax <= Summary(s2).tax
    ensures Summary(s1).total <= Summary(s2).total
  {
    RoundMonotone(s1 * 0.19, s2 * 0.19);
  }

  /** A whole-dinar subtotal gives a whole-dinar total. */
  lemma CartTotalWholeDinars(subtotal: int)
    ensures Summary(subtotal as real).total == (subtotal + 800 + Summary(subtotal as real).tax) as real
  {
  }

  /** A cart of 1000 DA shows 190 DA of tax and 1990 DA in total. */
  lemma CartSummaryExample()
    ensures Summary(1000.0) == CartSummary(1000.0, 800.0, 190, 1990.0)
  {
    RoundOfInteger(190);
  }

  // ---------------------------------------------------------------------
  // Button requests

  /** What a button asks the cart to do. */
  datatype CartRequest = SetQuantity(id: int, quantity: int) | RemoveItem(id: int)

  /** The minus button: one fewer of that item. */
  function MinusRequest(item: CartItem): (r: CartRequest)
    ensures r.SetQuantity? && r.id == item.id && r.quantity == item.quantity - 1
  {
    SetQuantity(item.id, item.quantity - 1)
  }

  /** The plus button: one more of that item. */
  function PlusRequest(item: CartItem): (r: CartRequest)
    ensures r.SetQuantity? && r.id == item.id && r.quantity == item.quantity + 1
  {
    SetQuantity(item.id, item.quantity + 1)
  }

  /** The trash button. */
  function TrashRequest(item: CartItem): (r: CartRequest)
    ensures r.RemoveItem? && r.id == item.id
  {
    RemoveItem(item.id)
  }

  /** Pressing minus on the line plus produced asks for the original quantity again. */
  lemma PlusThenMinusRestores(item: CartItem)
    ensures MinusRequest(item.(quantity := PlusRequest(item).quantity)) == SetQuantity(item.id, item.quantity)
    ensures PlusRequest(item.(quantity := MinusRequest(item).quantity)) == SetQuantity(item.id, item.quantity)
  {
  }
}
