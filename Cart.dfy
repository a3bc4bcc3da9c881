/** `Cart.tsx`: the order summary over the cart store's subtotal, the free-shipping hint, the
    checkout routing and the line handlers, which hand their arguments to the cart store. */
module Cart {
  import opened Results
  import opened ClientTypes
  import opened Checkout

  /** The shipping line: "FREE" strictly above 50, otherwise the fee. */
  function ShippingLabel(subtotal: real): (shown: string)
    ensures shown == "FREE" <==> subtotal > 50.0
    ensures shown != "FREE" ==> shown == "$9.99"
  {
    if subtotal > 50.0 then "FREE" else "$9.99"
  }

  /** The tax line. */
  function CartTax(subtotal: real): real {
    subtotal * 0.08
  }

  /** The total line, as the summary computes it. */
  function CartTotal(subtotal: real): real {
    subtotal + (if subtotal > 50.0 then 0.0 else 9.99) + subtotal * 0.08
  }

  /** The hint "Add $X more for free shipping!": shown strictly below 50, naming the gap. */
  function FreeShippingHint(subtotal: real): (hint: Option<real>)
    ensures hint.Some? <==> subtotal < 50.0
    ensures hint.Some? ==> hint.value == 50.0 - subtotal && hint.value > 0.0
  {
    if subtotal < 50.0 then Some(50.0 - subtotal) else None
  }

  /** The summary agrees with the checkout page: the label says FREE exactly when checkout charges
      no shipping, and the tax and total are the same numbers. */
  lemma SummaryMatchesCheckout(subtotal: real)
    ensures ShippingLabel(subtotal) == "FREE" <==> Shipping(subtotal) == 0.0
    ensures CartTax(subtotal) == Tax(subtotal)
    ensures CartTotal(subtotal) == Total(subtotal)
  {
  }

  /** Following the hint earns free shipping only past 50: at exactly 50 no hint is shown, yet
      shipping is still charged. */
  lemma NoHintYetChargedAtFifty()
    ensures FreeShippingHint(50.0).None? && Shipping(50.0) == 9.99 && ShippingLabel(50.0) == "$9.99"
  {
  }

  /** Where "Proceed to Checkout" leads. */
  function CheckoutRoute(isAuthenticated: bool): string {
    if isAuthenticated then "/checkout" else "/login"
  }

  /** The cart and the checkout page agree on who may check out: the button leads to /checkout
      exactly when the checkout page would not send the user to /login, and from a non-empty
      cart the checkout page then redirects nowhere. */
  lemma CheckoutRouteAgreesWithRedirects(isAuthenticated: bool, cartLength: nat)
    ensures CheckoutRoute(isAuthenticated) == "/checkout" <==> "/login" !in Redirects(isAuthenticated, cartLength)
    ensures CheckoutRoute(isAuthenticated) != "/checkout" ==> CheckoutRoute(isAuthenticated) == "/login"
    ensures cartLength > 0 && CheckoutRoute(isAuthenticated) == "/checkout" ==> Redirects(isAuthenticated, cartLength) == []
  {
  }

  /** What the page shows: the empty view, or the table with the summary. */
  datatype CartView =
    | EmptyCart
    | CartSummary(lines: seq<CartItem>, subtotal: real, shippingLabel: string, tax: real, total: real,
                  hint: Option<real>)

  function View(cartItems: seq<CartItem>, subtotal: real): (v: CartView)
    ensures v.EmptyCart? <==> |cartItems| == 0
    ensures v.CartSummary? ==>
      v.lines == cartItems && v.shippingLabel == ShippingLabel(subtotal) && v.total == Total(subtotal)
      && v.hint == FreeShippingHint(subtotal) && v.subtotal == subtotal && v.tax == Tax(subtotal)
  {
    if |cartItems| == 0 then EmptyCart
    else
      SummaryMatchesCheckout(subtotal);
      CartSummary(cartItems, subtotal, ShippingLabel(subtotal), CartTax(subtotal), CartTotal(subtotal),
                  FreeShippingHint(subtotal))
  }

  /** The cart store operation a line handler calls. */
  datatype CartCall = UpdateQuantity(productId: int, quantity: int) | RemoveFromCart(productId: int)

  /** The quantity box of a line: the product's id and the (parsed) number, passed on unchanged. */
  function QuantityChange(item: CartItem, quantity: int): CartCall {
    UpdateQuantity(item.product.id, quantity)
  }

  /** The remove button of a line. */
  function RemoveItem(item: CartItem): CartCall {
    RemoveFromCart(item.product.id)
  }
}
