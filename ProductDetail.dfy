/** `ProductDetail.tsx`: one product's page. It loads the product, keeps a quantity that only
    changes through a guarded setter, and adds (product, quantity) to the cart. The fetch's
    answer is an input, `parseInt`'s result is given as a `ParsedInt`, and the cart store is
    represented by the calls made to it. */
module ProductDetail {
  import opened Results
  import opened ClientTypes

  /** What `parseInt` gives: a number, or `NaN` (every comparison with `NaN` is false). */
  datatype ParsedInt = NaN | Num(value: int)

  /** A call `addToCart(product, quantity)`. */
  datatype CartAdd = CartAdd(product: ClientProduct, quantity: int)

  const NOT_FOUND := "Product not found"

  /** The guard of `handleQuantityChange`: a positive number within the loaded product's stock. */
  predicate Accepts(value: ParsedInt, product: Option<ClientProduct>) {
    value.Num? && value.value > 0 && product.Some? && value.value <= product.value.stockQuantity
  }

  /** The quantity after a change: the new value when the guard holds, else the old quantity. */
  function ChangedQuantity(quantity: int, value: ParsedInt, product: Option<ClientProduct>): (q: int)
    ensures Accepts(value, product) ==> q == value.value && 1 <= q <= product.value.stockQuantity
    ensures !Accepts(value, product) ==> q == quantity
  {
    if Accepts(value, product) then value.value else quantity
  }

  /** For one loaded product: whatever values arrive, the quantity stays at 1 or at a value that
      product's stock allowed; in particular it is always at least 1. The page does not reset the
      quantity when the route's id changes, so after moving to another product the quantity may
      exceed that product's stock; this lemma does not cover that case. */
  lemma {:induction false} QuantityStaysPositive(values: seq<ParsedInt>, product: Option<ClientProduct>)
    ensures QuantityAfter(values, product) >= 1
    ensures QuantityAfter(values, product) == 1
         || (product.Some? && QuantityAfter(values, product) <= product.value.stockQuantity)
  {
    if values != [] {
      QuantityStaysPositive(values[..|values| - 1], product);
    }
  }

  /** The quantity after a run of changes, starting from 1. */
  function QuantityAfter(values: seq<ParsedInt>, product: Option<ClientProduct>): int {
    if values == [] then 1
    else ChangedQuantity(QuantityAfter(values[..|values| - 1], product), values[|values| - 1], product)
  }

  /** The Add button is disabled when the stock is 0. */
  predicate AddDisabled(product: ClientProduct) {
    product.stockQuantity == 0
  }

  /** The quantity input is shown when the stock is positive. */
  predicate ShowsQuantityInput(product: ClientProduct) {
    product.stockQuantity > 0
  }

  /** The two stock tests do not cover every stock: the button is never disabled while the
      input shows, and a negative stock (which the backend can produce) leaves the button
      enabled with no quantity input, so the quantity stays 1. */
  lemma StockControls(product: ClientProduct)
    ensures !(AddDisabled(product) && ShowsQuantityInput(product))
    ensures !AddDisabled(product) && !ShowsQuantityInput(product) <==> product.stockQuantity < 0
    ensures AddDisabled(product) || ShowsQuantityInput(product) <==> product.stockQuantity >= 0
    ensures product.stockQuantity < 0 ==> forall v :: !Accepts(v, Some(product))
  {
  }

  /** What the page shows. */
  datatype DetailView = Spinner | NotFoundView | DetailsOf(product: ClientProduct)

  /** The page's state; `cartAdds` lists the calls made to the cart store. */
  class ProductDetailPage {
    var product: Option<ClientProduct>
    var loading: bool
    var error: Option<string>
    var quantity: int
    var showAlert: bool
    var cartAdds: seq<CartAdd>

    constructor ()
      ensures product == None && loading && error == None && quantity == 1 && !showAlert && cartAdds == []
    {
      product, loading, error := None, true, None;
      quantity, showAlert, cartAdds := 1, false, [];
    }

    /** Loading, then the not-found view on an error or without a product, then the details. */
    function View(): (v: DetailView)
      reads this
      ensures v.DetailsOf? <==> !loading && error.None? && product.Some?
      ensures !loading && error.Some? ==> v == NotFoundView
    {
      if loading then Spinner
      else if error.Some? || product.None? then NotFoundView
      else DetailsOf(product.value)
    }

    /** The fetch effect, given the route's `id` and what `productsAPI.getById` answered: without
        an id nothing happens; otherwise the product is set or the error says "Product not found",
        and loading stops. */
    method FetchProduct(id: string, response: ApiResult<ClientProduct>)
      modifies this
      ensures id == "" ==> product == old(product) && loading == old(loading) && error == old(error)
      ensures id != "" && response.Ok? ==> product == Some(response.value) && !loading && error == old(error)
      ensures id != "" && response.Err? ==> product == old(product) && !loading && error == Some(NOT_FOUND)
      ensures quantity == old(quantity) && showAlert == old(showAlert) && cartAdds == old(cartAdds)
    {
      if id == "" {
        return;
      }
      match response {
        case Ok(p) => product := Some(p);
        case Err(_) => error := Some(NOT_FOUND);
      }
      loading := false;
    }

    /** `handleQuantityChange`: the guarded setter. */
    method HandleQuantityChange(value: ParsedInt)
      modifies this
      ensures quantity == ChangedQuantity(old(quantity), value, product)
      ensures product == old(product) && loading == old(loading) && error == old(error)
      ensures showAlert == old(showAlert) && cartAdds == old(cartAdds)
    {
      if value.Num? && value.value > 0 && product.Some? && value.value <= product.value.stockQuantity {
        quantity := value.value;
      }
    }

    /** `handleAddToCart`: nothing without a product; otherwise one call with the product and the
        current quantity, and the confirmation shows (hiding it later is a timer, not modelled). */
    method HandleAddToCart()
      modifies this
      ensures product.None? ==> cartAdds == old(cartAdds) && showAlert == old(showAlert)
      ensures product.Some? ==> cartAdds == old(cartAdds) + [CartAdd(product.value, quantity)] && showAlert
      ensures product == old(product) && quantity == old(quantity) && loading == old(loading) && error == old(error)
    {
      if product.Some? {
        cartAdds := cartAdds + [CartAdd(product.value, quantity)];
        showAlert := true;
      }
    }
  }
}
