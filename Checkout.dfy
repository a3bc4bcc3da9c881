/** `Checkout.tsx`: the shipping form, the order request built from the cart, the price lines
    and the submit handler. The cart's lines and subtotal come from the cart store, which is not
    part of this model; the order API's answer is an input. */
module Checkout {
  import opened Results
  import opened Text
  import opened ClientTypes

  /** The form's fields. */
  datatype ShippingInfo = ShippingInfo(
    firstName: string, lastName: string, address: string, city: string, state: string, zipCode: string,
    phone: string)

  /** The form as first shown: the names come from the signed-in user, or are empty without one. */
  function InitialShippingInfo(user: Option<ClientUser>): (info: ShippingInfo)
    ensures user.Some? ==> info.firstName == user.value.firstName && info.lastName == user.value.lastName
    ensures user.None? ==> info.firstName == "" && info.lastName == ""
    ensures info.address == "" && info.city == "" && info.state == "" && info.zipCode == "" && info.phone == ""
  {
    match user
    case Some(u) => ShippingInfo(u.firstName, u.lastName, "", "", "", "", "")
    case None => ShippingInfo("", "", "", "", "", "", "")
  }

  /** The `name` attribute of a form input. */
  datatype Field = FirstName | LastName | Address | City | State | ZipCode | Phone

  /** The value of one field of the form. */
  function FieldOf(info: ShippingInfo, field: Field): string {
    match field
    case FirstName => info.firstName
    case LastName => info.lastName
    case Address => info.address
    case City => info.city
    case State => info.state
    case ZipCode => info.zipCode
    case Phone => info.phone
  }

  /** `{ ...prev, [name]: value }`: the named field takes the typed value, and every other field
      keeps its value. */
  function WithField(info: ShippingInfo, field: Field, value: string): (r: ShippingInfo)
    ensures FieldOf(r, field) == value
    ensures forall other: Field :: other != field ==> FieldOf(r, other) == FieldOf(info, other)
  {
    match field
    case FirstName => info.(firstName := value)
    case LastName => info.(lastName := value)
    case Address => info.(address := value)
    case City => info.(city := value)
    case State => info.(state := value)
    case ZipCode => info.(zipCode := value)
    case Phone => info.(phone := value)
  }

  /** `a`, then the separator, then `b`. */
  function Join(a: string, separator: string, b: string): string {
    a + separator + b
  }

  /** The shipping address sent with the order: "first last, address, city, state zip". */
  function ShippingAddress(info: ShippingInfo): string {
    Join(Join(info.firstName, " ", info.lastName), ", ",
         Join(info.address, ", ", Join(info.city, ", ", Join(info.state, " ", info.zipCode))))
  }

  /** The parts of an address, without the phone. */
  datatype AddressParts = AddressParts(
    firstName: string, lastName: string, address: string, city: string, state: string, zipCode: string)

  function PartsOf(info: ShippingInfo): AddressParts {
    AddressParts(info.firstName, info.lastName, info.address, info.city, info.state, info.zipCode)
  }

  /** The text after the first comma, without the space that follows it. */
  function AfterComma(s: string): string {
    var rest := SplitAt(s, ',').1;
    if rest == [] then rest else rest[1..]
  }

  /** Reads an address back: the names before the first comma, then address and city, then state
      and zip code; the first name and the state end at their first space. */
  function ParseAddress(s: string): AddressParts {
    var names := SplitAt(s, ',').0;
    var rest1 := AfterComma(s);
    var rest2 := AfterComma(rest1);
    var stateZip := AfterComma(rest2);
    AddressParts(SplitAt(names, ' ').0, SplitAt(names, ' ').1, SplitAt(rest1, ',').0, SplitAt(rest2, ',').0,
                 SplitAt(stateZip, ' ').0, SplitAt(stateZip, ' ').1)
  }

  /** Splitting a comma-joined text at its first comma. */
  lemma CommaJoin(a: string, b: string)
    requires ',' !in a
    ensures SplitAt(Join(a, ", ", b), ',').0 == a && AfterComma(Join(a, ", ", b)) == b
  {
    assert Join(a, ", ", b) == a + [','] + (" " + b);
    SplitAtJoin(a, " " + b, ',');
  }

  /** Splitting a space-joined text at its first space. */
  lemma SpaceJoin(a: string, b: string)
    requires ' ' !in a
    ensures SplitAt(Join(a, " ", b), ' ') == (a, b)
  {
    assert Join(a, " ", b) == a + [' '] + b;
    SplitAtJoin(a, b, ' ');
  }

  /** The address has a fixed layout: when no field holds a comma and neither the first name nor
      the state holds a space, every field can be read back from it, and the phone is not in it. */
  lemma AddressRoundTrip(info: ShippingInfo)
    requires ',' !in info.firstName && ',' !in info.lastName && ',' !in info.address
    requires ',' !in info.city && ',' !in info.state && ',' !in info.zipCode
    requires ' ' !in info.firstName && ' ' !in info.state
    ensures ParseAddress(ShippingAddress(info)) == PartsOf(info)
  {
    var names := Join(info.firstName, " ", info.lastName);
    var stateZip := Join(info.state, " ", info.zipCode);
    var rest2 := Join(info.city, ", ", stateZip);
    var rest1 := Join(info.address, ", ", rest2);
    assert ',' !in names;
    CommaJoin(names, rest1);
    CommaJoin(info.address, rest2);
    CommaJoin(info.city, stateZip);
    assert ',' !in stateZip;
    assert SplitAt(stateZip, ',').1 == [];
    SpaceJoin(info.firstName, info.lastName);
    SpaceJoin(info.state, info.zipCode);
  }

  /** The phone field never reaches the order. */
  lemma AddressIgnoresPhone(info: ShippingInfo, phone: string)
    ensures ShippingAddress(info.(phone := phone)) == ShippingAddress(info)
  {
  }

  /** `cartItems.map(...)`: one request line per cart line, in cart order, with the product's id
      and the line's quantity; no price is sent. */
  function RequestItems(cart: seq<CartItem>): (r: seq<RequestItem>)
    ensures |r| == |cart|
    ensures forall i :: 0 <= i < |cart| ==> r[i] == RequestItem(cart[i].product.id, cart[i].quantity)
  {
    if cart == [] then [] else [RequestItem(cart[0].product.id, cart[0].quantity)] + RequestItems(cart[1..])
  }

  /** The `OrderRequest` the submit handler sends. */
  function BuildOrderRequest(cart: seq<CartItem>, info: ShippingInfo): ClientOrderRequest {
    ClientOrderRequest(RequestItems(cart), ShippingAddress(info))
  }

  const FREE_SHIPPING_OVER: real := 50.0
  const SHIPPING_FEE: real := 9.99
  const TAX_RATE: real := 0.08

  /** Shipping is free strictly above 50, otherwise 9.99. */
  function Shipping(subtotal: real): (s: real)
    ensures s == 0.0 <==> subtotal > FREE_SHIPPING_OVER
    ensures s == 0.0 || s == SHIPPING_FEE
  {
    if subtotal > FREE_SHIPPING_OVER then 0.0 else SHIPPING_FEE
  }

  /** Tax is 8% of the subtotal. */
  function Tax(subtotal: real): real {
    subtotal * TAX_RATE
  }

  /** What the page shows as the total. */
  function Total(subtotal: real): real {
    subtotal + Shipping(subtotal) + Tax(subtotal)
  }

  /** The total is the subtotal with 8% tax, plus 9.99 unless the subtotal is above 50; so it
      drops when the subtotal crosses the threshold. */
  lemma TotalFormula(subtotal: real)
    ensures Total(subtotal) == (if subtotal > 50.0 then 1.08 * subtotal else 1.08 * subtotal + 9.99)
    ensures Total(50.0) > Total(50.01)
  {
  }

  const FALLBACK_ERROR := "Failed to place order. Please try again."

  /** The error shown after a failed submit: the server's `message` when it is a non-empty
      string, else the fallback text. */
  function ErrorText(e: ApiError): (t: string)
    ensures t != ""
    ensures e.message.Some? && e.message.value != "" ==> t == e.message.value
    ensures e.message.None? || e.message.value == "" ==> t == FALLBACK_ERROR
  {
    match e.message
    case Some(m) => if m != "" then m else FALLBACK_ERROR
    case None => FALLBACK_ERROR
  }

  /** The backend reports a failed order as a bare string body (the exception's message), which
      has no `message` field: the page then shows the fallback text, whatever the server said.
      Only a JSON body with a non-empty `message` reaches the user. */
  lemma ServiceErrorShowsFallback(body: ErrorBody)
    ensures body.TextBody? || body.NoResponse? ==> ErrorText(ErrorOf(body)) == FALLBACK_ERROR
    ensures ErrorText(ErrorOf(body)) != FALLBACK_ERROR ==>
      body.JsonBody? && "message" in body.fields && ErrorText(ErrorOf(body)) == body.fields["message"]
  {
  }

  const SUCCESS_PREFIX := "Order #"
  const SUCCESS_SUFFIX := " placed successfully! Thank you for your purchase."

  /** The message handed to the home page after a successful order. */
  function SuccessMessage(orderId: int): string {
    SUCCESS_PREFIX + IntToDecimal(orderId) + SUCCESS_SUFFIX
  }

  /** The success message names the order: different orders give different messages. */
  lemma SuccessMessageNamesOrder(i: int, j: int)
    requires SuccessMessage(i) == SuccessMessage(j)
    ensures i == j
  {
    var n := |SUCCESS_PREFIX|;
    var m := |SuccessMessage(i)| - |SUCCESS_SUFFIX|;
    assert |IntToDecimal(i)| == |IntToDecimal(j)|;
    assert SuccessMessage(i)[n..m] == IntToDecimal(i);
    assert SuccessMessage(j)[n..m] == IntToDecimal(j);
    IntToDecimalInjective(i, j);
  }

  /** The redirect effect, in the order it navigates: to /login without a session, then to
      /cart when the cart is empty (the page then renders nothing). */
  function Redirects(isAuthenticated: bool, cartLength: nat): (r: seq<string>)
    ensures "/login" in r <==> !isAuthenticated
    ensures "/cart" in r <==> cartLength == 0
    ensures |r| <= 2 && (|r| == 2 ==> r == ["/login", "/cart"])
  {
    (if isAuthenticated then [] else ["/login"]) + (if cartLength == 0 then ["/cart"] else [])
  }

  /** The page's state; `cartItems` is the cart store's content, which a successful submit clears. */
  class CheckoutPage {
    var shippingInfo: ShippingInfo
    var loading: bool
    var error: Option<string>
    var cartItems: seq<CartItem>
    var navigation: Option<Navigation>

    constructor (user: Option<ClientUser>, cartItems: seq<CartItem>)
      ensures shippingInfo == InitialShippingInfo(user) && !loading && error == None
      ensures this.cartItems == cartItems && navigation == None
    {
      shippingInfo := InitialShippingInfo(user);
      loading, error := false, None;
      this.cartItems := cartItems;
      navigation := None;
    }

    /** The page renders its form only for a non-empty cart. */
    predicate RendersForm()
      reads this
    {
      |cartItems| != 0
    }

    /** `handleInputChange`: the input named `field` now holds `value`. */
    method HandleInputChange(field: Field, value: string)
      modifies this
      ensures shippingInfo == WithField(old(shippingInfo), field, value)
      ensures loading == old(loading) && error == old(error) && cartItems == old(cartItems)
      ensures navigation == old(navigation)
    {
      shippingInfo := WithField(shippingInfo, field, value);
    }

    /** `handleSubmit`, given what `ordersAPI.create` answered: the request is built from the
        cart and the form; on success the cart is cleared and the browser goes home with the
        success message; on failure the cart stays and the error is shown. */
    method HandleSubmit(create: ApiResult<ClientOrder>) returns (sent: ClientOrderRequest)
      modifies this
      ensures sent == BuildOrderRequest(old(cartItems), old(shippingInfo))
      ensures !loading && shippingInfo == old(shippingInfo)
      ensures create.Ok? ==>
        && cartItems == [] && error == None
        && navigation == Some(Navigation("/", Some(SuccessMessage(create.value.id))))
      ensures create.Err? ==>
        cartItems == old(cartItems) && error == Some(ErrorText(create.error)) && navigation == old(navigation)
      ensures create.Err? ==> error.Some? && error.value != ""
    {
      loading := true;
      error := None;
      var shippingAddress := ShippingAddress(shippingInfo);
      sent := ClientOrderRequest(RequestItems(cartItems), shippingAddress);
      match create {
        case Ok(order) =>
          cartItems := [];
          navigation := Some(Navigation("/", Some(SuccessMessage(order.id))));
        case Err(e) =>
          error := Some(ErrorText(e));
      }
      loading := false;
    }
  }

  /** The page renders its form exactly when the redirect effect does not send the user back to
      the cart; for an empty cart it renders nothing and goes to /cart. */
  lemma FormRenderedUnlessRedirectedToCart(page: CheckoutPage, isAuthenticated: bool)
    ensures page.RendersForm() <==> "/cart" !in Redirects(isAuthenticated, |page.cartItems|)
  {
  }
}
