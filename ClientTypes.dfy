/** The client's view of the backend's records (`types/index.ts`), the outcomes of its API calls
    and the navigation requests its pages make. Client numbers are unbounded integers, money is
    `real`. */
module ClientTypes {
  import opened Results

  /** The signed-in user, as the session keeps it; `role` is `None` when it was not copied. */
  datatype ClientUser = ClientUser(
    id: int, username: string, email: string, firstName: string, lastName: string, role: Option<string>)

  /** `JwtResponse`: the body of a successful login. */
  datatype JwtResponse = JwtResponse(
    token: string, tokenType: string, id: int, username: string, email: string,
    firstName: string, lastName: string, role: string)

  datatype ClientCategory = ClientCategory(id: int, name: string)

  datatype ClientProduct = ClientProduct(
    id: int, name: string, description: string, price: real, stockQuantity: int,
    imageUrl: string, category: ClientCategory)

  /** A cart line: the product and how many of it. */
  datatype CartItem = CartItem(id: int, product: ClientProduct, quantity: int)

  datatype ClientOrder = ClientOrder(id: int, totalAmount: real, status: string)

  /** One line of the `OrderRequest` the client sends: no price travels with it. */
  datatype RequestItem = RequestItem(productId: int, quantity: int)

  datatype ClientOrderRequest = ClientOrderRequest(items: seq<RequestItem>, shippingAddress: string)

  /** A failed API call; `message` is `error.response?.data?.message`, absent when the body
      carries no `message` field (as when the server answers with a bare string). */
  datatype ApiError = ApiError(message: Option<string>)

  /** The body of a failed response: none (the request never got an answer), a bare string, or
      a JSON object (its string-valued fields). */
  datatype ErrorBody = NoResponse | TextBody(text: string) | JsonBody(fields: map<string, string>)

  /** `error.response?.data?.message`: a bare string has no `message` property. */
  function ErrorOf(body: ErrorBody): (e: ApiError)
    ensures e.message.Some? ==> body.JsonBody? && "message" in body.fields
  {
    match body
    case JsonBody(fields) => ApiError(if "message" in fields then Some(fields["message"]) else None)
    case _ => ApiError(None)
  }

  /** The outcome of an API call that returns a `T`. */
  type ApiResult<T> = Result<T, ApiError>

  /** `navigate(path, { state: { message } })`. */
  datatype Navigation = Navigation(path: string, message: Option<string>)
}
