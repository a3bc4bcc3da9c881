/** The backend's persistent entities and request DTOs, as values.
    Money is in integer cents (every price is a BigDecimal with two decimals);
    `Integer` quantities and stock counts are 32-bit two's-complement. */
module Entities {

  const INT32_MIN: int := -0x8000_0000
  const INT32_MAX: int := 0x7fff_ffff

  /** Java `int` / `Integer`. */
  type Int32 = x: int | -0x8000_0000 <= x <= 0x7fff_ffff

  /** Java's `int` subtraction and addition wrap modulo 2^32. */
  function Wrap32(x: int): (r: Int32)
    ensures INT32_MIN <= x <= INT32_MAX ==> r == x
    ensures (x - r) % 0x1_0000_0000 == 0
  {
    ((x + 0x8000_0000) % 0x1_0000_0000) - 0x8000_0000
  }

  /** Wrapping once per step is the same as wrapping the exact result. */
  lemma WrapSubtract(x: int, q: int)
    ensures Wrap32(Wrap32(x) - q) == Wrap32(x - q)
  {
    var k := (x + 0x8000_0000) / 0x1_0000_0000;
    assert Wrap32(x) == x - 0x1_0000_0000 * k;
    assert (Wrap32(x) - q + 0x8000_0000) == (x - q + 0x8000_0000) - 0x1_0000_0000 * k;
  }

  datatype Category = Category(id: int, name: string, description: string)

  /** `Product`: `price` in cents; `categoryId` stands for the `@ManyToOne` category, which JPQL compares by id. */
  datatype Product = Product(
    id: int, name: string, description: string, price: int,
    stockQuantity: Int32, imageUrl: string, categoryId: int, createdAt: int)

  /** `User`: `password` holds what the password encoder produced. */
  datatype User = User(
    id: int, username: string, email: string, password: string,
    firstName: string, lastName: string, address: string, phone: string)

  /** `OrderItem`: the product it refers to, the quantity and the unit price captured when ordered. */
  datatype OrderItem = OrderItem(productId: int, quantity: Int32, price: int)

  /** The name of a constant of the `Order.OrderStatus` enum (the enum itself is not part of this model). */
  type OrderStatus = string

  /** `Order`: `userId` stands for the `@ManyToOne` user. */
  datatype Order = Order(
    id: int, userId: int, orderItems: seq<OrderItem>, totalAmount: int,
    shippingAddress: string, status: OrderStatus, createdAt: int)

  /** `OrderItem.getSubtotal()`: assumed to be unit price times quantity. */
  function Subtotal(item: OrderItem): int {
    item.price * item.quantity
  }

  /** `OrderRequest.OrderItemRequest`. */
  datatype ItemRequest = ItemRequest(productId: int, quantity: Int32)

  /** `OrderRequest`. */
  datatype OrderRequest = OrderRequest(items: seq<ItemRequest>, shippingAddress: string)

  /** The characters `String.trim()` strips: every code point up to U+0020. */
  predicate Trimmed(c: char) {
    c <= ' '
  }

  /** `@NotBlank` (Hibernate Validator: non-null and `trim()` leaves something). */
  predicate NotBlank(s: string) {
    exists i :: 0 <= i < |s| && !Trimmed(s[i])
  }

  /** What `@Valid` checks of an `OrderRequest` before the controller calls the service. */
  predicate ValidOrderRequest(r: OrderRequest) {
    |r.items| > 0 && NotBlank(r.shippingAddress)
  }

  /** `SignupRequest`. */
  datatype SignupRequest = SignupRequest(
    username: string, email: string, password: string,
    firstName: string, lastName: string, address: string, phone: string)
}
