/** The tables behind the Spring Data repositories (`UserRepository`, `CategoryRepository`,
    `ProductRepository`, `OrderRepository`), as one object whose fields the services update.
    Each table is a sequence of rows in storage order; ids are generated from counters. */
module Persistence {
  import opened Entities
  import opened Collections

  function UserId(u: User): int { u.id }
  function Username(u: User): string { u.username }
  function UserEmail(u: User): string { u.email }
  function CategoryId(c: Category): int { c.id }
  function ProductId(p: Product): int { p.id }
  function OrderId(o: Order): int { o.id }

  /** Primary keys and the unique user columns are distinct; counters are past every id in use. */
  predicate Consistent(users: seq<User>, categories: seq<Category>, products: seq<Product>, orders: seq<Order>,
                       nextUserId: int, nextProductId: int, nextOrderId: int)
  {
    && Distinct(users, UserId) && Distinct(users, Username) && Distinct(users, UserEmail)
    && Distinct(categories, CategoryId) && Distinct(products, ProductId) && Distinct(orders, OrderId)
    && (forall i :: 0 <= i < |users| ==> users[i].id < nextUserId)
    && (forall i :: 0 <= i < |products| ==> products[i].id < nextProductId)
    && (forall i :: 0 <= i < |orders| ==> orders[i].id < nextOrderId)
  }

  class Database {
    var users: seq<User>
    var categories: seq<Category>
    var products: seq<Product>
    var orders: seq<Order>
    var nextUserId: int
    var nextProductId: int
    var nextOrderId: int

    /** The tables satisfy the schema's constraints. */
    ghost predicate Valid()
      reads this
    {
      Consistent(users, categories, products, orders, nextUserId, nextProductId, nextOrderId)
    }

    /** An empty schema; generated ids start at 1. */
    constructor ()
      ensures Valid()
      ensures users == [] && categories == [] && products == [] && orders == []
      ensures nextUserId == 1 && nextProductId == 1 && nextOrderId == 1
    {
      users, categories, products, orders := [], [], [], [];
      nextUserId, nextProductId, nextOrderId := 1, 1, 1;
    }
  }
}
