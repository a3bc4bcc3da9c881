/** The per-user queries of `OrderRepository` over the order table. Paging is not modelled. */
module OrderRepository {
  import opened Entities
  import opened Collections

  /** JPQL `o.user = :user`: entities compare by id. */
  function OwnedBy(user: User): Order -> bool {
    (o: Order) => o.userId == user.id
  }

  function OrderCreatedAt(o: Order): int { o.createdAt }

  /** `findByUser`: the user's orders, in table order. */
  function FindByUser(orders: seq<Order>, user: User): (r: seq<Order>)
    ensures forall i :: 0 <= i < |r| ==> r[i].userId == user.id && r[i] in orders
    ensures forall i :: 0 <= i < |orders| && orders[i].userId == user.id ==> orders[i] in r
  {
    Filter(orders, OwnedBy(user))
  }

  /** `findByUserOrderByCreatedAtDesc`: the same orders as `findByUser`, newest first. */
  function FindByUserOrderByCreatedAtDesc(orders: seq<Order>, user: User): (r: seq<Order>)
    ensures multiset(r) == multiset(FindByUser(orders, user))
    ensures Descending(r, OrderCreatedAt)
  {
    SortDescending(FindByUser(orders, user), OrderCreatedAt)
  }

  /** `findByUserAndStatus`: `o.user = :user AND o.status = :status`. */
  function FindByUserAndStatus(orders: seq<Order>, user: User, status: OrderStatus): (r: seq<Order>)
    ensures forall i :: 0 <= i < |r| ==> r[i].userId == user.id && r[i].status == status && r[i] in orders
    ensures forall i :: 0 <= i < |orders| && orders[i].userId == user.id && orders[i].status == status
              ==> orders[i] in r
  {
    Filter(orders, (o: Order) => o.userId == user.id && o.status == status)
  }

  /** `countByUser`: `SELECT COUNT(o) ... WHERE o.user = :user`. */
  function CountByUser(orders: seq<Order>, user: User): (n: nat)
    ensures n == |FindByUser(orders, user)|
  {
    CountIsFilterLength(orders, OwnedBy(user));
    Count(orders, OwnedBy(user))
  }
}
