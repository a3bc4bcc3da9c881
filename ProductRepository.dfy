/** The derived and JPQL queries of `ProductRepository`, as filters and orderings of the product table.
    Paging (`Pageable`) is not modelled: each query yields all matching rows. */
module ProductRepository {
  import opened Entities
  import opened Collections
  import Text

  function InCategory(categoryId: int): Product -> bool {
    (p: Product) => p.categoryId == categoryId
  }

  function PriceBetween(minPrice: int, maxPrice: int): Product -> bool {
    (p: Product) => minPrice <= p.price <= maxPrice
  }

  /** `findByCategory`: the products of that category, in table order. */
  function FindByCategory(table: seq<Product>, category: Category): (r: seq<Product>)
    ensures forall i :: 0 <= i < |r| ==> r[i].categoryId == category.id && r[i] in table
    ensures forall i :: 0 <= i < |table| && table[i].categoryId == category.id ==> table[i] in r
  {
    Filter(table, InCategory(category.id))
  }

  /** `findByNameContaining`: `p.name LIKE %:name%`. */
  function FindByNameContaining(table: seq<Product>, name: string): (r: seq<Product>)
    ensures forall i :: 0 <= i < |r| ==> Text.Contains(r[i].name, name) && r[i] in table
    ensures forall i :: 0 <= i < |table| && Text.Contains(table[i].name, name) ==> table[i] in r
  {
    Filter(table, (p: Product) => Text.Contains(p.name, name))
  }

  /** `findByPriceBetween`: `BETWEEN` includes both bounds. */
  function FindByPriceBetween(table: seq<Product>, minPrice: int, maxPrice: int): (r: seq<Product>)
    ensures forall i :: 0 <= i < |r| ==> minPrice <= r[i].price <= maxPrice && r[i] in table
    ensures forall i :: 0 <= i < |table| && minPrice <= table[i].price <= maxPrice ==> table[i] in r
    ensures minPrice > maxPrice ==> r == []
  {
    var r := Filter(table, PriceBetween(minPrice, maxPrice));
    assert r != [] ==> PriceBetween(minPrice, maxPrice)(r[0]);
    r
  }

  /** `findByCategoryAndPriceBetween`: both conditions of one `WHERE`. */
  function FindByCategoryAndPriceBetween(table: seq<Product>, category: Category, minPrice: int, maxPrice: int): seq<Product> {
    Filter(table, (p: Product) => p.categoryId == category.id && minPrice <= p.price <= maxPrice)
  }

  /** The combined query is the price filter applied to the category filter. */
  lemma {:induction false} CategoryAndPriceIsIntersection(table: seq<Product>, category: Category, minPrice: int, maxPrice: int)
    ensures FindByCategoryAndPriceBetween(table, category, minPrice, maxPrice)
         == FindByPriceBetween(FindByCategory(table, category), minPrice, maxPrice)
  {
    if table != [] {
      CategoryAndPriceIsIntersection(table[1..], category, minPrice, maxPrice);
      var p := table[0];
      if p.categoryId == category.id {
        assert FindByCategory(table, category) == [p] + FindByCategory(table[1..], category);
      } else {
        assert FindByCategory(table, category) == FindByCategory(table[1..], category);
      }
    }
  }

  function CreatedAt(p: Product): int { p.createdAt }

  /** `findTop8ByOrderByCreatedAtDesc`: the eight newest products, newest first. */
  function FindTop8ByOrderByCreatedAtDesc(table: seq<Product>): (r: seq<Product>)
    ensures |r| == if |table| < 8 then |table| else 8
    ensures Descending(r, CreatedAt)
    ensures multiset(r) <= multiset(table)
    ensures forall p :: p in multiset(table) - multiset(r) ==> |r| == 8 && p.createdAt <= r[7].createdAt
  {
    var sorted := SortDescending(table, CreatedAt);
    var n := if |table| < 8 then |table| else 8;
    TakeNewest(sorted, n);
    sorted[..n]
  }

  /** Cutting a newest-first sequence after `n` rows: the rows cut off are no newer than row `n - 1`. */
  lemma TakeNewest(sorted: seq<Product>, n: nat)
    requires Descending(sorted, CreatedAt) && n <= |sorted|
    ensures Descending(sorted[..n], CreatedAt)
    ensures multiset(sorted[..n]) <= multiset(sorted)
    ensures forall p :: p in multiset(sorted) - multiset(sorted[..n]) ==>
      n < |sorted| && (0 < n ==> p.createdAt <= sorted[n - 1].createdAt)
  {
    assert sorted == sorted[..n] + sorted[n..];
    assert multiset(sorted) == multiset(sorted[..n]) + multiset(sorted[n..]);
    RestNoNewer(sorted, n);
  }

  /** The rows after the first `n` of a newest-first sequence are no newer than row `n - 1`. */
  lemma RestNoNewer(sorted: seq<Product>, n: nat)
    requires Descending(sorted, CreatedAt) && n <= |sorted|
    ensures forall p :: p in multiset(sorted[n..]) ==>
      n < |sorted| && (0 < n ==> p.createdAt <= sorted[n - 1].createdAt)
  {
    forall p | p in multiset(sorted[n..])
      ensures n < |sorted| && (0 < n ==> p.createdAt <= sorted[n - 1].createdAt)
    {
      var m := PositionOf(sorted[n..], p);
      if 0 < n {
        DescendingAt(sorted, CreatedAt, n - 1, n + m);
      }
    }
  }

  /** `findAvailableProducts`: the products with stock left. */
  function FindAvailableProducts(table: seq<Product>): (r: seq<Product>)
    ensures forall i :: 0 <= i < |r| ==> r[i].stockQuantity > 0 && r[i] in table
    ensures forall i :: 0 <= i < |table| && table[i].stockQuantity > 0 ==> table[i] in r
  {
    Filter(table, (p: Product) => p.stockQuantity > 0)
  }
}
