/** `OrderService`: placing an order against the product table, reading a user's orders,
    and changing an order's status. */
module OrderService {
  import opened Results
  import opened Entities
  import opened Collections
  import opened Persistence
  import OrderRepository
  import Text

  /** The `RuntimeException`s the service throws. */
  datatype OrderError =
    | UserNotFound
    | ProductNotFound(productId: int)
    | InsufficientStock(productName: string)
    | OrderNotFound

  /** The exception message, which the controller sends back as the body of a 400 response. */
  function Message(e: OrderError): string {
    match e
    case UserNotFound => "User not found"
    case ProductNotFound(id) => "Product not found: " + Text.IntToDecimal(id)
    case InsufficientStock(name) => "Insufficient stock for product: " + name
    case OrderNotFound => "Order not found"
  }

  /** The message of a missing product names exactly that product id. */
  lemma MessageNamesProduct(a: int, b: int)
    requires Message(ProductNotFound(a)) == Message(ProductNotFound(b))
    ensures a == b
  {
    var prefix := "Product not found: ";
    assert Message(ProductNotFound(a))[|prefix|..] == Text.IntToDecimal(a);
    assert Message(ProductNotFound(b))[|prefix|..] == Text.IntToDecimal(b);
    Text.IntToDecimalInjective(a, b);
  }

  /** `userRepository.findByUsername`. */
  function FindUser(users: seq<User>, username: string): (r: Option<User>)
    ensures r.Some? ==> r.value in users && r.value.username == username
    ensures r.None? <==> forall i :: 0 <= i < |users| ==> users[i].username != username
  {
    match Find(users, Username, username)
    case Some(i) => Some(users[i])
    case None => None
  }

  // ---------------------------------------------------------------------------
  // Placing an order: the specification of the loop in createOrder

  /** What the loop has built so far: the order items, the running total and the product table. */
  datatype Placement = Placement(items: seq<OrderItem>, total: int, table: seq<Product>)

  /** One iteration: look the product up in the current table, check its stock, snapshot the
      price, add the subtotal and decrement the stock (with Java's `int` wrap-around). */
  function PlaceLine(so: Placement, line: ItemRequest): Result<Placement, OrderError> {
    match Find(so.table, ProductId, line.productId)
    case None => Err(ProductNotFound(line.productId))
    case Some(i) =>
      var p := so.table[i];
      if p.stockQuantity < line.quantity then Err(InsufficientStock(p.name))
      else
        var item := OrderItem(p.id, line.quantity, p.price);
        Ok(Placement(so.items + [item], so.total + Subtotal(item),
                     so.table[i := p.(stockQuantity := Wrap32(p.stockQuantity - line.quantity))]))
  }

  /** Go on with one more line, unless an earlier line has already thrown. */
  function Then(r: Result<Placement, OrderError>, line: ItemRequest): Result<Placement, OrderError> {
    match r
    case Err(e) => Err(e)
    case Ok(so) => PlaceLine(so, line)
  }

  /** The loop over the first `n` request lines, in order, starting from no items, a zero total
      and `table`. */
  function PlaceUpTo(table: seq<Product>, lines: seq<ItemRequest>, n: nat): Result<Placement, OrderError>
    requires n <= |lines|
    decreases n
  {
    if n == 0 then Ok(Placement([], 0, table)) else Then(PlaceUpTo(table, lines, n - 1), lines[n - 1])
  }

  /** The whole loop of createOrder. */
  function Place(table: seq<Product>, lines: seq<ItemRequest>): Result<Placement, OrderError> {
    PlaceUpTo(table, lines, |lines|)
  }

  predicate HasProduct(table: seq<Product>, id: int) {
    exists i :: 0 <= i < |table| && table[i].id == id
  }

  /** One of the first `n` lines names product `id`. */
  predicate Names(lines: seq<ItemRequest>, n: nat, id: int)
    requires n <= |lines|
  {
    exists j :: 0 <= j < n && lines[j].productId == id
  }

  predicate NonNegative(lines: seq<ItemRequest>) {
    forall j :: 0 <= j < |lines| ==> lines[j].quantity >= 0
  }

  /** The total quantity the first `n` lines ask of product `id`. */
  function Requested(lines: seq<ItemRequest>, n: nat, id: int): int
    requires n <= |lines|
    decreases n
  {
    if n == 0 then 0
    else Requested(lines, n - 1, id) + (if lines[n - 1].productId == id then lines[n - 1].quantity else 0)
  }

  /** The sum of the first `n` item subtotals, added up from zero in item order. */
  function SumSubtotals(items: seq<OrderItem>, n: nat): int
    requires n <= |items|
    decreases n
  {
    if n == 0 then 0 else SumSubtotals(items, n - 1) + Subtotal(items[n - 1])
  }

  lemma {:induction false} SumSubtotalsAppend(items: seq<OrderItem>, item: OrderItem, n: nat)
    requires n <= |items|
    ensures SumSubtotals(items + [item], n) == SumSubtotals(items, n)
    decreases n
  {
    if n > 0 {
      SumSubtotalsAppend(items, item, n - 1);
      assert (items + [item])[n - 1] == items[n - 1];
    }
  }

  /** The same products, in the same rows, differing at most in their stock. */
  predicate SameCatalog(t: seq<Product>, t': seq<Product>) {
    |t| == |t'| && forall i :: 0 <= i < |t| ==> t'[i] == t[i].(stockQuantity := t'[i].stockQuantity)
  }

  /** The price of product `id` in `table` (zero for a product that is not there). */
  function PriceOf(table: seq<Product>, id: int): int {
    match Find(table, ProductId, id)
    case Some(i) => table[i].price
    case None => 0
  }

  lemma SameCatalogTrans(a: seq<Product>, b: seq<Product>, c: seq<Product>)
    requires SameCatalog(a, b) && SameCatalog(b, c)
    ensures SameCatalog(a, c)
  {
  }

  /** Tables that differ only in stock answer every lookup alike. */
  lemma SameCatalogLookup(t: seq<Product>, t': seq<Product>, id: int)
    requires SameCatalog(t, t')
    ensures Find(t', ProductId, id) == Find(t, ProductId, id)
    ensures HasProduct(t', id) <==> HasProduct(t, id)
    ensures PriceOf(t', id) == PriceOf(t, id)
    ensures Distinct(t, ProductId) ==> Distinct(t', ProductId)
    ensures forall i :: 0 <= i < |t| ==> t'[i].id == t[i].id && t'[i].name == t[i].name
  {
    forall i | 0 <= i < |t'| ensures ProductId(t'[i]) == ProductId(t[i]) {
      assert t'[i] == t[i].(stockQuantity := t'[i].stockQuantity);
    }
    FindSameKeys(t', ProductId, t, ProductId, id);
  }

  /** A successful step appends the item priced from the current table, adds its subtotal, and
      changes nothing in the table but stock. */
  lemma StepItems(so: Placement, line: ItemRequest)
    requires PlaceLine(so, line).Ok?
    ensures var so2 := PlaceLine(so, line).value;
      var item := OrderItem(line.productId, line.quantity, PriceOf(so.table, line.productId));
      && HasProduct(so.table, line.productId)
      && so2.items == so.items + [item]
      && so2.total == so.total + Subtotal(item)
      && SameCatalog(so.table, so2.table)
  {
    var i := Find(so.table, ProductId, line.productId).value;
    assert so.table[i].id == line.productId;
  }

  /** `t2` is `t` after a line for product `id` asking `quantity`: that product's stock drops
      by `quantity` (wrapping), every other row keeps its stock. */
  predicate StockStepOf(t: seq<Product>, id: int, quantity: int, t2: seq<Product>) {
    && |t2| == |t|
    && forall i :: 0 <= i < |t| ==>
         t2[i].stockQuantity == if t[i].id == id then Wrap32(t[i].stockQuantity - quantity) else t[i].stockQuantity
  }

  /** Every row of product `id` in `t` has at least `quantity` in stock (the check that passed). */
  predicate Covers(t: seq<Product>, id: int, quantity: int) {
    forall i :: 0 <= i < |t| && t[i].id == id ==> t[i].stockQuantity >= quantity
  }

  /** Row by row, a successful step lowers the stock of the product the line names, and only that. */
  lemma StepStock(so: Placement, line: ItemRequest)
    requires Distinct(so.table, ProductId) && PlaceLine(so, line).Ok?
    ensures StockStepOf(so.table, line.productId, line.quantity, PlaceLine(so, line).value.table)
  {
    var k := Find(so.table, ProductId, line.productId).value;
    forall i | 0 <= i < |so.table| && i != k ensures so.table[i].id != line.productId {
      assert ProductId(so.table[i]) != ProductId(so.table[k]);
    }
  }

  /** A step succeeds exactly when the line names a product of the current table whose stock
      covers the quantity asked. */
  lemma StepSucceeds(so: Placement, line: ItemRequest)
    requires Distinct(so.table, ProductId)
    ensures PlaceLine(so, line).Ok? <==>
      HasProduct(so.table, line.productId) && Covers(so.table, line.productId, line.quantity)
  {
    forall i | 0 <= i < |so.table| && so.table[i].id == line.productId
      ensures Find(so.table, ProductId, line.productId) == Some(i)
    {
      FindDistinct(so.table, ProductId, i);
    }
  }

  lemma RequestedUnnamed(lines: seq<ItemRequest>, n: nat, id: int)
    requires n <= |lines| && !Names(lines, n, id)
    ensures Requested(lines, n, id) == 0
    decreases n
  {
    if n > 0 {
      assert !Names(lines, n - 1, id);
      RequestedUnnamed(lines, n - 1, id);
    }
  }

  /** Once the first `k` lines have failed, the later lines change nothing: the same error. */
  lemma {:induction false} PrefixFailure(table: seq<Product>, lines: seq<ItemRequest>, k: nat, n: nat)
    requires k <= n <= |lines| && PlaceUpTo(table, lines, k).Err?
    ensures PlaceUpTo(table, lines, n) == PlaceUpTo(table, lines, k)
    decreases n
  {
    if k < n {
      PrefixFailure(table, lines, k, n - 1);
    }
  }

  /** A successful placement changes nothing in the table but stock. */
  lemma {:induction false} PlaceCatalog(table: seq<Product>, lines: seq<ItemRequest>, n: nat)
    requires n <= |lines| && PlaceUpTo(table, lines, n).Ok?
    ensures SameCatalog(table, PlaceUpTo(table, lines, n).value.table)
    decreases n
  {
    if n > 0 {
      PlaceCatalog(table, lines, n - 1);
      var so' := PlaceUpTo(table, lines, n - 1).value;
      StepItems(so', lines[n - 1]);
      SameCatalogTrans(table, so'.table, PlaceUpTo(table, lines, n).value.table);
    }
  }

  /** A successful placement has one item per line, in line order, carrying the requested quantity
      and the product's price, and its total is the sum of the subtotals. */
  lemma {:induction false} PlaceItems(table: seq<Product>, lines: seq<ItemRequest>, n: nat)
    requires n <= |lines| && PlaceUpTo(table, lines, n).Ok?
    ensures ItemsFor(table, lines, n, PlaceUpTo(table, lines, n).value)
    decreases n
  {
    if n > 0 {
      PlaceItems(table, lines, n - 1);
      PlaceCatalog(table, lines, n - 1);
      var so' := PlaceUpTo(table, lines, n - 1).value;
      StepItems(so', lines[n - 1]);
      SameCatalogLookup(table, so'.table, lines[n - 1].productId);
      ItemsStep(table, lines, n, so', PlaceLine(so', lines[n - 1]).value);
    }
  }

  /** `so` holds one item per line among the first `n`, each with the line's product and quantity
      and the product's price in `table`, and their total. */
  predicate ItemsFor(table: seq<Product>, lines: seq<ItemRequest>, n: nat, so: Placement)
    requires n <= |lines|
  {
    && |so.items| == n
    && so.total == SumSubtotals(so.items, n)
    && forall j :: 0 <= j < n ==>
         HasProduct(table, lines[j].productId)
         && so.items[j] == OrderItem(lines[j].productId, lines[j].quantity, PriceOf(table, lines[j].productId))
  }

  /** The induction step of `PlaceItems`. */
  lemma ItemsStep(table: seq<Product>, lines: seq<ItemRequest>, n: nat, so': Placement, so: Placement)
    requires 0 < n <= |lines| && ItemsFor(table, lines, n - 1, so')
    requires HasProduct(table, lines[n - 1].productId)
    requires var item := OrderItem(lines[n - 1].productId, lines[n - 1].quantity, PriceOf(table, lines[n - 1].productId));
      so.items == so'.items + [item] && so.total == so'.total + Subtotal(item)
    ensures ItemsFor(table, lines, n, so)
  {
    SumSubtotalsAppend(so'.items, so.items[n - 1], n - 1);
    forall j | 0 <= j < n
      ensures HasProduct(table, lines[j].productId)
      ensures so.items[j] == OrderItem(lines[j].productId, lines[j].quantity, PriceOf(table, lines[j].productId))
    {
      if j < n - 1 {
        assert so.items[j] == so'.items[j];
      }
    }
  }

  /** The stock createOrder leaves for product `id`: each of the first `n` lines naming it
      subtracts its quantity, wrapping as Java's `int` does. */
  function StockAfter(stock: Int32, lines: seq<ItemRequest>, n: nat, id: int): Int32
    requires n <= |lines|
    decreases n
  {
    if n == 0 then stock
    else
      var s := StockAfter(stock, lines, n - 1, id);
      if lines[n - 1].productId == id then Wrap32(s - lines[n - 1].quantity) else s
  }

  /** Wrapping at every line is the same as wrapping the total once. */
  lemma {:induction false} StockAfterRequested(stock: Int32, lines: seq<ItemRequest>, n: nat, id: int)
    requires n <= |lines|
    ensures StockAfter(stock, lines, n, id) == Wrap32(stock - Requested(lines, n, id))
    decreases n
  {
    if n > 0 {
      StockAfterRequested(stock, lines, n - 1, id);
      if lines[n - 1].productId == id {
        WrapSubtract(stock - Requested(lines, n - 1, id), lines[n - 1].quantity);
      }
    }
  }

  /** Each row of `t2` holds what the first `n` lines leave of the stock of the same row of `table`. */
  predicate StockFor(table: seq<Product>, lines: seq<ItemRequest>, n: nat, t2: seq<Product>)
    requires n <= |lines|
  {
    && |t2| == |table|
    && forall i :: 0 <= i < |table| ==>
         t2[i].stockQuantity == StockAfter(table[i].stockQuantity, lines, n, table[i].id)
  }

  /** The stock of every product is what the lines naming it leave, in 32-bit arithmetic. */
  lemma {:induction false} PlaceStock(table: seq<Product>, lines: seq<ItemRequest>, n: nat)
    requires Distinct(table, ProductId) && n <= |lines| && PlaceUpTo(table, lines, n).Ok?
    ensures StockFor(table, lines, n, PlaceUpTo(table, lines, n).value.table)
    decreases n
  {
    if n > 0 {
      PlaceStock(table, lines, n - 1);
      PlaceCatalog(table, lines, n - 1);
      var so' := PlaceUpTo(table, lines, n - 1).value;
      SameCatalogLookup(table, so'.table, lines[n - 1].productId);
      StepStock(so', lines[n - 1]);
      StockRows(table, lines, n, so'.table, PlaceLine(so', lines[n - 1]).value.table);
    }
  }

  /** The induction step of `PlaceStock`. */
  lemma StockRows(table: seq<Product>, lines: seq<ItemRequest>, n: nat, t': seq<Product>, t2: seq<Product>)
    requires 0 < n <= |lines| && SameCatalog(table, t') && StockFor(table, lines, n - 1, t')
    requires StockStepOf(t', lines[n - 1].productId, lines[n - 1].quantity, t2)
    ensures StockFor(table, lines, n, t2)
  {
    forall i | 0 <= i < |table|
      ensures t2[i].stockQuantity == StockAfter(table[i].stockQuantity, lines, n, table[i].id)
    {
      assert t'[i].id == table[i].id by {
        assert t'[i] == table[i].(stockQuantity := t'[i].stockQuantity);
      }
    }
  }

  /** The stock after an order, stated with the total quantity requested of each product. */
  lemma PlaceStockTotal(table: seq<Product>, lines: seq<ItemRequest>, n: nat)
    requires Distinct(table, ProductId) && n <= |lines| && PlaceUpTo(table, lines, n).Ok?
    ensures var so := PlaceUpTo(table, lines, n).value;
      && |so.table| == |table|
      && forall i :: 0 <= i < |table| ==>
           so.table[i].stockQuantity == Wrap32(table[i].stockQuantity - Requested(lines, n, table[i].id))
  {
    PlaceStock(table, lines, n);
    forall i | 0 <= i < |table| {
      StockAfterRequested(table[i].stockQuantity, lines, n, table[i].id);
    }
  }

  /** A product the request does not name keeps its row unchanged. */
  lemma PlaceKeepsUnnamed(table: seq<Product>, lines: seq<ItemRequest>, n: nat)
    requires Distinct(table, ProductId) && n <= |lines| && PlaceUpTo(table, lines, n).Ok?
    ensures var so := PlaceUpTo(table, lines, n).value;
      forall i :: 0 <= i < |table| && !Names(lines, n, table[i].id) ==> i < |so.table| && so.table[i] == table[i]
  {
    PlaceCatalog(table, lines, n);
    PlaceStockTotal(table, lines, n);
    forall i | 0 <= i < |table| && !Names(lines, n, table[i].id)
      ensures Requested(lines, n, table[i].id) == 0
    {
      RequestedUnnamed(lines, n, table[i].id);
    }
  }

  /** Each row of `t2` holds exactly the stock of the same row of `table` less what the first `n`
      lines ask of it, and that is zero or more for the products they name. */
  predicate ExactStockFor(table: seq<Product>, lines: seq<ItemRequest>, n: nat, t2: seq<Product>)
    requires n <= |lines|
  {
    && |t2| == |table|
    && forall i :: 0 <= i < |table| ==>
         && t2[i].stockQuantity == table[i].stockQuantity - Requested(lines, n, table[i].id)
         && (Names(lines, n, table[i].id) ==> t2[i].stockQuantity >= 0)
  }

  /** With no negative quantities nothing wraps: the stock falls by exactly the quantity requested,
      and every product the request names is left with a stock of zero or more. */
  lemma {:induction false} PlaceStockExact(table: seq<Product>, lines: seq<ItemRequest>, n: nat)
    requires Distinct(table, ProductId) && NonNegative(lines) && n <= |lines| && PlaceUpTo(table, lines, n).Ok?
    ensures ExactStockFor(table, lines, n, PlaceUpTo(table, lines, n).value.table)
    decreases n
  {
    if n > 0 {
      var line := lines[n - 1];
      PlaceStockExact(table, lines, n - 1);
      PlaceCatalog(table, lines, n - 1);
      var so' := PlaceUpTo(table, lines, n - 1).value;
      SameCatalogLookup(table, so'.table, line.productId);
      StepStock(so', line);
      StepSucceeds(so', line);
      ExactRows(table, lines, n, so'.table, PlaceLine(so', line).value.table);
    }
  }

  /** The induction step of `PlaceStockExact`. */
  lemma ExactRows(table: seq<Product>, lines: seq<ItemRequest>, n: nat, t': seq<Product>, t2: seq<Product>)
    requires 0 < n <= |lines| && NonNegative(lines) && SameCatalog(table, t')
    requires ExactStockFor(table, lines, n - 1, t')
    requires Covers(t', lines[n - 1].productId, lines[n - 1].quantity)
    requires StockStepOf(t', lines[n - 1].productId, lines[n - 1].quantity, t2)
    ensures ExactStockFor(table, lines, n, t2)
  {
    var line := lines[n - 1];
    forall i | 0 <= i < |table|
      ensures t2[i].stockQuantity == table[i].stockQuantity - Requested(lines, n, table[i].id)
      ensures Names(lines, n, table[i].id) ==> t2[i].stockQuantity >= 0
    {
      assert t'[i].id == table[i].id by {
        assert t'[i] == table[i].(stockQuantity := t'[i].stockQuantity);
      }
      assert line.quantity >= 0;
      if Names(lines, n, table[i].id) && line.productId != table[i].id {
        var j :| 0 <= j < n && lines[j].productId == table[i].id;
        assert Names(lines, n - 1, table[i].id);
      }
    }
  }

  /** The reference condition for success of the first `n` lines: each names a product in the
      table, and for every product they name, the total quantity asked of it is within its stock. */
  predicate Feasible(table: seq<Product>, lines: seq<ItemRequest>, n: nat)
    requires n <= |lines|
  {
    && (forall j :: 0 <= j < n ==> HasProduct(table, lines[j].productId))
    && (forall i :: 0 <= i < |table| && Names(lines, n, table[i].id) ==>
          Requested(lines, n, table[i].id) <= table[i].stockQuantity)
  }

  /** With no negative quantities, an order succeeds exactly when it is feasible against the
      stock at the start: checking line by line against the decremented stock is the same as
      checking each product's total. */
  lemma {:induction false} PlaceSucceedsIffFeasible(table: seq<Product>, lines: seq<ItemRequest>, n: nat)
    requires Distinct(table, ProductId) && NonNegative(lines) && n <= |lines|
    ensures PlaceUpTo(table, lines, n).Ok? <==> Feasible(table, lines, n)
    decreases n
  {
    if n > 0 {
      PlaceSucceedsIffFeasible(table, lines, n - 1);
      if Feasible(table, lines, n) {
        FeasiblePrefix(table, lines, n);
      }
      if PlaceUpTo(table, lines, n - 1).Ok? {
        var line := lines[n - 1];
        PlaceCatalog(table, lines, n - 1);
        PlaceStockExact(table, lines, n - 1);
        var so' := PlaceUpTo(table, lines, n - 1).value;
        SameCatalogLookup(table, so'.table, line.productId);
        StepSucceeds(so', line);
        if Feasible(table, lines, n) {
          FeasibleCovers(table, lines, n, so'.table);
        }
        if PlaceLine(so', line).Ok? {
          CoversFeasible(table, lines, n, so'.table);
        }
      }
    }
  }

  /** Feasibility of the first `n` lines implies feasibility of the first `n - 1`. */
  lemma FeasiblePrefix(table: seq<Product>, lines: seq<ItemRequest>, n: nat)
    requires 0 < n <= |lines| && NonNegative(lines) && Feasible(table, lines, n)
    ensures Feasible(table, lines, n - 1)
  {
    forall i | 0 <= i < |table| && Names(lines, n - 1, table[i].id)
      ensures Requested(lines, n - 1, table[i].id) <= table[i].stockQuantity
    {
      var j :| 0 <= j < n - 1 && lines[j].productId == table[i].id;
      assert Names(lines, n, table[i].id);
    }
  }

  /** After the first `n - 1` lines of a feasible prefix, line `n - 1` finds its product with
      enough stock. */
  lemma FeasibleCovers(table: seq<Product>, lines: seq<ItemRequest>, n: nat, t': seq<Product>)
    requires 0 < n <= |lines| && Feasible(table, lines, n)
    requires SameCatalog(table, t') && ExactStockFor(table, lines, n - 1, t')
    ensures HasProduct(t', lines[n - 1].productId) && Covers(t', lines[n - 1].productId, lines[n - 1].quantity)
  {
    var line := lines[n - 1];
    assert Names(lines, n, line.productId);
    SameCatalogLookup(table, t', line.productId);
  }

  /** A prefix whose last line found its product with enough stock is feasible if the shorter
      prefix is. */
  lemma CoversFeasible(table: seq<Product>, lines: seq<ItemRequest>, n: nat, t': seq<Product>)
    requires 0 < n <= |lines| && Feasible(table, lines, n - 1)
    requires SameCatalog(table, t') && ExactStockFor(table, lines, n - 1, t')
    requires HasProduct(t', lines[n - 1].productId) && Covers(t', lines[n - 1].productId, lines[n - 1].quantity)
    ensures Feasible(table, lines, n)
  {
    var line := lines[n - 1];
    SameCatalogLookup(table, t', line.productId);
    forall i | 0 <= i < |table| && Names(lines, n, table[i].id)
      ensures Requested(lines, n, table[i].id) <= table[i].stockQuantity
    {
      if line.productId != table[i].id {
        var j :| 0 <= j < n && lines[j].productId == table[i].id;
        assert Names(lines, n - 1, table[i].id);
      }
    }
  }

  /** Line `k` is the first to fail, and `e` is what it throws there. */
  predicate FailsAt(table: seq<Product>, lines: seq<ItemRequest>, k: int, e: OrderError) {
    && 0 <= k < |lines|
    && PlaceUpTo(table, lines, k).Ok?
    && match e
       case ProductNotFound(id) => id == lines[k].productId && !HasProduct(table, id)
       case InsufficientStock(name) =>
         var current := PlaceUpTo(table, lines, k).value.table;
         exists i :: 0 <= i < |current| && current[i].id == lines[k].productId
                     && current[i].name == name && current[i].stockQuantity < lines[k].quantity
       case _ => false
  }

  /** A failed placement is explained by its first failing line: either that line names no product
      of the table, or that product's current stock is below the quantity asked. */
  lemma {:induction false} PlaceFailure(table: seq<Product>, lines: seq<ItemRequest>, n: nat)
    requires n <= |lines| && PlaceUpTo(table, lines, n).Err?
    ensures exists k :: k < n && FailsAt(table, lines, k, PlaceUpTo(table, lines, n).error)
    decreases n
  {
    var e := PlaceUpTo(table, lines, n).error;
    if PlaceUpTo(table, lines, n - 1).Err? {
      PlaceFailure(table, lines, n - 1);
    } else {
      PlaceCatalog(table, lines, n - 1);
      var so' := PlaceUpTo(table, lines, n - 1).value;
      SameCatalogLookup(table, so'.table, lines[n - 1].productId);
      assert FailsAt(table, lines, n - 1, e);
    }
  }

  /** Conversely, a line naming a product absent from the table, reached with every earlier line
      placed, makes the whole request fail with that product's id. */
  lemma MissingProductFails(table: seq<Product>, lines: seq<ItemRequest>, k: nat)
    requires k < |lines| && PlaceUpTo(table, lines, k).Ok? && !HasProduct(table, lines[k].productId)
    ensures Place(table, lines) == Err(ProductNotFound(lines[k].productId))
  {
    PlaceCatalog(table, lines, k);
    SameCatalogLookup(table, PlaceUpTo(table, lines, k).value.table, lines[k].productId);
    PrefixFailure(table, lines, k + 1, |lines|);
  }

  /** A line asking more than the stock the earlier lines left makes the request fail with that
      product's name. */
  lemma InsufficientStockFails(table: seq<Product>, lines: seq<ItemRequest>, k: nat, i: nat)
    requires Distinct(table, ProductId) && k < |lines| && PlaceUpTo(table, lines, k).Ok?
    requires var current := PlaceUpTo(table, lines, k).value.table;
      i < |current| && current[i].id == lines[k].productId && current[i].stockQuantity < lines[k].quantity
    ensures Place(table, lines) == Err(InsufficientStock(PlaceUpTo(table, lines, k).value.table[i].name))
  {
    PlaceCatalog(table, lines, k);
    var current := PlaceUpTo(table, lines, k).value.table;
    SameCatalogLookup(table, current, lines[k].productId);
    FindDistinct(current, ProductId, i);
    PrefixFailure(table, lines, k + 1, |lines|);
  }

  /** Nothing rejects a negative quantity: it passes the stock check and raises the stock. */
  lemma NegativeQuantityRaisesStock()
    ensures var pen := Product(1, "Pen", "", 150, 5, "", 1, 0);
      Place([pen], [ItemRequest(1, -3)])
        == Ok(Placement([OrderItem(1, -3, 150)], -450, [pen.(stockQuantity := 8)]))
  {
    var pen := Product(1, "Pen", "", 150, 5, "", 1, 0);
    var line := ItemRequest(1, -3);
    assert Find([pen], ProductId, 1) == Some(0);
    assert Wrap32(5 - -3) == 8;
    assert [] + [OrderItem(1, -3, 150)] == [OrderItem(1, -3, 150)];
    assert [pen][0 := pen.(stockQuantity := 8)] == [pen.(stockQuantity := 8)];
    assert PlaceUpTo([pen], [line], 1) == PlaceLine(Placement([], 0, [pen]), line);
  }

  /** ... and past `Integer.MAX_VALUE` the stock wraps around to a negative number. */
  lemma NegativeQuantityWrapsStock()
    ensures var pen := Product(1, "Pen", "", 150, INT32_MAX, "", 1, 0);
      Place([pen], [ItemRequest(1, -1)]).Ok?
      && Place([pen], [ItemRequest(1, -1)]).value.table[0].stockQuantity == INT32_MIN
  {
    var pen := Product(1, "Pen", "", 150, INT32_MAX, "", 1, 0);
    assert Find([pen], ProductId, 1) == Some(0);
  }

  // ---------------------------------------------------------------------------
  // The service methods

  /** Entity defaults of a new `Order` (the entity is not part of this model). */
  datatype OrderDefaults = OrderDefaults(status: OrderStatus, createdAt: int)

  /** What createOrder returns and leaves in the product and order tables and the order counter. */
  datatype OrderOutcome = OrderOutcome(
    result: Result<Order, OrderError>, products: seq<Product>, orders: seq<Order>, nextOrderId: int)

  /** `createOrder` (`@Transactional`) on values: the user must exist; then the lines are placed
      in order; a failure leaves every table as it was (the rollback); a success saves the order,
      with the next order id, the user, the items, the total and the shipping address. */
  function CreateOrderResult(users: seq<User>, products: seq<Product>, orders: seq<Order>, nextOrderId: int,
                             request: OrderRequest, username: string, defaults: OrderDefaults): OrderOutcome
  {
    match FindUser(users, username)
    case None => OrderOutcome(Err(UserNotFound), products, orders, nextOrderId)
    case Some(user) =>
      match Place(products, request.items)
      case Err(e) => OrderOutcome(Err(e), products, orders, nextOrderId)
      case Ok(so) =>
        var order := Order(nextOrderId, user.id, so.items, so.total, request.shippingAddress,
                           defaults.status, defaults.createdAt);
        OrderOutcome(Ok(order), so.table, orders + [order], nextOrderId + 1)
  }

  /** A failed createOrder changed nothing, and it fails with `UserNotFound` exactly when the
      username is unknown: the user is looked up before any line. */
  lemma CreateOrderFailure(users: seq<User>, products: seq<Product>, orders: seq<Order>, nextOrderId: int,
                           request: OrderRequest, username: string, defaults: OrderDefaults)
    ensures var out := CreateOrderResult(users, products, orders, nextOrderId, request, username, defaults);
      && (out.result.Err? ==>
            out.products == products && out.orders == orders && out.nextOrderId == nextOrderId)
      && (out.result == Err(UserNotFound) <==> FindUser(users, username).None?)
  {
    if FindUser(users, username).Some? && Place(products, request.items).Err? {
      PlaceFailure(products, request.items, |request.items|);
    }
  }

  /** What a created order holds: the next order id, the user's id, the shipping address, one
      item per line at the catalogue price and the sum of the subtotals as total; it is appended
      to the orders and the counter moves on. */
  lemma CreateOrderSuccess(users: seq<User>, products: seq<Product>, orders: seq<Order>, nextOrderId: int,
                           request: OrderRequest, username: string, defaults: OrderDefaults)
    requires Distinct(products, ProductId)
    ensures var out := CreateOrderResult(users, products, orders, nextOrderId, request, username, defaults);
      var lines := request.items;
      out.result.Ok? ==>
        var o := out.result.value;
        && FindUser(users, username).Some?
        && o.id == nextOrderId && o.userId == FindUser(users, username).value.id
        && o.shippingAddress == request.shippingAddress
        && |o.orderItems| == |lines|
        && (forall j :: 0 <= j < |lines| ==>
              o.orderItems[j] == OrderItem(lines[j].productId, lines[j].quantity, PriceOf(products, lines[j].productId)))
        && o.totalAmount == SumSubtotals(o.orderItems, |lines|)
        && out.orders == orders + [o] && out.nextOrderId == nextOrderId + 1
  {
    if FindUser(users, username).Some? && Place(products, request.items).Ok? {
      PlaceItems(products, request.items, |request.items|);
    }
  }

  /** What a created order did to the catalogue: each product's stock falls by the total
      quantity its lines ask, in 32-bit arithmetic. */
  lemma CreateOrderStock(users: seq<User>, products: seq<Product>, orders: seq<Order>, nextOrderId: int,
                         request: OrderRequest, username: string, defaults: OrderDefaults)
    requires Distinct(products, ProductId)
    ensures var out := CreateOrderResult(users, products, orders, nextOrderId, request, username, defaults);
      out.result.Ok? ==>
        && |out.products| == |products|
        && (forall i :: 0 <= i < |products| ==>
              out.products[i].stockQuantity
              == Wrap32(products[i].stockQuantity - Requested(request.items, |request.items|, products[i].id)))
  {
    if FindUser(users, username).Some? && Place(products, request.items).Ok? {
      PlaceStockTotal(products, request.items, |request.items|);
    }
  }

  /** The loop of createOrder over the request lines. It works on `table`, the products as the
      transaction sees them: each line looks its product up, checks and decrements its stock;
      the first failing line ends the loop with that line's error. */
  method PlaceLines(table: seq<Product>, lines: seq<ItemRequest>) returns (r: Result<Placement, OrderError>)
    ensures r == Place(table, lines)
  {
    var products := table;
    var items: seq<OrderItem> := [];
    var totalAmount := 0;
    var k := 0;
    while k < |lines|
      invariant 0 <= k <= |lines|
      invariant PlaceUpTo(table, lines, k) == Ok(Placement(items, totalAmount, products))
    {
      ghost var before := Placement(items, totalAmount, products);
      var itemRequest := lines[k];
      var found := Find(products, ProductId, itemRequest.productId);
      if found.None? {
        r := Err(ProductNotFound(itemRequest.productId));
        FirstFailureIsFinal(table, lines, k, before, r.error);
        return;
      }
      var i := found.value;
      var product := products[i];
      if product.stockQuantity < itemRequest.quantity {
        r := Err(InsufficientStock(product.name));
        FirstFailureIsFinal(table, lines, k, before, r.error);
        return;
      }
      var orderItem := OrderItem(product.id, itemRequest.quantity, product.price);
      items := items + [orderItem];
      totalAmount := totalAmount + Subtotal(orderItem);
      // Update stock
      products := products[i := product.(stockQuantity := Wrap32(product.stockQuantity - itemRequest.quantity))];
      assert PlaceLine(before, itemRequest) == Ok(Placement(items, totalAmount, products));
      k := k + 1;
    }
    r := Ok(Placement(items, totalAmount, products));
  }

  /** When line `k` is the first to fail, createOrder fails with its error. */
  lemma FirstFailureIsFinal(table: seq<Product>, lines: seq<ItemRequest>, k: nat, so: Placement, e: OrderError)
    requires k < |lines| && PlaceUpTo(table, lines, k) == Ok(so) && PlaceLine(so, lines[k]) == Err(e)
    ensures Place(table, lines) == Err(e)
  {
    PrefixFailure(table, lines, k + 1, |lines|);
  }

  /** The method form of createOrder, proved against `CreateOrderResult`. The stock changes are
      written to the product table only when every line has been placed: a failure leaves the
      table as it was, as the transaction's rollback does. */
  method CreateOrder(db: Database, request: OrderRequest, username: string, defaults: OrderDefaults)
    returns (r: Result<Order, OrderError>)
    requires db.Valid() && ValidOrderRequest(request)
    modifies db
    ensures db.Valid()
    ensures db.users == old(db.users) && db.categories == old(db.categories)
    ensures db.nextUserId == old(db.nextUserId) && db.nextProductId == old(db.nextProductId)
    ensures OrderOutcome(r, db.products, db.orders, db.nextOrderId)
         == CreateOrderResult(old(db.users), old(db.products), old(db.orders), old(db.nextOrderId),
                              request, username, defaults)
  {
    var userOpt := FindUser(db.users, username);
    if userOpt.None? {
      return Err(UserNotFound);
    }
    var user := userOpt.value;
    var placed := PlaceLines(db.products, request.items);
    if placed.Err? {
      return Err(placed.error);
    }
    PlaceCatalog(db.products, request.items, |request.items|);
    var order := Order(db.nextOrderId, user.id, placed.value.items, placed.value.total,
                       request.shippingAddress, defaults.status, defaults.createdAt);
    SaveOrder(db, placed.value.table, order);
    r := Ok(order);
  }

  /** The commit of a placed order: the product rows with their new stock and the new order,
      under the next order id, are written. */
  method SaveOrder(db: Database, table: seq<Product>, order: Order)
    requires db.Valid() && SameCatalog(db.products, table) && order.id == db.nextOrderId
    modifies db
    ensures db.Valid()
    ensures db.users == old(db.users) && db.categories == old(db.categories)
    ensures db.nextUserId == old(db.nextUserId) && db.nextProductId == old(db.nextProductId)
    ensures db.products == table && db.orders == old(db.orders) + [order] && db.nextOrderId == old(db.nextOrderId) + 1
  {
    CommitKeepsConsistent(db.users, db.categories, db.products, table, db.orders, order,
                          db.nextUserId, db.nextProductId, db.nextOrderId);
    db.products := table;
    db.orders := db.orders + [order];
    db.nextOrderId := db.nextOrderId + 1;
  }

  /** Committing a placement keeps the schema's constraints: changing stock only keeps the
      product ids distinct and below the counter, and the new order takes the next order id. */
  lemma CommitKeepsConsistent(users: seq<User>, categories: seq<Category>, t: seq<Product>, t': seq<Product>,
                              orders: seq<Order>, order: Order, nextUserId: int, nextProductId: int, nextOrderId: int)
    requires Consistent(users, categories, t, orders, nextUserId, nextProductId, nextOrderId)
    requires SameCatalog(t, t') && order.id == nextOrderId
    ensures Consistent(users, categories, t', orders + [order], nextUserId, nextProductId, nextOrderId + 1)
  {
    forall i | 0 <= i < |t'| ensures ProductId(t'[i]) == ProductId(t[i]) {
      assert t'[i] == t[i].(stockQuantity := t'[i].stockQuantity);
    }
    DistinctAppend(orders, OrderId, order);
  }

  /** `getUserOrders`: the orders of the user with that username (paging not modelled). */
  function GetUserOrders(db: Database, username: string): (r: Result<seq<Order>, OrderError>)
    reads db
    ensures r.Err? <==> forall i :: 0 <= i < |db.users| ==> db.users[i].username != username
    ensures r.Err? ==> r.error == UserNotFound
    ensures r.Ok? ==>
      exists u :: (u in db.users && u.username == username
                   && (forall i :: 0 <= i < |r.value| ==> r.value[i].userId == u.id && r.value[i] in db.orders)
                   && (forall i :: 0 <= i < |db.orders| && db.orders[i].userId == u.id ==> db.orders[i] in r.value))
  {
    match FindUser(db.users, username)
    case None => Err(UserNotFound)
    case Some(user) => Ok(OrderRepository.FindByUser(db.orders, user))
  }

  /** `updateOrderStatus`: a missing order is an error; otherwise only its status changes. */
  method UpdateOrderStatus(db: Database, orderId: int, status: OrderStatus) returns (r: Result<Order, OrderError>)
    requires db.Valid()
    modifies db
    ensures db.Valid()
    ensures db.users == old(db.users) && db.categories == old(db.categories) && db.products == old(db.products)
    ensures db.nextUserId == old(db.nextUserId) && db.nextProductId == old(db.nextProductId)
            && db.nextOrderId == old(db.nextOrderId)
    ensures Find(old(db.orders), OrderId, orderId).None? ==> r == Err(OrderNotFound) && db.orders == old(db.orders)
    ensures Find(old(db.orders), OrderId, orderId).Some? ==>
      var i := Find(old(db.orders), OrderId, orderId).value;
      && db.orders == old(db.orders)[i := old(db.orders)[i].(status := status)]
      && r == Ok(db.orders[i])
  {
    var found := Find(db.orders, OrderId, orderId);
    if found.None? {
      return Err(OrderNotFound);
    }
    var i := found.value;
    var order := db.orders[i].(status := status);
    DistinctUpdate(db.orders, OrderId, i, order);
    db.orders := db.orders[i := order];
    r := Ok(order);
  }
}
