/** `ProductService`: catalog lookups over the database and the two catalog writes. */
module ProductService {
  import opened Results
  import opened Entities
  import opened Collections
  import opened Persistence
  import opened ProductRepository

  /** `getAllProducts`: the whole table (paging not modelled). */
  function GetAllProducts(db: Database): seq<Product>
    reads db
  {
    db.products
  }

  /** `getProductById`: `findById`. */
  function GetProductById(db: Database, id: int): (r: Option<Product>)
    reads db
    ensures r.Some? ==> r.value in db.products && r.value.id == id
    ensures r.None? <==> forall i :: 0 <= i < |db.products| ==> db.products[i].id != id
  {
    match Find(db.products, ProductId, id)
    case Some(i) => Some(db.products[i])
    case None => None
  }

  /** `getProductsByCategory`: an unknown category id yields an empty page, not an error. */
  function GetProductsByCategory(db: Database, categoryId: int): (r: seq<Product>)
    reads db
    ensures (forall i :: 0 <= i < |db.categories| ==> db.categories[i].id != categoryId) ==> r == []
    ensures forall i :: 0 <= i < |r| ==> r[i].categoryId == categoryId && r[i] in db.products
    ensures forall i :: 0 <= i < |db.products| && db.products[i].categoryId == categoryId
              && (exists j :: 0 <= j < |db.categories| && db.categories[j].id == categoryId)
              ==> db.products[i] in r
  {
    match Find(db.categories, CategoryId, categoryId)
    case Some(i) => FindByCategory(db.products, db.categories[i])
    case None => []
  }

  /** `searchProducts`. */
  function SearchProducts(db: Database, name: string): seq<Product>
    reads db
  {
    FindByNameContaining(db.products, name)
  }

  /** `getProductsByPriceRange`. */
  function GetProductsByPriceRange(db: Database, minPrice: int, maxPrice: int): seq<Product>
    reads db
  {
    FindByPriceBetween(db.products, minPrice, maxPrice)
  }

  /** `getLatestProducts`. */
  function GetLatestProducts(db: Database): seq<Product>
    reads db
  {
    FindTop8ByOrderByCreatedAtDesc(db.products)
  }

  /** `getAvailableProducts`. */
  function GetAvailableProducts(db: Database): seq<Product>
    reads db
  {
    FindAvailableProducts(db.products)
  }

  /** `saveProduct`: `save` updates the row with the product's id, or inserts it under a newly
      generated id when no row has that id (which includes a product without an id). */
  method SaveProduct(db: Database, product: Product) returns (saved: Product)
    requires db.Valid()
    modifies db
    ensures db.Valid()
    ensures GetProductById(db, saved.id) == Some(saved)
    ensures Find(old(db.products), ProductId, product.id).Some? ==>
      && saved == product
      && db.products == old(db.products)[Find(old(db.products), ProductId, product.id).value := product]
      && db.nextProductId == old(db.nextProductId)
    ensures Find(old(db.products), ProductId, product.id).None? ==>
      && saved == product.(id := old(db.nextProductId))
      && db.products == old(db.products) + [saved]
      && db.nextProductId == old(db.nextProductId) + 1
    ensures forall i :: 0 <= i < |old(db.products)| && old(db.products)[i].id != saved.id
              ==> old(db.products)[i] in db.products
    ensures db.users == old(db.users) && db.categories == old(db.categories) && db.orders == old(db.orders)
    ensures db.nextUserId == old(db.nextUserId) && db.nextOrderId == old(db.nextOrderId)
  {
    var found := Find(db.products, ProductId, product.id);
    if found.Some? {
      var i := found.value;
      saved := product;
      ReplaceKeepsConsistent(db.users, db.categories, db.products, db.orders, i, saved,
                             db.nextUserId, db.nextProductId, db.nextOrderId);
      db.products := db.products[i := saved];
      FindDistinct(db.products, ProductId, i);
      forall j | 0 <= j < |old(db.products)| && old(db.products)[j].id != saved.id
        ensures old(db.products)[j] in db.products
      {
        assert db.products[j] == old(db.products)[j];
      }
    } else {
      saved := product.(id := db.nextProductId);
      AppendKeepsConsistent(db.users, db.categories, db.products, db.orders, saved,
                            db.nextUserId, db.nextProductId, db.nextOrderId);
      db.products := db.products + [saved];
      db.nextProductId := db.nextProductId + 1;
      FindDistinct(db.products, ProductId, |db.products| - 1);
    }
  }

  /** Overwriting a product row with a product of the same id keeps the schema's constraints. */
  lemma ReplaceKeepsConsistent(users: seq<User>, categories: seq<Category>, products: seq<Product>,
                               orders: seq<Order>, i: nat, p: Product,
                               nextUserId: int, nextProductId: int, nextOrderId: int)
    requires Consistent(users, categories, products, orders, nextUserId, nextProductId, nextOrderId)
    requires i < |products| && products[i].id == p.id
    ensures Consistent(users, categories, products[i := p], orders, nextUserId, nextProductId, nextOrderId)
  {
    DistinctUpdate(products, ProductId, i, p);
  }

  /** Appending a product under the next product id keeps the schema's constraints. */
  lemma AppendKeepsConsistent(users: seq<User>, categories: seq<Category>, products: seq<Product>,
                              orders: seq<Order>, p: Product,
                              nextUserId: int, nextProductId: int, nextOrderId: int)
    requires Consistent(users, categories, products, orders, nextUserId, nextProductId, nextOrderId)
    requires p.id == nextProductId
    ensures Consistent(users, categories, products + [p], orders, nextUserId, nextProductId + 1, nextOrderId)
  {
    DistinctAppend(products, ProductId, p);
  }

  /** `deleteProduct`: removes the row with that id, if there is one. */
  method DeleteProduct(db: Database, id: int)
    requires db.Valid()
    modifies db
    ensures db.Valid()
    ensures GetProductById(db, id) == None
    ensures db.products == Filter(old(db.products), (p: Product) => p.id != id)
    ensures forall i :: 0 <= i < |old(db.products)| && old(db.products)[i].id != id
              ==> old(db.products)[i] in db.products
    ensures db.users == old(db.users) && db.categories == old(db.categories) && db.orders == old(db.orders)
    ensures db.nextUserId == old(db.nextUserId) && db.nextProductId == old(db.nextProductId)
            && db.nextOrderId == old(db.nextOrderId)
  {
    db.products := Filter(db.products, (p: Product) => p.id != id);
    FilterKeepsDistinct(old(db.products), (p: Product) => p.id != id);
  }

  /** Removing rows keeps the ids distinct. */
  lemma {:induction false} FilterKeepsDistinct(s: seq<Product>, keep: Product -> bool)
    requires Distinct(s, ProductId)
    ensures Distinct(Filter(s, keep), ProductId)
  {
    if s != [] {
      FilterKeepsDistinct(s[1..], keep);
      var rest := Filter(s[1..], keep);
      if keep(s[0]) {
        forall j | 0 <= j < |rest| ensures rest[j].id != s[0].id {
          var m :| 0 <= m < |s[1..]| && s[1..][m] == rest[j];
          assert ProductId(s[0]) != ProductId(s[m + 1]);
        }
      }
    }
  }
}
