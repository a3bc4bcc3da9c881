# E-commerce store: order placement, registration, session and catalog logic

This project models the logic of a small online store. The store has a Spring Boot backend and a
React frontend. The model covers:

- **Order placement** (`OrderService.createOrder`): the request lines are placed in order against
  the product table. Each line must name an existing product with enough stock. The line
  snapshots the product's price, adds its subtotal to the total and decrements the stock. Because
  the method is transactional, a failure on any line leaves every table as it was.
- **Order status updates and per-user queries** (`updateOrderStatus`, `getUserOrders`, `OrderRepository`).
- **User registration** (`AuthService.registerUser`): an insert into the user table, checked
  first for a taken username and then for a taken email.
- **Catalog queries** (`ProductRepository`, `ProductService`): filters by category, name, price
  range and stock; the eight newest products; save and delete.
- **The client session** (`AuthContext.tsx`): `user`, `token` and `loading`, mirrored into the
  browser's `localStorage` slots `token` and `user`.
- **Checkout and cart** (`Checkout.tsx`, `Cart.tsx`): the order request built from the cart
  lines, the fixed shipping-address format, the shipping, tax and total formulas, the
  free-shipping hint, the submit handler and the redirects.
- **Catalog browsing** (`Products.tsx`, `ProductDetail.tsx`):
  - the pagination window;
  - the precedence that picks which query is fetched;
  - the filter, sort and reset handlers and the effect that refetches;
  - description truncation;
  - the guarded quantity selector and add-to-cart.

Layout (one module per file):

- `Results`, `Text` and `Collections` are shared helpers: `Option`/`Result`, decimal rendering,
  substring search, first-character splitting, search, filters and sorting over sequences.
- `Entities` holds the backend entities and Java's 32-bit `int` arithmetic.
- `Persistence` is the database: a class with one `seq` field per table and one id counter per
  table. It keeps ids distinct, and usernames and emails unique.
- `ProductRepository`, `OrderRepository`, `ProductService`, `OrderService` and `AuthService`
  model the backend files of the same names.
- `ClientTypes` holds the frontend's data shapes. `AuthContext`, `Checkout`, `Cart`,
  `ProductDetail` and `Products` model the frontend files of the same names.

Modelling choices:

- Backend prices are integer cents. Frontend money is `real`.
- `stockQuantity` and request quantities are Java `int`s. The stock decrement wraps modulo 2^32,
  as it does in Java.
- The code does not check that quantities are positive, and the model keeps that. A negative
  quantity passes the stock check and raises the stock. `NegativeQuantityRaisesStock` and
  `NegativeQuantityWrapsStock` show this behaviour.
- The product table is a sequence of rows with distinct ids rather than a map. The repository
  queries return rows in table order, and order placement updates the same rows by index.
- `createOrder` is a loop over a local copy of the product table. The copy is stored with the new
  order only when every line succeeds. This is how the model captures the transaction rollback:
  no partial decrement is ever visible.
- A React component becomes a class whose fields are its state variables. Each handler becomes a
  method, and `setX` calls become field updates.
  - A handler's explicit `fetchProducts()` call reads the state from before the handler ran,
    because the closure still holds those values.
  - The effect on `[currentPage, selectedCategory, sortBy, sortDir]` fetches with the new state,
    and only when one of those four fields changed.
  - JavaScript truthiness is written out: an empty string is false, and so is a category id of 0.
- Network answers, `JSON.stringify` / `JSON.parse` and the password encoder are parameters, and
  the API's outcome is an `ApiResult`.

Where the code and its documentation differ, the model follows the code.

- Service errors are `RuntimeException`s, and the controller sends the exception's message back
  as a bare string body. The checkout page reads `error.response.data.message`, so a failed order
  shows the fallback text. `Checkout.ErrorText` models the rule exactly as written, and
  `ClientTypes.ErrorBody` distinguishes a bare string body from a JSON one. `ServiceErrorShowsFallback`
  shows that a bare string body always leads to the fallback.

## Model

| member | source | states |
|---|---|---|
| OrderService.FindUser | ecommerce-backend/src/main/java/com/ecommerce/backend/service/OrderService.java:34-37 | A found user has the requested username. Nothing is found exactly when no user has that username. |
| OrderService.MessageNamesProduct | ecommerce-backend/src/main/java/com/ecommerce/backend/service/OrderService.java:47-50 | The message "Product not found: <id>" names the product: two ids with the same message are equal. |
| OrderService.StepSucceeds | ecommerce-backend/src/main/java/com/ecommerce/backend/service/OrderService.java:47-56 | One line succeeds exactly when its product exists and that product's current stock is at least the requested quantity. |
| OrderService.StepItems | ecommerce-backend/src/main/java/com/ecommerce/backend/service/OrderService.java:58-65 | A successful line appends one item with the product's id, the requested quantity and the current price. It adds that item's subtotal to the total and leaves every field except stock unchanged. |
| OrderService.StepStock | ecommerce-backend/src/main/java/com/ecommerce/backend/service/OrderService.java:54-69 | A successful line lowers that product's stock by the quantity, with 32-bit wrap-around, and no other product's stock changes. |
| OrderService.PrefixFailure | ecommerce-backend/src/main/java/com/ecommerce/backend/service/OrderService.java:46-70 | Once a line fails, the lines after it are not processed and the error stays the same. |
| OrderService.FirstFailureIsFinal | ecommerce-backend/src/main/java/com/ecommerce/backend/service/OrderService.java:46-56 | If the lines before k succeed and line k fails with error e, the whole placement fails with e. |
| OrderService.PlaceCatalog | ecommerce-backend/src/main/java/com/ecommerce/backend/service/OrderService.java:46-70 | Placing lines keeps the table's length, and every row keeps all its fields except the stock. |
| OrderService.PlaceItems | ecommerce-backend/src/main/java/com/ecommerce/backend/service/OrderService.java:44-72 | After n lines there are n items, in request order. Each item has its line's product and quantity and that product's price. The total is the sum of the item subtotals, starting from zero. |
| OrderService.StockAfterRequested | ecommerce-backend/src/main/java/com/ecommerce/backend/service/OrderService.java:68 | Decrementing a stock line by line (each step wrapping) equals one wrapped subtraction of the total quantity requested for that product. |
| OrderService.PlaceStock | ecommerce-backend/src/main/java/com/ecommerce/backend/service/OrderService.java:46-69 | After n lines, each row's stock is its original stock decremented by every line naming it, in order. |
| OrderService.PlaceStockTotal | ecommerce-backend/src/main/java/com/ecommerce/backend/service/OrderService.java:46-69 | After a successful placement, each product's stock is its old stock minus the sum of the quantities requested for it, wrapped to 32 bits. |
| OrderService.PlaceKeepsUnnamed | ecommerce-backend/src/main/java/com/ecommerce/backend/service/OrderService.java:46-69 | After a successful placement, every product that no line names is unchanged. |
| OrderService.PlaceStockExact | ecommerce-backend/src/main/java/com/ecommerce/backend/service/OrderService.java:54-68 | With non-negative quantities no wrap-around happens: each stock falls by exactly the requested sum, and no named product's stock goes negative. |
| OrderService.PlaceSucceedsIffFeasible | ecommerce-backend/src/main/java/com/ecommerce/backend/service/OrderService.java:46-70 | With non-negative quantities, placement succeeds exactly when every named product exists and, for each product, the quantities requested for it add up to at most its original stock. This includes products repeated across lines. |
| OrderService.PlaceFailure | ecommerce-backend/src/main/java/com/ecommerce/backend/service/OrderService.java:47-56 | A failure is always one line's own error: either that line's product is missing, or its stock, as left by the earlier lines, is below the line's quantity; the error names that product. |
| OrderService.MissingProductFails | ecommerce-backend/src/main/java/com/ecommerce/backend/service/OrderService.java:47-50 | If the first k lines succeed and line k names a missing product, the placement fails with ProductNotFound for that id. |
| OrderService.InsufficientStockFails | ecommerce-backend/src/main/java/com/ecommerce/backend/service/OrderService.java:54-56 | If the first k lines succeed and the stock they leave is below line k's quantity, the placement fails with InsufficientStock naming the product. |
| OrderService.NegativeQuantityRaisesStock | ecommerce-backend/src/main/java/com/ecommerce/backend/service/OrderService.java:54-68 | A quantity of -3 passes the stock check, raises the stock from 5 to 8 and gives a negative total. |
| OrderService.NegativeQuantityWrapsStock | ecommerce-backend/src/main/java/com/ecommerce/backend/service/OrderService.java:68 | A quantity of -1 on a stock of 2^31-1 wraps the stock to -2^31. |
| OrderService.CreateOrderFailure | ecommerce-backend/src/main/java/com/ecommerce/backend/service/OrderService.java:32-74 | Any failure leaves the product table, the order table and the order counter unchanged (the rollback). "User not found" happens exactly when no user has the username. |
| OrderService.CreateOrderSuccess | ecommerce-backend/src/main/java/com/ecommerce/backend/service/OrderService.java:39-73 | The saved order has the next id and the caller's user. It copies the request's shipping address verbatim and has one item per line, in order, with the price at that moment. Its total is the sum of subtotals, and it is appended to the orders. |
| OrderService.CreateOrderStock | ecommerce-backend/src/main/java/com/ecommerce/backend/service/OrderService.java:46-70 | After a successful order each product's stock is its old stock minus the total requested for it, wrapped to 32 bits. |
| OrderService.PlaceLines | ecommerce-backend/src/main/java/com/ecommerce/backend/service/OrderService.java:44-70 | The loop over the lines computes exactly the placement described by the line-by-line specification, including the first failure. |
| OrderService.CreateOrder | ecommerce-backend/src/main/java/com/ecommerce/backend/service/OrderService.java:32-74 | The database afterwards and the result are exactly the `createOrder` outcome on the old tables. The database stays consistent, and users and categories are untouched. |
| OrderService.SaveOrder | ecommerce-backend/src/main/java/com/ecommerce/backend/service/OrderService.java:72-73 | The commit stores the updated product rows, appends the order with the next id and advances the counter; the database stays consistent. |
| OrderService.CommitKeepsConsistent | ecommerce-backend/src/main/java/com/ecommerce/backend/service/OrderService.java:72-73 | Replacing stock values and appending an order with the next id keeps ids distinct and below their counters. |
| OrderService.GetUserOrders | ecommerce-backend/src/main/java/com/ecommerce/backend/service/OrderService.java:76-82 | It fails with UserNotFound exactly when no user has the username. Otherwise it returns exactly that user's orders. |
| OrderService.UpdateOrderStatus | ecommerce-backend/src/main/java/com/ecommerce/backend/service/OrderService.java:88-97 | A missing order id gives "Order not found" and changes nothing. Otherwise only that order's status changes, and the updated order is returned. |
| AuthService.NewUser | ecommerce-backend/src/main/java/com/ecommerce/backend/service/AuthService.java:69-76 | The new user has the request's username, email, names, address and phone, and the encoded password, never the raw one. |
| AuthService.RegisterRejections | ecommerce-backend/src/main/java/com/ecommerce/backend/service/AuthService.java:58-67 | Registration succeeds exactly when neither the username nor the email is taken, and a rejection changes nothing. A taken username gives the username message, even when the email is also taken. A free username with a taken email gives the email message. |
| AuthService.RegisterAddsOne | ecommerce-backend/src/main/java/com/ecommerce/backend/service/AuthService.java:69-80 | A success appends exactly one user, built from the request with the next id, keeps every earlier user and answers "User registered successfully!". |
| AuthService.RegisterTwiceRejected | ecommerce-backend/src/main/java/com/ecommerce/backend/service/AuthService.java:58-78 | Repeating a successful request is rejected with the username message. |
| AuthService.RegisterKeepsConsistent | ecommerce-backend/src/main/java/com/ecommerce/backend/service/AuthService.java:58-78 | Registration keeps user ids distinct, usernames unique and emails unique. |
| AuthService.RegisterUser | ecommerce-backend/src/main/java/com/ecommerce/backend/service/AuthService.java:58-81 | The response and the new user table are exactly those of the registration rule. The other tables are untouched and the database stays consistent. |
| ProductService.GetProductById | ecommerce-backend/src/main/java/com/ecommerce/backend/service/ProductService.java:28-30 | It returns a product with that id when one exists, and nothing exactly when no product has the id. |
| ProductService.GetProductsByCategory | ecommerce-backend/src/main/java/com/ecommerce/backend/service/ProductService.java:32-38 | Empty when no category has the id. Otherwise exactly the products in that category. |
| ProductService.SaveProduct | ecommerce-backend/src/main/java/com/ecommerce/backend/service/ProductService.java:56-58 | Looking up the saved id afterwards returns the saved product. When a row has the product's id, that row is replaced in place and the id counter is unchanged. Otherwise the product is appended under the next generated id and the counter advances. Every row with another id is kept. |
| ProductService.ReplaceKeepsConsistent | ecommerce-backend/src/main/java/com/ecommerce/backend/service/ProductService.java:56-58 | Overwriting a row with a product of the same id keeps the database consistent. |
| ProductService.AppendKeepsConsistent | ecommerce-backend/src/main/java/com/ecommerce/backend/service/ProductService.java:56-58 | Appending a product under the next id and advancing the counter keeps the database consistent. |
| ProductService.DeleteProduct | ecommerce-backend/src/main/java/com/ecommerce/backend/service/ProductService.java:60-62 | Afterwards no product has the id, every other product is kept in order, and the other tables are untouched. |
| ProductService.FilterKeepsDistinct | ecommerce-backend/src/main/java/com/ecommerce/backend/service/ProductService.java:60-62 | Removing rows keeps the remaining product ids distinct. |
| ProductRepository.FindByCategory | ecommerce-backend/src/main/java/com/ecommerce/backend/repository/ProductRepository.java:16 | Exactly the products whose category is the argument. |
| ProductRepository.FindByNameContaining | ecommerce-backend/src/main/java/com/ecommerce/backend/repository/ProductRepository.java:18-19 | Exactly the products whose name contains the argument as a substring. |
| ProductRepository.FindByPriceBetween | ecommerce-backend/src/main/java/com/ecommerce/backend/repository/ProductRepository.java:21-24 | Exactly the products with min <= price <= max (inclusive). Empty when min > max. |
| ProductRepository.CategoryAndPriceIsIntersection | ecommerce-backend/src/main/java/com/ecommerce/backend/repository/ProductRepository.java:26-30 | The category-and-price query equals the price filter applied to the category filter. |
| ProductRepository.FindTop8ByOrderByCreatedAtDesc | ecommerce-backend/src/main/java/com/ecommerce/backend/repository/ProductRepository.java:32 | Returns min(8, table size) products drawn from the table, newest first. Every product left out is no newer than the last one returned. |
| ProductRepository.TakeNewest | ecommerce-backend/src/main/java/com/ecommerce/backend/repository/ProductRepository.java:32 | The first n rows of a newest-first list are newest first, and every row after them is no newer than the n-th. |
| ProductRepository.FindAvailableProducts | ecommerce-backend/src/main/java/com/ecommerce/backend/repository/ProductRepository.java:34-35 | Exactly the products with stockQuantity > 0. |
| OrderRepository.FindByUser | ecommerce-backend/src/main/java/com/ecommerce/backend/repository/OrderRepository.java:15 | Exactly the orders of that user. |
| OrderRepository.FindByUserOrderByCreatedAtDesc | ecommerce-backend/src/main/java/com/ecommerce/backend/repository/OrderRepository.java:17 | The same orders as FindByUser (as a multiset), newest first. |
| OrderRepository.FindByUserAndStatus | ecommerce-backend/src/main/java/com/ecommerce/backend/repository/OrderRepository.java:19-21 | Exactly the orders matching both the user and the status. |
| OrderRepository.CountByUser | ecommerce-backend/src/main/java/com/ecommerce/backend/repository/OrderRepository.java:23-24 | The number of orders belonging to the user. |
| AuthContext.Restored | ecommerce-frontend/src/context/AuthContext.tsx:34-43 | With both slots non-empty, the session becomes the `token` slot and the parsed `user` slot. Otherwise the session is left exactly as it was. |
| AuthContext.NullStoredUserNotAuthenticated | ecommerce-frontend/src/context/AuthContext.tsx:38-41 | A stored user that parses to `null` still passes the truthiness test. The bootstrap then sets the token but no user, so the session holds a token without being signed in. |
| AuthContext.AuthenticatedIgnoresToken | ecommerce-frontend/src/context/AuthContext.tsx:86 | Being signed in depends on the user alone: changing the token never changes it, and no token makes a session without a user signed in. |
| AuthContext.UserData | ecommerce-frontend/src/context/AuthContext.tsx:48-54 | The kept user has the response's id, username, email and names, with no role. |
| AuthContext.LoginStorage | ecommerce-frontend/src/context/AuthContext.tsx:58-59 | After login the `token` slot holds the token and the `user` slot holds the serialised user. Every other key is kept. |
| AuthContext.LogoutStorage | ecommerce-frontend/src/context/AuthContext.tsx:76-77 | After logout both slots are gone and every other key is kept. |
| AuthContext.LoginThenBootstrap | ecommerce-frontend/src/context/AuthContext.tsx:38-59 | If the user serialises to something non-empty that parses back to that same user, and the token is non-empty, a reload after login restores the same token and user. |
| AuthContext.EmptyTokenNotRestored | ecommerce-frontend/src/context/AuthContext.tsx:38-58 | An empty token is written by login but not restored by the next reload. |
| AuthContext.LogoutThenBootstrap | ecommerce-frontend/src/context/AuthContext.tsx:34-78 | A reload after logout restores nothing, and logging out twice leaves the same storage as once. |
| AuthContext.AuthProvider.constructor | ecommerce-frontend/src/context/AuthContext.tsx:30-32 | The provider starts with no user, no token and loading. |
| AuthContext.AuthProvider.Bootstrap | ecommerce-frontend/src/context/AuthContext.tsx:34-43 | The session becomes Restored(storage); loading ends either way and the storage is not written. |
| AuthContext.AuthProvider.Login | ecommerce-frontend/src/context/AuthContext.tsx:45-63 | A failure is passed on and changes neither the user, the token nor the storage. A success sets the token and the kept user, and writes both slots. |
| AuthContext.AuthProvider.Register | ecommerce-frontend/src/context/AuthContext.tsx:65-71 | The outcome is passed on and no session field or storage changes. |
| AuthContext.AuthProvider.Logout | ecommerce-frontend/src/context/AuthContext.tsx:73-78 | No user, no token, not authenticated, and both slots removed. |
| Checkout.InitialShippingInfo | ecommerce-frontend/src/pages/Checkout.tsx:24-32 | The names come from the signed-in user, or are empty without one. Every other field starts empty. |
| Checkout.WithField | ecommerce-frontend/src/pages/Checkout.tsx:46-52 | The named field takes the typed value, and every other field keeps its value. |
| Checkout.CheckoutPage.HandleInputChange | ecommerce-frontend/src/pages/Checkout.tsx:46-52 | Only the form changes, through WithField. |
| Checkout.AddressRoundTrip | ecommerce-frontend/src/pages/Checkout.tsx:61 | The address has the fixed layout "first last, address, city, state zip". When no field holds a comma and neither the first name nor the state holds a space, every field can be read back from it. |
| Checkout.AddressIgnoresPhone | ecommerce-frontend/src/pages/Checkout.tsx:61 | The phone does not affect the address. |
| Checkout.RequestItems | ecommerce-frontend/src/pages/Checkout.tsx:63-69 | One request line per cart line, in order, with the product's id and the line's quantity and no price. |
| Checkout.Shipping | ecommerce-frontend/src/pages/Checkout.tsx:87 | Shipping is 0 exactly when the subtotal is above 50, and 9.99 otherwise. |
| Checkout.TotalFormula | ecommerce-frontend/src/pages/Checkout.tsx:86-89 | The total is 1.08 × subtotal, plus 9.99 unless the subtotal is above 50; the total at 50 is higher than at 50.01. |
| Checkout.ErrorText | ecommerce-frontend/src/pages/Checkout.tsx:80 | The error text is never empty, so the error alert (line 99) always shows after a failure. It is the server's message when that is a non-empty string, otherwise "Failed to place order. Please try again.". |
| ClientTypes.ErrorOf | ecommerce-frontend/src/pages/Checkout.tsx:80 | `error.response?.data?.message` is present only for a JSON body with a `message` field. |
| Checkout.ServiceErrorShowsFallback | ecommerce-frontend/src/pages/Checkout.tsx:80 | A bare string body, which is how the backend reports a failed order, or no response at all, shows the fallback text. Any other text shown is the `message` field of a JSON body. |
| Checkout.SuccessMessageNamesOrder | ecommerce-frontend/src/pages/Checkout.tsx:73-77 | The success message embeds the order id: different ids give different messages. |
| Checkout.Redirects | ecommerce-frontend/src/pages/Checkout.tsx:37-44 | Goes to /login exactly when not authenticated, and to /cart exactly when the cart is empty, in that order. |
| Checkout.FormRenderedUnlessRedirectedToCart | ecommerce-frontend/src/pages/Checkout.tsx:91-93 | The page renders its form exactly when the redirect effect does not send the user to /cart. |
| Checkout.CheckoutPage.constructor | ecommerce-frontend/src/pages/Checkout.tsx:24-35 | The form starts from InitialShippingInfo, not loading, with no error. |
| Checkout.CheckoutPage.HandleSubmit | ecommerce-frontend/src/pages/Checkout.tsx:54-84 | The request sent is built from the cart and the form. A success clears the cart and navigates home with the order's success message. A failure keeps the cart and sets a non-empty ErrorText. Loading ends either way. |
| Cart.ShippingLabel | ecommerce-frontend/src/pages/Cart.tsx:116 | "FREE" exactly when the subtotal is above 50, otherwise "$9.99". |
| Cart.FreeShippingHint | ecommerce-frontend/src/pages/Cart.tsx:130-132 | Shown exactly when the subtotal is below 50, naming the positive gap 50 − subtotal. |
| Cart.SummaryMatchesCheckout | ecommerce-frontend/src/pages/Cart.tsx:116-126 | The label, the tax and the total agree with the checkout page's shipping, tax and total for the same subtotal. |
| Cart.NoHintYetChargedAtFifty | ecommerce-frontend/src/pages/Cart.tsx:116-132 | At exactly 50 no hint is shown, yet shipping is still charged. |
| Cart.CheckoutRouteAgreesWithRedirects | ecommerce-frontend/src/pages/Cart.tsx:20-26 | The button leads to /checkout exactly when the checkout page would not send the user to /login, and to /login otherwise. From a non-empty cart, arriving at checkout causes no redirect. |
| Cart.View | ecommerce-frontend/src/pages/Cart.tsx:28-132 | An empty cart shows only the empty view. Otherwise the summary shows the cart's lines, the subtotal, the shipping label, the tax (Checkout's 8%), the total and the free-shipping hint. |
| ProductDetail.ChangedQuantity | ecommerce-frontend/src/pages/ProductDetail.tsx:44-49 | A value is taken exactly when it is a number above 0, a product is loaded and the value is at most its stock; it then lies in 1..stock. Otherwise the quantity is unchanged. |
| ProductDetail.QuantityStaysPositive | ecommerce-frontend/src/pages/ProductDetail.tsx:14-49 | For one loaded product: starting from 1, any sequence of changes keeps the quantity at 1 or within that product's stock. The quantity is not reset when the route's id changes, so this does not cover moving to another product. |
| ProductDetail.StockControls | ecommerce-frontend/src/pages/ProductDetail.tsx:111-137 | The button is never disabled while the quantity input shows. A negative stock (which the backend can produce) leaves the button enabled with no input, and no quantity change is accepted. |
| ProductDetail.ProductDetailPage.constructor | ecommerce-frontend/src/pages/ProductDetail.tsx:11-15 | No product, loading, no error, quantity 1, no alert and no cart calls. |
| ProductDetail.ProductDetailPage.View | ecommerce-frontend/src/pages/ProductDetail.tsx:51-70 | The details are shown exactly when loading is over, with no error and a product. An error shows the not-found view. |
| ProductDetail.ProductDetailPage.FetchProduct | ecommerce-frontend/src/pages/ProductDetail.tsx:18-34 | Without an id nothing happens. A success sets the product, and a failure sets "Product not found". Loading ends either way. |
| ProductDetail.ProductDetailPage.HandleQuantityChange | ecommerce-frontend/src/pages/ProductDetail.tsx:44-49 | The quantity becomes ChangedQuantity of the old quantity, and nothing else changes. |
| ProductDetail.ProductDetailPage.HandleAddToCart | ecommerce-frontend/src/pages/ProductDetail.tsx:36-42 | Nothing without a product. Otherwise exactly one cart call with the product and the current quantity, and the alert shows. |
| Products.FetchQuery | ecommerce-frontend/src/pages/Products.tsx:39-66 | The first matching query is fetched, always with page size 12 and the current page. The order is: a non-empty search term, then a non-zero category, then both price bounds non-empty, then all products with the current sort. |
| Products.CategoryFilterFetches | ecommerce-frontend/src/pages/Products.tsx:74-80 | The category filter sets the category and page 0, clears the search and both bounds, and keeps the sort. The next fetch is by that category, or all products when it is null or 0. |
| Products.PriceFilterFetches | ecommerce-frontend/src/pages/Products.tsx:82-89 | Without both bounds nothing changes. With both, page 0 is set and the category and search are cleared, so the next query is by price range. The handler's own call still fetches with the old state. |
| Products.SortAndClear | ecommerce-frontend/src/pages/Products.tsx:91-105 | Sorting sets the sort fields and page 0. The defaults fetch all products sorted by id ascending. |
| Products.Excerpt | ecommerce-frontend/src/pages/Products.tsx:259-262 | A description longer than 80 characters shows its first 80 characters and "...". A shorter one is shown unchanged. |
| Products.PageNumbers | ecommerce-frontend/src/pages/Products.tsx:126-136 | The numbered links are consecutive pages from the window start, and each link is active exactly when it is the current page. |
| Products.WindowFacts | ecommerce-frontend/src/pages/Products.tsx:113-126 | At most 5 numbered links, all between page 0 and the last page. The current page, when it exists, lies inside the window. |
| Products.OneActive | ecommerce-frontend/src/pages/Products.tsx:114-130 | For an existing current page, exactly one item is active, and it is the current page. |
| Products.ArrowLinks | ecommerce-frontend/src/pages/Products.tsx:117-145 | First and Prev appear exactly when the current page is above 0. Next and Last appear exactly when it is below the last page. |
| Products.ProductsPage.constructor | ecommerce-frontend/src/pages/Products.tsx:9-28 | The filters start at their defaults, and the mount effect fetches once. |
| Products.ProductsPage.Fetch | ecommerce-frontend/src/pages/Products.tsx:39-40 | A fetch starts loading and records its query; the filters, products and page count are untouched. |
| Products.ProductsPage.RunEffect | ecommerce-frontend/src/pages/Products.tsx:26-28 | A fetch with the new state happens, and loading starts, exactly when the page, category or sort changed. |
| Products.ProductsPage.HandleSearch | ecommerce-frontend/src/pages/Products.tsx:68-72 | Page 0, then the handler's own fetch with the old state, then the effect's fetch if the page changed. Loading starts when anything is fetched. |
| Products.ProductsPage.HandleCategoryFilter | ecommerce-frontend/src/pages/Products.tsx:74-80 | The state becomes the category-filtered state, and only the effect fetches. Loading starts when it does. |
| Products.ProductsPage.HandlePriceFilter | ecommerce-frontend/src/pages/Products.tsx:82-89 | The state becomes the price-filtered state. The handler fetches only when both bounds are set, and loading starts when anything is fetched. |
| Products.ProductsPage.HandleSort | ecommerce-frontend/src/pages/Products.tsx:91-95 | The state becomes the sorted state, and only the effect fetches. Loading starts when it does. |
| Products.ProductsPage.ClearFilters | ecommerce-frontend/src/pages/Products.tsx:97-105 | The state becomes the defaults: empty search, no category, empty bounds, page 0, "id", "asc". The effect fetches if the page, category or sort changed, and loading starts when it does. |
| Products.ProductsPage.GoToPage | ecommerce-frontend/src/pages/Products.tsx:117-145 | A pagination click sets the page. The effect fetches if the page changed, and loading starts when it does. |
| Products.ProductsPage.SetSearchTerm | ecommerce-frontend/src/pages/Products.tsx:163 | Typing changes only the search term. Nothing is fetched and loading is untouched. |
| Products.ProductsPage.SetMinPrice | ecommerce-frontend/src/pages/Products.tsx:178 | Typing changes only the lower bound. Nothing is fetched and loading is untouched. |
| Products.ProductsPage.SetMaxPrice | ecommerce-frontend/src/pages/Products.tsx:186 | Typing changes only the upper bound. Nothing is fetched and loading is untouched. |
| Products.ProductsPage.FetchDone | ecommerce-frontend/src/pages/Products.tsx:59-65 | A success stores the page's products and page count, and a failure keeps them. Loading ends either way. |
| Products.PaginationShownWhenUseful | ecommerce-frontend/src/pages/Products.tsx:296 | On a page that exists, a hidden bar (at most one page) would hold only the active link to page 0, and a shown bar holds at least four items. |
| Products.ProductsPage.RenderPagination | ecommerce-frontend/src/pages/Products.tsx:111-148 | The loop pushes exactly the pagination items: the arrows, then the numbered window, then the forward arrows. |

## Left out

- The cart store (`CartContext`) is not part of this model. The cart lines and the subtotal are
  inputs, and the cart handlers are represented by the calls they make.
- Floating-point arithmetic and `toFixed(2)` formatting are not modelled. Frontend amounts are
  exact `real`s and backend prices are integer cents.
- `authenticateUser` (Spring Security authentication and JWT generation) is left out: it consists
  of foreign calls. Only its response shape is used, as the login input.
- The transport layer (`api.ts`, axios, the bearer-token header) and the controllers' HTTP mapping
  and role checks are left out. What the API answers is an input.
- `DataInitializer`, `Home.tsx`, `Login.tsx` and `Navbar.tsx` are seeding and rendering and are
  left out.
- Spring `Page`/`Pageable` slicing and sorting are left out: queries return every matching row in
  table order.
  - `getAllProducts` returns the whole table.
  - `getUserOrders` returns every order of the user.
- `ProductRepository.FindByNameContaining`: database collation is not modelled (case sensitivity,
  `%` and `_` inside the search text). The match is a plain substring test.
- `AuthService.Register`: the `existsByUsername` and `existsByEmail` checks are exact string
  equality. Under a case-insensitive database collation, a name that differs only in case would
  already count as taken; that is not modelled.
- `JSON.stringify` and `JSON.parse` are parameters. Their round trip is a hypothesis of
  `LoginThenBootstrap`.
- A stored user that is not valid JSON makes `JSON.parse` throw; that is not modelled. The text
  `null`, which parses to a null user, is modelled (`parse` gives `None`).
- `parseInt` and `parseFloat` are left out. The quantity input arrives already parsed, as a
  number or NaN, and the price bounds stay text.
- Excerpt: lengths and the 80-character cut are counted in Unicode code points, not in the
  UTF-16 code units JavaScript's `length` and `substring` count. A cut inside a surrogate pair
  is not modelled.
- QuantityChange and RemoveItem (`Cart.tsx`, lines 12-18) only forward the product id and the
  quantity to the cart store, which is not part of this model. They carry no contract.
- The timer that hides the add-to-cart alert (`setTimeout`) is not modelled.
- React rendering and timing are left out beyond the refetch effect and its dependency list.
  `async`/`await` ordering and navigation are reduced to the final state and the recorded calls.
- `fetchCategories`, the category list and the Products page's `handleAddToCart` are left out.
  They only forward to the API and to the cart store.
- `getOrderById` and `getAllOrders` are direct repository reads with no logic of their own, and
  are left out.
- `OrderItem.getSubtotal` is not part of this model. It is assumed to be price times quantity.
- Java's `BigDecimal` total is left out. The total is an unbounded integer number of cents.
- The `Order` entity's default status and creation time are not part of this model; they are
  passed in as `OrderDefaults`.
- The `User` entity's role column is not part of this model.
- `ProductService.SaveProduct`: a product whose id is null is treated like one whose id is
  absent. The database's id generator is the table's counter.
- `ProductService.GetAllProducts`, `SearchProducts`, `GetProductsByPriceRange`,
  `GetLatestProducts` and `GetAvailableProducts` are plain delegations to the repository
  queries. They carry no contract of their own, and the repository functions state the
  properties.
- Bean validation on `OrderRequest` (items non-empty, address not blank) is a precondition of
  `CreateOrder`, not a modelled error path.
- `OrderService.CreateOrder`: a request line's `productId` and `quantity` are never null in the
  model (`ItemRequest` holds an `int` and an `Int32`). In the code both are nullable and
  unvalidated. A null product id makes `findById` throw, and a null quantity throws when it is
  unboxed for the stock check. Either exception comes before any write of that line, the
  transaction rolls back and the controller answers 400 with the message. This error path is not
  modelled.
- Concurrency between requests is not modelled. Each service call runs alone on the database.
