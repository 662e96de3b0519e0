# Cart and order tables of the aggregates ordering system

This project models the core of a small ordering application in Dafny. The
customer keeps a cart of lines (user, product, quantity). Checkout turns every
line into an order and empties the cart. The owner toggles each order between
Pending and Fulfilled, and each toggle records or clears a fulfilment time.

The model has four modules:

- `Tables` (tables.dfy) holds the rows of the `users`, `cart` and `orders`
  tables. It also holds the four SQL statement shapes the server runs on
  them, as functions on sequences of rows in table order:
  `Select` and `Delete` over cart rows with a WHERE filter,
  `JoinProducts`, the inner join of cart lines with `products`, and
  `UpdateStatus` over orders by id. It proves that the statements split the
  table, are idempotent, leave other users' rows alone and keep row order.
- `Server` (server.dfy) has a class `Database` whose fields are the three
  tables and their SERIAL id counters. It has one method per route handler:
  register, login, add to cart, get cart, remove from cart, clear cart,
  checkout and set status. Each method states its whole new state and the
  reply it gives. Checkout keeps the source's loop, which inserts one order
  per line and has a loop invariant.
- `ShowOrders` (show_orders.dfy) models the owner's order page: the status
  toggle (`NextStatus`, `StampFor`), how a status is displayed, and the
  local list update after a successful request (class `OrdersPage`).
- `Dashboard` (dashboard.dfy) models the customer page's state rules: the
  quantity stepper, which is clamped to at least 1 and defaults to 1, and
  the checkout guard (class `DashboardState`).

Requests to the server are represented on the client side by their outcome,
passed in as a parameter. Timestamps (`NOW()`, `new Date().toISOString()`)
are opaque parameters of type `Timestamp`.

The model follows what the code does, including where it departs from what one might expect of such a service:

- Login compares the password in plaintext inside the SELECT. It does not
  hash and compare.
- Register reports a duplicate email as a generic 500 ("Registration
  failed."). It has no distinct duplicate-email error. It is modelled as
  `RegistrationFailed`.
- Set-status reports success even when no order has the id, and it accepts
  any status value. It never answers not-found.
- The cart schema (backend/models/CartTable.js) has no foreign keys.
  Add-to-cart is therefore an unconditional insert, even for a product id
  with no row in `products`.
- The cart listing inner-joins `products`, so it leaves out such a line, but
  checkout's SELECT has no join and still orders it. The dashboard's
  empty-cart guard works on the listing, so it can refuse a checkout the
  server would accept (`Server.OrphanLineHiddenButOrdered`). The owner's
  order list (`GET /api/orders`, backend/server.js:204-213) inner-joins
  `products` as well, so the order such a line becomes is never listed on
  the owner's page.
- A failed INSERT still consumes a value of the table's id sequence. This is
  how PostgreSQL SERIAL columns behave, so `Register` advances `nextUserId`
  even when it fails.

## Model

| member | source | states |
|---|---|---|
| Tables.Select | backend/server.js:162-165 | `SELECT … FROM cart WHERE …` returns exactly the rows in the table that match the filter, and no more rows than the table has |
| Tables.Delete | backend/server.js:130-133 | `DELETE FROM cart WHERE …` keeps exactly the rows that do not match, and no others |
| Tables.SelectDeletePartition | backend/server.js:130-136 | the rows a DELETE removes are, as a multiset, exactly the rows SELECT with the same WHERE returns, so the row count compared with 0 is the number of matching lines |
| Tables.DeleteUnchangedIff | backend/server.js:130-137 | a DELETE leaves the cart unchanged if and only if no line matched it (both directions) |
| Tables.DeleteThenSelect | backend/server.js:144-148 | after a DELETE, no line matches its filter, so after a clear the user has no lines |
| Tables.DeleteIdempotent | backend/server.js:144-148 | applying the same DELETE twice gives the same table as applying it once |
| Tables.DeleteKeepsDisjoint | backend/server.js:127-148 | a DELETE leaves the lines of any disjoint filter (another user; the same user and another product) exactly as they were, in order |
| Tables.SelectAppend | backend/server.js:96-119 | after an INSERT, a SELECT returns the old result followed by the new line iff the line matches; a second add of the same product is a second line, never a merge |
| Tables.DeleteKeepsIdsIncreasing | backend/models/CartTable.js:6 | a DELETE keeps the surviving lines in insertion (SERIAL id) order |
| Tables.UpdateStatus | backend/server.js:225-228 | `UPDATE orders SET status, fulfilled_at WHERE id`: same length; rows with another id unchanged; rows with that id get exactly the new status and fulfilled_at, every other column kept |
| Tables.UpdateStatusAtMostOne | backend/server.js:225-228 | with distinct ids, the UPDATE changes at most one order |
| Tables.UpdateStatusNoMatch | backend/server.js:224-229 | an id that matches no order leaves the table unchanged, although success is reported |
| Tables.UpdateStatusLastWins | backend/server.js:225-228 | a second UPDATE of the same id overrides the first; setting (Fulfilled, t) then (Pending, null) restores (Pending, null) |
| Server.FindUser | backend/server.js:48-53 | the login lookup finds a row iff some user row has both that email and that password, and what it finds is such a row |
| Server.FindUserUnique | backend/models/User.js:8 | since emails are unique, the row found for a user's email and password is that user |
| Server.PlacedOrders | backend/server.js:174-180 | checkout's inserts: one order per line read, in the same order, with the user id and that line's product and quantity, consecutive ids, status defaulting to 'Pending' and no fulfilment time |
| Server.PlacedOrdersExtend | backend/server.js:174-180 | reading one more line appends exactly one order at the end |
| Server.PlacedOrdersConsistent | backend/models/Order.js:10 | every order checkout creates is Pending for that user, with fulfilled_at null |
| Server.Database.DeleteWhere | backend/server.js:147 | the cart becomes the DELETE result, no line matches the filter, other users' lines and the other tables are unchanged |
| Server.Database.InsertOrder | backend/server.js:175-179 | appends one Pending order with the next id and null fulfilled_at; nothing else changes |
| Server.Database.Register | backend/server.js:30-42 | a taken email fails and leaves the users table unchanged; otherwise exactly one user row is appended; cart and orders unchanged |
| Server.Database.Login | backend/server.js:45-64 | succeeds iff some user row matches both email and password exactly, returning that row's id, name and email; otherwise invalid credentials |
| Server.Database.AddToCart | backend/server.js:96-107 | appends exactly one line (next id, user, product, quantity) and returns it; every existing line and the other tables are unchanged |
| Tables.JoinProducts | backend/server.js:114-116 | the inner JOIN with `products` keeps exactly the lines whose product id has a products row, and no others |
| Tables.JoinKeepsLinesWithProducts | backend/server.js:114-116 | when every line's product exists, the JOIN drops nothing |
| Server.OrphanLineHiddenButOrdered | backend/server.js:113-117 | a line of the user whose product has no row is missing from the cart listing but is among the lines checkout reads (server.js:162-165) |
| Server.Database.GetCart | backend/server.js:110-124 | returns exactly the cart lines of that user whose product has a products row, in table order |
| Server.Database.RemoveFromCart | backend/server.js:127-141 | deletes every line of that user and product and no other; not-found exactly when none matched, and then the cart is unchanged; other users' lines unchanged |
| Server.Database.ClearCart | backend/server.js:144-152 | succeeds always; the user has no lines afterwards; other users' lines and the other tables unchanged |
| Server.Database.InsertOrders | backend/server.js:174-180 | the loop appends `PlacedOrders` of the lines read to the orders table and advances the id counter by their number |
| Server.Database.Checkout | backend/server.js:155-190 | no lines: empty-cart error, no orders, cart unchanged; otherwise the old orders are followed by one Pending order per line read, in order, and the user's lines are all deleted, other users' lines untouched |
| Server.Database.SetStatus | backend/server.js:220-234 | always reports success; orders become the UPDATE result, so at most the matching order changes and only in status and fulfilled_at; cart and users unchanged |
| ShowOrders.NextStatus | frontend/src/components/ShowOrders.js:46 | the new status is Pending iff the current one is Fulfilled, and Fulfilled for any other value, missing included |
| ShowOrders.StampFor | frontend/src/components/ShowOrders.js:47-48 | the new fulfilment time is present iff the new status is Fulfilled, and it is then the current time |
| ShowOrders.ToggleTwice | frontend/src/components/ShowOrders.js:46-48 | on {Pending, Fulfilled} toggling twice gives back the status, and toggling Fulfilled gives a null time |
| ShowOrders.DisplayStatus | frontend/src/components/ShowOrders.js:122 | a missing or empty status is shown as Pending; any other value is shown as is |
| ShowOrders.ReplaceStatus | frontend/src/components/ShowOrders.js:60-66 | the local update keeps length and order; rows with the id get the new status and fulfilled_at with all other fields kept; other rows unchanged |
| ShowOrders.ReplaceStatusMatchesServer | frontend/src/components/ShowOrders.js:60-66 | the local update changes each order exactly as the server's UPDATE with the same values does |
| ShowOrders.ToggleKeepsStampsConsistent | frontend/src/components/ShowOrders.js:45-57 | if fulfilled_at was set exactly on Fulfilled orders, the UPDATE a toggle requests keeps that true for every order |
| ShowOrders.OrdersPage.FetchOrders | frontend/src/components/ShowOrders.js:21-32 | the list becomes the fetched orders, or empty when the request fails |
| ShowOrders.OrdersPage.HandleToggleStatus | frontend/src/components/ShowOrders.js:45-70 | sends the toggled status with a time iff it is Fulfilled; on success the list becomes the local update; on failure it is unchanged |
| Dashboard.Clamp | frontend/src/components/Dashboard.js:132 | the stored quantity is max(1, value): at least 1, the value itself when it is at least 1 |
| Dashboard.EffectiveQuantity | frontend/src/components/Dashboard.js:117-201 | 1 for a product with no (or a 0) entry, the stored entry otherwise |
| Dashboard.EffectiveAtLeastOne | frontend/src/components/Dashboard.js:194-201 | while every stored entry is at least 1, the displayed and sent quantity is at least 1 and is the stored entry when there is one |
| Dashboard.DashboardState.HandleQuantityChange | frontend/src/components/Dashboard.js:131-134 | the entry for that product becomes max(1, value); every other entry is kept; all entries stay at least 1 |
| Dashboard.DashboardState.StepUp | frontend/src/components/Dashboard.js:202-211 | the entry becomes the effective quantity plus one |
| Dashboard.DashboardState.StepDown | frontend/src/components/Dashboard.js:190-199 | disabled (no change) when the effective quantity is at most 1; otherwise it stores one less; the effective quantity never drops below 1 |
| Dashboard.DashboardState.AddToCartQuantity | frontend/src/components/Dashboard.js:116-123 | the quantity sent is the stored entry, or 1 without one, and always at least 1 |
| Dashboard.DashboardState.HandleViewCart | frontend/src/components/Dashboard.js:50-58 | on success shows the fetched lines; on failure nothing changes |
| Dashboard.DashboardState.HandleCheckout | frontend/src/components/Dashboard.js:70-92 | a request is sent iff the local cart is non-empty; an empty cart changes nothing; on a 200 or 201 reply the local cart is emptied and hidden, otherwise nothing changes |

## Left out

- PostgreSQL pool, Express routing, body parsing, CORS and static serving (backend/server.js:1-27, 239-241) are I/O plumbing. The tables are in-memory state, and the HTTP replies are result constructors.
- Storage failures (the 500 replies) are not modelled, except the unique-email violation on register. The deployed schema is not in the repository: backend/models/Order.js (a `product` column and `created_at`) and backend/models/tempCodeRunnerFile.js (an `item` column) disagree with the `product_id`, `ordered_at` and `fulfilled_at` columns server.js uses for orders, while backend/models/CartTable.js and backend/models/User.js agree with it. So foreign-key failures and checkout's partial inserts after a failed write are not modelled.
- Concurrency is not modelled: every handler is atomic and sequential. The race between checkout's read and delete and a concurrent add-to-cart cannot occur in the model.
- Server.Database.Checkout: every order it inserts gets the same opaque `now`. The source evaluates `NOW()` once per autocommitted INSERT, so the real timestamps may differ.
- Server.Database.GetCart: the product columns the join adds (name, image_url) are not returned; the join's effect on which lines are listed is modelled, with the products table given as the set of its ids. Lines are returned in table order, which stands in for the order a SELECT without ORDER BY returns. Checkout reads its lines the same way.
- The product routes (`POST /api/products`, `GET /api/products`) are not modelled: they are a plain insert and a read whose only logic is ordering by a timestamp. `GET /api/orders` (backend/server.js:204-213) is not modelled either: it inner-joins `products`, so it drops every order whose product has no row, adds the product name, and sorts by `ordered_at`, newest first. The second `GET /api/products` registration (backend/server.js:193-201) is unreachable.
- backend/controllers/orderController.js and backend/controllers/authController.js are not part of this model. The first cannot load (it declares `pool` twice) and uses columns server.js does not use. The second rests on bcrypt and JWT library calls.
- Quantities are integers. The NaN that `parseInt` can yield inside `Math.max` is not modelled.
- Rendering, routing, localStorage, alerts, timers (the slideshows) and the axios calls in the frontend are not modelled. A request's result is a parameter.
- ShowOrders.OrdersPage.FetchOrders: the request goes to the bare host URL, not `/api/orders` (frontend/src/components/ShowOrders.js:24), and a successful reply without an `orders` field also yields an empty list (line 25); the `response` parameter stands for whatever list that request produces, so neither the URL nor the missing-field case is modelled.
