/** The backend's route handlers as operations on an in-memory copy of the
    `users`, `cart` and `orders` tables. Each handler runs atomically; the
    HTTP status it answers with is the constructor of its result. */
module Server {
  import opened Tables

  /** Failures a handler reports, with the HTTP status it answers. */
  datatype Error =
    | NotFound            // 404 "Item not found"
    | EmptyCart           // 400 "Cart is empty"
    | InvalidCredentials  // 401 "Invalid credentials"
    | RegistrationFailed  // 500 "Registration failed." (a duplicate email)

  /** The reply of a handler whose success carries no row. */
  datatype Outcome = Done | Failed(error: Error)

  datatype Result<T> = Ok(value: T) | Err(error: Error)

  /** The part of a user row that a successful login returns. */
  datatype Account = Account(id: int, name: string, email: string)

  predicate EmailTaken(users: seq<User>, email: string) {
    exists u :: u in users && u.email == email
  }

  predicate EmailsUnique(users: seq<User>) {
    forall i, j :: 0 <= i < j < |users| ==> users[i].email != users[j].email
  }

  /** `SELECT * FROM users WHERE email = $1 AND password = $2`, first row, in table order. */
  function FindUser(users: seq<User>, email: string, password: string): (r: Option<User>)
    ensures r.Some? <==> exists u :: u in users && u.email == email && u.password == password
    ensures r.Some? ==> r.value in users && r.value.email == email && r.value.password == password
  {
    if users == [] then None
    else if users[0].email == email && users[0].password == password then Some(users[0])
    else FindUser(users[1..], email, password)
  }

  /** Since emails are unique, the row login finds is the only one that matches. */
  lemma FindUserUnique(users: seq<User>, u: User)
    requires EmailsUnique(users)
    requires u in users
    ensures FindUser(users, u.email, u.password) == Some(u)
  {
  }

  /** The order rows checkout inserts for `items`, the cart lines it read:
      one per line, in the order read, with consecutive SERIAL ids from `firstId`,
      the status column's default 'Pending' and no fulfilment time. */
  function PlacedOrders(items: seq<CartLine>, user: int, firstId: int, now: Timestamp): (r: seq<Order>)
    ensures |r| == |items|
    ensures forall k :: 0 <= k < |items| ==>
              r[k] == Order(firstId + k, user, items[k].productId, items[k].quantity, Some(Pending), now, None)
  {
    if items == [] then []
    else [Order(firstId, user, items[0].productId, items[0].quantity, Some(Pending), now, None)]
         + PlacedOrders(items[1..], user, firstId + 1, now)
  }

  /** Reading one more line adds one order at the end. */
  lemma PlacedOrdersExtend(items: seq<CartLine>, i: int, user: int, firstId: int, now: Timestamp)
    requires 0 <= i < |items|
    ensures PlacedOrders(items[..i + 1], user, firstId, now)
            == PlacedOrders(items[..i], user, firstId, now)
               + [Order(firstId + i, user, items[i].productId, items[i].quantity, Some(Pending), now, None)]
  {
  }

  /** Every order checkout creates is Pending with no fulfilment time, so
      `fulfilled_at` is set exactly when the status is Fulfilled. */
  lemma PlacedOrdersConsistent(items: seq<CartLine>, user: int, firstId: int, now: Timestamp)
    ensures forall o :: o in PlacedOrders(items, user, firstId, now) ==>
              StampMatchesStatus(o) && o.status == Some(Pending) && o.userId == user
  {
  }

  /** A cart line whose product has no row is left out of the cart listing,
      yet checkout, whose SELECT has no JOIN, still reads it and orders it. */
  lemma OrphanLineHiddenButOrdered(cart: seq<CartLine>, user: int, products: set<int>, l: CartLine)
    requires l in cart && l.userId == user && l.productId !in products
    ensures l !in JoinProducts(Select(cart, ByUser(user)), products)
    ensures l in Select(cart, ByUser(user))
  {
  }

  class Database {
    var users: seq<User>
    var cart: seq<CartLine>
    var orders: seq<Order>
    // The next value of each table's SERIAL id sequence.
    var nextUserId: int
    var nextCartId: int
    var nextOrderId: int

    /** Ids come from the sequences in insertion order, and emails are unique. */
    ghost predicate Valid()
      reads this
    {
      && IdsIncreasing(users, UserId) && EmailsUnique(users)
      && (forall u :: u in users ==> u.id < nextUserId)
      && IdsIncreasing(cart, LineId)
      && (forall l :: l in cart ==> l.id < nextCartId)
      && IdsIncreasing(orders, OrderId)
      && (forall o :: o in orders ==> o.id < nextOrderId)
    }

    constructor ()
      ensures Valid()
      ensures users == [] && cart == [] && orders == []
    {
      users, cart, orders := [], [], [];
      nextUserId, nextCartId, nextOrderId := 1, 1, 1;
    }

    /** `DELETE FROM cart WHERE f`, the statement behind remove, clear and checkout. */
    method DeleteWhere(f: CartFilter)
      requires Valid()
      modifies this
      ensures Valid()
      ensures cart == Delete(old(cart), f)
      ensures Select(cart, f) == []
      ensures forall v :: v != f.user ==> Select(cart, ByUser(v)) == Select(old(cart), ByUser(v))
      ensures users == old(users) && orders == old(orders)
      ensures nextUserId == old(nextUserId) && nextCartId == old(nextCartId) && nextOrderId == old(nextOrderId)
    {
      DeleteThenSelect(cart, f);
      DeleteKeepsIdsIncreasing(cart, f);
      forall v | v != f.user ensures Select(Delete(cart, f), ByUser(v)) == Select(cart, ByUser(v)) {
        DeleteKeepsDisjoint(cart, f, ByUser(v));
      }
      cart := Delete(cart, f);
    }

    /** `INSERT INTO orders (user_id, product_id, quantity, ordered_at)`: the
        status column takes its default 'Pending' and fulfilled_at stays null. */
    method InsertOrder(user: int, product: int, quantity: int, now: Timestamp)
      requires Valid()
      modifies this
      ensures Valid()
      ensures orders == old(orders) + [Order(old(nextOrderId), user, product, quantity, Some(Pending), now, None)]
      ensures nextOrderId == old(nextOrderId) + 1
      ensures users == old(users) && cart == old(cart)
      ensures nextUserId == old(nextUserId) && nextCartId == old(nextCartId)
    {
      orders := orders + [Order(nextOrderId, user, product, quantity, Some(Pending), now, None)];
      nextOrderId := nextOrderId + 1;
    }

    /** POST /api/register: insert a user; the UNIQUE email column rejects a
        second row with the same email. The sequence value is consumed either way. */
    method Register(name: string, email: string, password: string, phone: Option<string>) returns (o: Outcome)
      requires Valid()
      modifies this
      ensures Valid()
      ensures o == (if EmailTaken(old(users), email) then Failed(RegistrationFailed) else Done)
      ensures users == if o.Done? then old(users) + [User(old(nextUserId), name, email, password, phone)] else old(users)
      ensures cart == old(cart) && orders == old(orders)
      ensures nextUserId == old(nextUserId) + 1
      ensures nextCartId == old(nextCartId) && nextOrderId == old(nextOrderId)
    {
      var id := nextUserId;
      nextUserId := nextUserId + 1;
      if EmailTaken(users, email) {
        return Failed(RegistrationFailed);
      }
      users := users + [User(id, name, email, password, phone)];
      o := Done;
    }

    /** POST /api/login: plaintext match on email and password. */
    method Login(email: string, password: string) returns (r: Result<Account>)
      ensures r.Ok? <==> exists u :: u in users && u.email == email && u.password == password
      ensures r.Ok? ==> exists u :: u in users && u.email == email && u.password == password
                                    && r.value == Account(u.id, u.name, u.email)
      ensures r.Err? ==> r.error == InvalidCredentials
    {
      var found := FindUser(users, email, password);
      if found.Some? {
        r := Ok(Account(found.value.id, found.value.name, found.value.email));
      } else {
        r := Err(InvalidCredentials);
      }
    }

    /** POST /api/cart: an unconditional INSERT returning the new row. */
    method AddToCart(user: int, product: int, quantity: int, now: Timestamp) returns (line: CartLine)
      requires Valid()
      modifies this
      ensures Valid()
      ensures line == CartLine(old(nextCartId), user, product, quantity, now)
      ensures cart == old(cart) + [line]
      ensures nextCartId == old(nextCartId) + 1
      ensures users == old(users) && orders == old(orders)
      ensures nextUserId == old(nextUserId) && nextOrderId == old(nextOrderId)
    {
      line := CartLine(nextCartId, user, product, quantity, now);
      cart := cart + [line];
      nextCartId := nextCartId + 1;
    }

    /** GET /api/cart/:user_id: the user's lines joined with `products`, whose
        ids are `products`; a line whose product has no row is not listed. */
    method GetCart(user: int, products: set<int>) returns (lines: seq<CartLine>)
      ensures forall l :: l in lines <==> l in cart && l.userId == user && l.productId in products
      ensures lines == JoinProducts(Select(cart, ByUser(user)), products)
    {
      lines := JoinProducts(Select(cart, ByUser(user)), products);
    }

    /** DELETE /api/cart/:user_id/:product_id: delete every line of that user
        and product; 404 when none was deleted. */
    method RemoveFromCart(user: int, product: int) returns (o: Outcome)
      requires Valid()
      modifies this
      ensures Valid()
      ensures cart == Delete(old(cart), ByUserAndProduct(user, product))
      ensures o == (if Select(old(cart), ByUserAndProduct(user, product)) == [] then Failed(NotFound) else Done)
      ensures o.Failed? ==> cart == old(cart)
      ensures forall v :: v != user ==> Select(cart, ByUser(v)) == Select(old(cart), ByUser(v))
      ensures users == old(users) && orders == old(orders)
      ensures nextUserId == old(nextUserId) && nextCartId == old(nextCartId) && nextOrderId == old(nextOrderId)
    {
      var filter := ByUserAndProduct(user, product);
      var deleted := Select(cart, filter);
      DeleteUnchangedIff(cart, filter);
      DeleteWhere(filter);
      if |deleted| == 0 {
        return Failed(NotFound);
      }
      o := Done;
    }

    /** DELETE /api/cart/:user_id: delete all of the user's lines; succeeds on an empty cart. */
    method ClearCart(user: int) returns (o: Outcome)
      requires Valid()
      modifies this
      ensures Valid()
      ensures o == Done
      ensures cart == Delete(old(cart), ByUser(user))
      ensures Select(cart, ByUser(user)) == []
      ensures forall v :: v != user ==> Select(cart, ByUser(v)) == Select(old(cart), ByUser(v))
      ensures users == old(users) && orders == old(orders)
      ensures nextUserId == old(nextUserId) && nextCartId == old(nextCartId) && nextOrderId == old(nextOrderId)
    {
      DeleteWhere(ByUser(user));
      o := Done;
    }

    /** The checkout loop `for (const item of cartItems)`: one INSERT into
        `orders` per line read, in that order. */
    method InsertOrders(items: seq<CartLine>, user: int, now: Timestamp)
      requires Valid()
      modifies this
      ensures Valid()
      ensures orders == old(orders) + PlacedOrders(items, user, old(nextOrderId), now)
      ensures nextOrderId == old(nextOrderId) + |items|
      ensures users == old(users) && cart == old(cart)
      ensures nextUserId == old(nextUserId) && nextCartId == old(nextCartId)
    {
      var i := 0;
      while i < |items|
        invariant 0 <= i <= |items|
        invariant Valid()
        invariant nextOrderId == old(nextOrderId) + i
        invariant orders == old(orders) + PlacedOrders(items[..i], user, old(nextOrderId), now)
        invariant users == old(users) && cart == old(cart)
        invariant nextUserId == old(nextUserId) && nextCartId == old(nextCartId)
      {
        PlacedOrdersExtend(items, i, user, old(nextOrderId), now);
        InsertOrder(user, items[i].productId, items[i].quantity, now);
        i := i + 1;
      }
      assert items[..i] == items;
    }

    /** POST /api/orders (checkout): read the user's lines; with none, 400 and
        no change. Otherwise insert one order per line, in the order read, then
        delete all of the user's lines. */
    method Checkout(user: int, now: Timestamp) returns (o: Outcome)
      requires Valid()
      modifies this
      ensures Valid()
      ensures users == old(users) && nextUserId == old(nextUserId) && nextCartId == old(nextCartId)
      ensures old(Select(cart, ByUser(user))) == [] ==>
                o == Failed(EmptyCart) && cart == old(cart) && orders == old(orders) && nextOrderId == old(nextOrderId)
      ensures old(Select(cart, ByUser(user))) != [] ==>
                && o == Done
                && orders == old(orders) + PlacedOrders(old(Select(cart, ByUser(user))), user, old(nextOrderId), now)
                && nextOrderId == old(nextOrderId) + |old(Select(cart, ByUser(user)))|
                && cart == Delete(old(cart), ByUser(user))
      ensures Select(cart, ByUser(user)) == []
      ensures forall v :: v != user ==> Select(cart, ByUser(v)) == Select(old(cart), ByUser(v))
    {
      var items := Select(cart, ByUser(user));
      if |items| == 0 {
        return Failed(EmptyCart);
      }
      InsertOrders(items, user, now);
      DeleteWhere(ByUser(user));
      o := Done;
    }

    /** PUT /api/orders/:id/status: overwrite status and fulfilled_at of the
        order with that id, whatever the values; success even when no id matches. */
    method SetStatus(id: int, status: Option<string>, fulfilledAt: Option<Timestamp>) returns (o: Outcome)
      requires Valid()
      modifies this
      ensures Valid()
      ensures o == Done
      ensures orders == UpdateStatus(old(orders), id, status, fulfilledAt)
      ensures forall i, j :: (0 <= i < |orders| && 0 <= j < |orders| && orders[i] != old(orders)[i]
                               && orders[j] != old(orders)[j]) ==> i == j
      ensures users == old(users) && cart == old(cart)
      ensures nextUserId == old(nextUserId) && nextCartId == old(nextCartId) && nextOrderId == old(nextOrderId)
    {
      forall i, j | 0 <= i < |orders| && 0 <= j < |orders|
                    && UpdateStatus(orders, id, status, fulfilledAt)[i] != orders[i]
                    && UpdateStatus(orders, id, status, fulfilledAt)[j] != orders[j]
        ensures i == j
      {
        UpdateStatusAtMostOne(orders, id, status, fulfilledAt, i, j);
      }
      orders := UpdateStatus(orders, id, status, fulfilledAt);
      o := Done;
    }
  }

  /** A client of the handlers: user 1's lines (product 5, quantity 2) and
      (product 7, quantity 1) become two Pending orders and the cart empties;
      removing a product never added answers 404. */
  method CheckoutScenario(now: Timestamp) {
    var db := new Database();
    var first := db.AddToCart(1, 5, 2, now);
    var second := db.AddToCart(1, 7, 1, now);
    assert db.cart == [first] + [second];
    assert Select(db.cart, ByUserAndProduct(1, 99)) == [] by {
      SelectAppend([first], second, ByUserAndProduct(1, 99));
      SelectAppend([], first, ByUserAndProduct(1, 99));
      assert [] + [first] == [first];
    }
    var missing := db.RemoveFromCart(1, 99);
    assert missing == Failed(NotFound);
    ghost var lines := Select(db.cart, ByUser(1));
    assert lines == [first, second] by {
      SelectAppend([first], second, ByUser(1));
      SelectAppend([], first, ByUser(1));
      assert [] + [first] == [first];
    }
    var placed := db.Checkout(1, now);
    assert placed == Done;
    assert |db.orders| == 2;
    assert db.orders[0].productId == 5 && db.orders[0].quantity == 2 && db.orders[0].status == Some(Pending);
    assert db.orders[1].productId == 7 && db.orders[1].quantity == 1 && db.orders[1].userId == 1;
    var left := db.GetCart(1, {5, 7});
    assert left == [];
    var again := db.Checkout(1, now);
    assert again == Failed(EmptyCart);
  }
}
