/** Rows of the ordering application's tables, and the SQL statement shapes
    (`SELECT … WHERE`, `DELETE … WHERE`, the inner JOIN with `products`,
    `UPDATE … WHERE id`) that the server issues against them, as functions
    on sequences of rows in table order. */
module Tables {

  datatype Option<T> = None | Some(value: T)

  /** A timestamp (the database's NOW() or a client's ISO-8601 string), kept opaque. */
  type Timestamp = string

  /** The two status values the application writes. */
  const Pending: string := "Pending"
  const Fulfilled: string := "Fulfilled"

  /** A row of `users`; `email` is a UNIQUE column. */
  datatype User = User(id: int, name: string, email: string, password: string, phone: Option<string>)

  /** A row of `cart`; nothing makes (userId, productId) unique. */
  datatype CartLine = CartLine(id: int, userId: int, productId: int, quantity: int, createdAt: Timestamp)

  /** A row of `orders`; `status` and `fulfilledAt` are nullable, and the server
      stores whatever a client sends for them. */
  datatype Order = Order(id: int, userId: int, productId: int, quantity: int,
                         status: Option<string>, orderedAt: Timestamp, fulfilledAt: Option<Timestamp>)

  /** The WHERE clauses the server uses on `cart`. */
  datatype CartFilter = ByUser(user: int) | ByUserAndProduct(user: int, product: int)

  predicate Matches(f: CartFilter, line: CartLine) {
    match f
    case ByUser(u) => line.userId == u
    case ByUserAndProduct(u, p) => line.userId == u && line.productId == p
  }

  /** No row satisfies both filters. */
  predicate Disjoint(f: CartFilter, g: CartFilter)
    ensures Disjoint(f, g) ==> forall l :: !(Matches(f, l) && Matches(g, l))
  {
    f.user != g.user
    || (f.ByUserAndProduct? && g.ByUserAndProduct? && f.product != g.product)
  }

  /** `SELECT … FROM cart WHERE f`: the matching rows, in table order. */
  function Select(cart: seq<CartLine>, f: CartFilter): (r: seq<CartLine>)
    ensures |r| <= |cart|
    ensures forall l :: l in r <==> l in cart && Matches(f, l)
  {
    if cart == [] then []
    else if Matches(f, cart[0]) then [cart[0]] + Select(cart[1..], f)
    else Select(cart[1..], f)
  }

  /** `DELETE FROM cart WHERE f`: the table that remains, in table order. */
  function Delete(cart: seq<CartLine>, f: CartFilter): (r: seq<CartLine>)
    ensures |r| <= |cart|
    ensures forall l :: l in r <==> l in cart && !Matches(f, l)
  {
    if cart == [] then []
    else if Matches(f, cart[0]) then Delete(cart[1..], f)
    else [cart[0]] + Delete(cart[1..], f)
  }

  /** The inner `JOIN products p ON c.product_id = p.id` of the cart listing:
      the lines whose product id has a row in `products`, in order. */
  function JoinProducts(lines: seq<CartLine>, products: set<int>): (r: seq<CartLine>)
    ensures |r| <= |lines|
    ensures forall l :: l in r <==> l in lines && l.productId in products
  {
    if lines == [] then []
    else if lines[0].productId in products then [lines[0]] + JoinProducts(lines[1..], products)
    else JoinProducts(lines[1..], products)
  }

  /** When every line's product exists, the JOIN drops nothing. */
  lemma {:induction false} JoinKeepsLinesWithProducts(lines: seq<CartLine>, products: set<int>)
    requires forall l :: l in lines ==> l.productId in products
    ensures JoinProducts(lines, products) == lines
  {
    if lines != [] {
      assert lines[0] in lines;
      JoinKeepsLinesWithProducts(lines[1..], products);
      assert lines == [lines[0]] + lines[1..];
    }
  }

  /** DELETE removes exactly the rows SELECT returns with the same WHERE clause:
      together they partition the table, so the rows deleted number |Select|. */
  lemma {:induction false} SelectDeletePartition(cart: seq<CartLine>, f: CartFilter)
    ensures multiset(Select(cart, f)) + multiset(Delete(cart, f)) == multiset(cart)
    ensures |Select(cart, f)| + |Delete(cart, f)| == |cart|
  {
    if cart != [] {
      SelectDeletePartition(cart[1..], f);
      assert cart == [cart[0]] + cart[1..];
    }
  }

  /** A DELETE leaves the table unchanged exactly when no row matched it. */
  lemma {:induction false} DeleteUnchangedIff(cart: seq<CartLine>, f: CartFilter)
    ensures Delete(cart, f) == cart <==> Select(cart, f) == []
  {
    SelectDeletePartition(cart, f);
    if cart != [] && Select(cart, f) == [] {
      assert !Matches(f, cart[0]) by { assert cart[0] in cart; }
      DeleteUnchangedIff(cart[1..], f);
      assert cart == [cart[0]] + cart[1..];
    }
  }

  /** After a DELETE no row matches its WHERE clause. */
  lemma DeleteThenSelect(cart: seq<CartLine>, f: CartFilter)
    ensures Select(Delete(cart, f), f) == []
  {
  }

  /** A DELETE is idempotent. */
  lemma DeleteIdempotent(cart: seq<CartLine>, f: CartFilter)
    ensures Delete(Delete(cart, f), f) == Delete(cart, f)
  {
  }

  /** A DELETE leaves the rows selected by a disjoint filter as they were, in order. */
  lemma {:induction false} DeleteKeepsDisjoint(cart: seq<CartLine>, f: CartFilter, g: CartFilter)
    requires Disjoint(f, g)
    ensures Select(Delete(cart, f), g) == Select(cart, g)
  {
    if cart != [] {
      DeleteKeepsDisjoint(cart[1..], f, g);
      if !Matches(f, cart[0]) {
        assert Delete(cart, f) == [cart[0]] + Delete(cart[1..], f);
        assert ([cart[0]] + Delete(cart[1..], f))[1..] == Delete(cart[1..], f);
      }
    }
  }

  /** Selecting after an INSERT: the new row is appended to the result iff it matches. */
  lemma {:induction false} SelectAppend(cart: seq<CartLine>, line: CartLine, f: CartFilter)
    ensures Select(cart + [line], f) == Select(cart, f) + (if Matches(f, line) then [line] else [])
  {
    if cart == [] {
      assert [] + [line] == [line];
      assert [line][1..] == [];
    } else {
      assert (cart + [line])[1..] == cart[1..] + [line];
      SelectAppend(cart[1..], line, f);
    }
  }

  /** Row ids strictly increase along a table, as SERIAL ids of rows inserted
      in order do; `id` picks a row's id column. */
  predicate IdsIncreasing<T>(rows: seq<T>, id: T -> int) {
    forall i, j :: 0 <= i < j < |rows| ==> id(rows[i]) < id(rows[j])
  }

  function LineId(l: CartLine): int { l.id }
  function OrderId(o: Order): int { o.id }
  function UserId(u: User): int { u.id }

  /** A DELETE keeps the surviving rows in table order. */
  lemma {:induction false} DeleteKeepsIdsIncreasing(cart: seq<CartLine>, f: CartFilter)
    requires IdsIncreasing(cart, LineId)
    ensures IdsIncreasing(Delete(cart, f), LineId)
  {
    if cart != [] {
      DeleteKeepsIdsIncreasing(cart[1..], f);
      if !Matches(f, cart[0]) {
        var rest := Delete(cart[1..], f);
        forall j | 0 <= j < |rest| ensures cart[0].id < rest[j].id {
          assert rest[j] in cart[1..];
        }
      }
    }
  }

  /** `UPDATE orders SET status = …, fulfilled_at = … WHERE id = …`. */
  function UpdateStatus(orders: seq<Order>, id: int, status: Option<string>, fulfilledAt: Option<Timestamp>): (r: seq<Order>)
    ensures |r| == |orders|
    ensures forall i :: 0 <= i < |orders| && orders[i].id != id ==> r[i] == orders[i]
    ensures forall i :: 0 <= i < |orders| && orders[i].id == id ==>
              r[i] == orders[i].(status := status, fulfilledAt := fulfilledAt)
  {
    if orders == [] then []
    else
      var head := if orders[0].id == id then orders[0].(status := status, fulfilledAt := fulfilledAt) else orders[0];
      [head] + UpdateStatus(orders[1..], id, status, fulfilledAt)
  }

  /** With distinct ids, an UPDATE by id changes at most one row. */
  lemma UpdateStatusAtMostOne(orders: seq<Order>, id: int, status: Option<string>, fulfilledAt: Option<Timestamp>, i: int, j: int)
    requires IdsIncreasing(orders, OrderId)
    requires 0 <= i < |orders| && 0 <= j < |orders|
    requires UpdateStatus(orders, id, status, fulfilledAt)[i] != orders[i]
    requires UpdateStatus(orders, id, status, fulfilledAt)[j] != orders[j]
    ensures i == j
  {
  }

  /** An UPDATE whose id matches no row changes nothing. */
  lemma UpdateStatusNoMatch(orders: seq<Order>, id: int, status: Option<string>, fulfilledAt: Option<Timestamp>)
    requires forall o :: o in orders ==> o.id != id
    ensures UpdateStatus(orders, id, status, fulfilledAt) == orders
  {
  }

  /** The later of two UPDATEs of the same row wins; in particular setting
      (Fulfilled, t) and then (Pending, null) restores (Pending, null). */
  lemma UpdateStatusLastWins(orders: seq<Order>, id: int, s1: Option<string>, t1: Option<Timestamp>,
                             s2: Option<string>, t2: Option<Timestamp>)
    ensures UpdateStatus(UpdateStatus(orders, id, s1, t1), id, s2, t2) == UpdateStatus(orders, id, s2, t2)
  {
  }

  /** `fulfilled_at` is set exactly when `status` is Fulfilled. */
  predicate StampMatchesStatus(o: Order) {
    o.fulfilledAt.Some? <==> o.status == Some(Fulfilled)
  }
}
