/** The owner's order page: the status toggle, which is the one place where
    a fulfilment time is derived from a status, and the page's local order list. */
module ShowOrders {
  import opened Tables

  /** An order as the page holds it: the order's columns and the joined product name. */
  datatype OrderRow = OrderRow(order: Order, productName: string)

  /** The body of `PUT /api/orders/:id/status` that a toggle sends. */
  datatype StatusRequest = StatusRequest(orderId: int, status: string, fulfilledAt: Option<Timestamp>)

  /** The status a toggle asks for: Fulfilled goes back to Pending; any other
      current value, a missing one included, goes to Fulfilled. */
  function NextStatus(current: Option<string>): (s: string)
    ensures s == Pending <==> current == Some(Fulfilled)
    ensures s == Fulfilled <==> current != Some(Fulfilled)
  {
    if current == Some(Fulfilled) then Pending else Fulfilled
  }

  /** The fulfilment time sent with a new status: the current time for
      Fulfilled, null for anything else. */
  function StampFor(status: string, now: Timestamp): (t: Option<Timestamp>)
    ensures t.Some? <==> status == Fulfilled
    ensures t.Some? ==> t.value == now
  {
    if status == Fulfilled then Some(now) else None
  }

  /** On the two recognised statuses the toggle is an involution, and toggling
      a Fulfilled order clears its fulfilment time. */
  lemma ToggleTwice(s: string, now: Timestamp)
    requires s == Pending || s == Fulfilled
    ensures NextStatus(Some(NextStatus(Some(s)))) == s
    ensures s == Fulfilled ==> StampFor(NextStatus(Some(s)), now) == None
  {
  }

  /** The status column as the page shows it: empty or missing reads as Pending. */
  function DisplayStatus(status: Option<string>): (d: string)
    ensures status == None || status == Some("") ==> d == Pending
    ensures status.Some? && status.value != "" ==> d == status.value
  {
    if status.Some? && status.value != "" then status.value else Pending
  }

  /** The `prevOrders.map(…)` update: the rows with the given id get the new
      status and fulfilment time; every other field and row is kept, in order. */
  function ReplaceStatus(rows: seq<OrderRow>, id: int, status: string, fulfilledAt: Option<Timestamp>): (r: seq<OrderRow>)
    ensures |r| == |rows|
    ensures forall i :: 0 <= i < |rows| && rows[i].order.id != id ==> r[i] == rows[i]
    ensures forall i :: 0 <= i < |rows| && rows[i].order.id == id ==>
              r[i] == rows[i].(order := rows[i].order.(status := Some(status), fulfilledAt := fulfilledAt))
  {
    if rows == [] then []
    else
      var head := if rows[0].order.id == id
                  then rows[0].(order := rows[0].order.(status := Some(status), fulfilledAt := fulfilledAt))
                  else rows[0];
      [head] + ReplaceStatus(rows[1..], id, status, fulfilledAt)
  }

  /** The page's local update agrees with what the server's UPDATE does to the
      same orders: both touch the same row and the same two columns. */
  lemma ReplaceStatusMatchesServer(rows: seq<OrderRow>, id: int, status: string, fulfilledAt: Option<Timestamp>)
    ensures |ReplaceStatus(rows, id, status, fulfilledAt)| == |rows|
    ensures forall i :: 0 <= i < |rows| ==>
              ReplaceStatus(rows, id, status, fulfilledAt)[i].order
              == UpdateStatus(Orders(rows), id, Some(status), fulfilledAt)[i]
  {
  }

  /** The order columns of the page's rows. */
  function Orders(rows: seq<OrderRow>): (r: seq<Order>)
    ensures |r| == |rows|
    ensures forall i :: 0 <= i < |rows| ==> r[i] == rows[i].order
  {
    if rows == [] then [] else [rows[0].order] + Orders(rows[1..])
  }

  /** A toggle never breaks the pairing of status and fulfilment time on the
      server: if every order had `fulfilled_at` set exactly when Fulfilled,
      so does every order after the UPDATE the toggle requests. */
  lemma ToggleKeepsStampsConsistent(orders: seq<Order>, id: int, current: Option<string>, now: Timestamp)
    requires forall o :: o in orders ==> StampMatchesStatus(o)
    ensures forall o :: o in UpdateStatus(orders, id, Some(NextStatus(current)), StampFor(NextStatus(current), now))
                        ==> StampMatchesStatus(o)
  {
  }

  class OrdersPage {
    var orders: seq<OrderRow>

    constructor ()
      ensures orders == []
    {
      orders := [];
    }

    /** `fetchOrders`: the fetched list, or empty when the request fails. */
    method FetchOrders(response: Option<seq<OrderRow>>)
      modifies this
      ensures orders == if response.Some? then response.value else []
    {
      orders := if response.Some? then response.value else [];
    }

    /** `handleToggleStatus`: derive the new status and time, send them, and
        on success update the local list; on failure leave it alone.
        `putSucceeded` is whether the request resolved. */
    method HandleToggleStatus(orderId: int, currentStatus: Option<string>, now: Timestamp, putSucceeded: bool)
      returns (request: StatusRequest)
      modifies this
      ensures request.orderId == orderId
      ensures request.status == NextStatus(currentStatus)
      ensures request.fulfilledAt.Some? <==> request.status == Fulfilled
      ensures request.fulfilledAt == StampFor(request.status, now)
      ensures putSucceeded ==> orders == ReplaceStatus(old(orders), orderId, request.status, request.fulfilledAt)
      ensures !putSucceeded ==> orders == old(orders)
    {
      var newStatus := NextStatus(currentStatus);
      var fulfilledAt := StampFor(newStatus, now);
      request := StatusRequest(orderId, newStatus, fulfilledAt);
      if putSucceeded {
        orders := ReplaceStatus(orders, orderId, newStatus, fulfilledAt);
      }
    }
  }
}
