/**
 * Persisted orders as the two order screens hold them in memory, the
 * status vocabulary, and the two list transformations both screens share:
 * joining fetched orders with their line items, and patching one order's
 * status in place.
 */
module Orders {
  import opened Wrappers

  /** The status values the admin screen offers, in intended progression order. */
  const Pending: string := "pending"
  const Confirmed: string := "confirmed"
  const Preparing: string := "preparing"
  const OutForDelivery: string := "out_for_delivery"
  const Delivered: string := "delivered"
  const Cancelled: string := "cancelled"

  /** Icons the status displays use. */
  datatype Icon = Clock | CheckCircle | Package | Truck | XCircle

  /** A stored line item (an `order_items` row). */
  datatype OrderItem = OrderItem(id: string, foodName: string, quantity: int, price: int, foodImage: string)

  /**
   * A stored order row (an `orders` row). `status` is whatever string the row
   * holds; a null status is represented by "".
   */
  datatype OrderRow = OrderRow(
    id: string,
    userId: string,
    totalAmount: int,
    status: string,
    deliveryAddress: string,
    deliveryCity: string,
    deliveryState: string,
    deliveryZip: string,
    phone: string,
    paymentMethod: string,
    createdAt: string)

  /** An order as a screen holds it: the row plus its line items. */
  datatype Order = Order(row: OrderRow, items: seq<OrderItem>)

  /**
   * The answer to "select the orders, newest first": a store error, or the
   * (possibly null) rows together with the answer to each row's items query,
   * in the same order. An items answer is None when the store returned no data.
   */
  datatype OrdersResponse =
    | OrdersError(message: string)
    | OrdersData(rows: Option<seq<OrderRow>>, itemAnswers: seq<Option<seq<OrderItem>>>)

  /** Each fetched row received exactly one items answer (one query per row). */
  predicate WellFormedResponse(response: OrdersResponse) {
    response.OrdersData? ==> |response.itemAnswers| == |response.rows.GetOr([])|
  }

  /**
   * `{ ...order, order_items: items || [] }` over every fetched row: each
   * row keeps its place and gets its own items, or none when no data came back.
   */
  function JoinItems(rows: seq<OrderRow>, itemAnswers: seq<Option<seq<OrderItem>>>): (r: seq<Order>)
    requires |itemAnswers| == |rows|
    ensures |r| == |rows|
    ensures forall i :: 0 <= i < |rows| ==> r[i].row == rows[i]
    ensures forall i :: 0 <= i < |rows| ==>
              (itemAnswers[i].Some? ==> r[i].items == itemAnswers[i].value)
              && (itemAnswers[i].None? ==> r[i].items == [])
  {
    seq(|rows|, i requires 0 <= i < |rows| => Order(rows[i], itemAnswers[i].GetOr([])))
  }

  /**
   * `orders.map(o => o.id === id ? { ...o, status } : o)`: every order
   * carrying `id` gets `status`; nothing else changes, and the list keeps its
   * length and order.
   */
  function SetStatus(orders: seq<Order>, id: string, status: string): (r: seq<Order>)
    ensures |r| == |orders|
    ensures forall i :: 0 <= i < |orders| && orders[i].row.id == id ==> r[i].row.status == status
    ensures forall i :: 0 <= i < |orders| && orders[i].row.id != id ==> r[i] == orders[i]
    ensures forall i :: 0 <= i < |orders| ==>
              r[i].items == orders[i].items && r[i].row == orders[i].row.(status := r[i].row.status)
  {
    seq(|orders|, i requires 0 <= i < |orders| =>
      if orders[i].row.id == id then orders[i].(row := orders[i].row.(status := status)) else orders[i])
  }

  /**
   * The effect on the stored rows of `update({ status }).eq('id', id)`: each
   * row carrying `id` takes `status`, and every other field and row is kept.
   */
  function PatchRows(rows: seq<OrderRow>, id: string, status: string): (r: seq<OrderRow>)
    ensures |r| == |rows|
    ensures forall i :: 0 <= i < |rows| && rows[i].id == id ==> r[i].status == status
    ensures forall i :: 0 <= i < |rows| && rows[i].id != id ==> r[i] == rows[i]
    ensures forall i :: 0 <= i < |rows| ==> r[i] == rows[i].(status := r[i].status)
  {
    seq(|rows|, i requires 0 <= i < |rows| => if rows[i].id == id then rows[i].(status := status) else rows[i])
  }

  /**
   * Patching a joined list in memory gives the list a fresh join of the
   * patched rows would give: the in-place patch stands in for a re-fetch.
   */
  lemma PatchMatchesRejoin(rows: seq<OrderRow>, itemAnswers: seq<Option<seq<OrderItem>>>, id: string, status: string)
    requires |itemAnswers| == |rows|
    ensures SetStatus(JoinItems(rows, itemAnswers), id, status) == JoinItems(PatchRows(rows, id, status), itemAnswers)
  {
  }

  ghost predicate HasOrder(orders: seq<Order>, id: string) {
    exists i :: 0 <= i < |orders| && orders[i].row.id == id
  }

  /** Patching an id no order carries leaves the list exactly as it was. */
  lemma SetStatusUnknownId(orders: seq<Order>, id: string, status: string)
    requires !HasOrder(orders, id)
    ensures SetStatus(orders, id, status) == orders
  {
  }

  /** The latest patch of an order wins: an earlier patch of the same order is overwritten. */
  lemma SetStatusLastWins(orders: seq<Order>, id: string, first: string, second: string)
    ensures SetStatus(SetStatus(orders, id, first), id, second) == SetStatus(orders, id, second)
  {
  }

  /** Patches of two different orders do not interfere, whichever comes first. */
  lemma SetStatusCommutes(orders: seq<Order>, id1: string, s1: string, id2: string, s2: string)
    requires id1 != id2
    ensures SetStatus(SetStatus(orders, id1, s1), id2, s2) == SetStatus(SetStatus(orders, id2, s2), id1, s1)
  {
  }

  /** Patching an order back to the status it already has changes nothing. */
  lemma SetStatusSameValue(orders: seq<Order>, id: string, status: string)
    requires forall i :: 0 <= i < |orders| && orders[i].row.id == id ==> orders[i].row.status == status
    ensures SetStatus(orders, id, status) == orders
  {
  }
}
