/** The customer's order list: fetch, push-notification patch and status display fallbacks. */
module MyOrders {
  import opened Wrappers
  import opened Orders
  import Admin

  /** How one status is drawn. */
  datatype StatusStyle = StatusStyle(icon: Icon, color: string, bg: string)

  /** `statusConfig`. */
  const StatusConfig: map<string, StatusStyle> := map[
    Delivered := StatusStyle(CheckCircle, "text-success", "bg-success/10"),
    OutForDelivery := StatusStyle(Truck, "text-primary", "bg-primary/10"),
    Preparing := StatusStyle(Clock, "text-warning", "bg-warning/10"),
    Confirmed := StatusStyle(Clock, "text-info", "bg-info/10"),
    Pending := StatusStyle(Clock, "text-muted-foreground", "bg-muted"),
    Cancelled := StatusStyle(Clock, "text-destructive", "bg-destructive/10")
  ]

  /** `statusLabels`. */
  const StatusLabels: map<string, string> := map[
    Pending := "Pending",
    Confirmed := "Confirmed",
    Preparing := "Preparing",
    OutForDelivery := "On the way",
    Delivered := "Delivered",
    Cancelled := "Cancelled"
  ]

  /** `statusConfig[status] || statusConfig.pending`. */
  function StyleFor(status: string): (st: StatusStyle)
    ensures status in StatusConfig ==> st == StatusConfig[status]
    ensures status !in StatusConfig ==> st == StatusConfig[Pending]
    ensures st in StatusConfig.Values
  {
    if status in StatusConfig then StatusConfig[status] else StatusConfig[Pending]
  }

  /** `statusLabels[status] || status`: the label, or the raw status when it has none. */
  function LabelFor(status: string): (l: string)
    ensures status in StatusLabels ==> l == StatusLabels[status] && l != ""
    ensures status !in StatusLabels ==> l == status
  {
    if status in StatusLabels && StatusLabels[status] != "" then StatusLabels[status] else status
  }

  /** The customer screen styles and labels exactly the six values the admin selector writes. */
  lemma VocabulariesAgree()
    ensures StatusConfig.Keys == StatusLabels.Keys
    ensures forall i :: 0 <= i < |Admin.StatusOptions| ==> Admin.StatusOptions[i].value in StatusConfig
    ensures forall s :: s in StatusConfig ==> Admin.IsOptionValue(s)
  {
    forall s | s in StatusConfig ensures Admin.IsOptionValue(s) {
      var i := if s == Pending then 0 else if s == Confirmed then 1 else if s == Preparing then 2
               else if s == OutForDelivery then 3 else if s == Delivered then 4 else 5;
      assert Admin.StatusOptions[i].value == s;
    }
  }

  /** The customer list state after `fetchOrders`, with the query it issued, if any. */
  datatype CustomerList = CustomerList(orders: seq<Order>, loading: bool, queriedOwner: Option<string>)

  /**
   * `fetchOrders`: with no signed-in user nothing is queried and loading ends;
   * otherwise the user's orders are queried, a store error keeps the previous
   * list, and fetched rows each get their own items or none.
   */
  function FetchOrders(user: Option<string>, current: seq<Order>, response: OrdersResponse): (s: CustomerList)
    requires WellFormedResponse(response)
    ensures !s.loading
    ensures s.queriedOwner == user
    ensures user.None? ==> s.orders == current
    ensures user.Some? && response.OrdersError? ==> s.orders == current
    ensures user.Some? && response.OrdersData? ==>
              |s.orders| == |response.rows.GetOr([])|
              && forall i :: 0 <= i < |s.orders| ==>
                   s.orders[i].row == response.rows.GetOr([])[i]
                   && s.orders[i].items == response.itemAnswers[i].GetOr([])
  {
    match user
    case None => CustomerList(current, false, None)
    case Some(_) =>
      match response
      case OrdersError(_) => CustomerList(current, false, user)
      case OrdersData(rows, answers) => CustomerList(JoinItems(rows.GetOr([]), answers), false, user)
  }

  /** The realtime channel filter: update events on `orders` rows owned by the user. */
  datatype ChannelFilter = ChannelFilter(event: string, table: string, ownerId: string)

  /** A channel is opened only for a signed-in user, scoped to that user's rows. */
  function SubscriptionFor(user: Option<string>): (c: Option<ChannelFilter>)
    ensures c.Some? <==> user.Some?
    ensures c.Some? ==> c.value.ownerId == user.value && c.value.table == "orders" && c.value.event == "UPDATE"
  {
    match user
    case None => None
    case Some(uid) => Some(ChannelFilter("UPDATE", "orders", uid))
  }

  /** The channel forwards an update of `row` exactly when the row belongs to the channel's owner. */
  predicate Delivers(c: ChannelFilter, row: OrderRow) {
    row.userId == c.ownerId
  }

  /** The channel is opened for exactly the owner whose orders the fetch queried. */
  lemma ChannelAndFetchSameOwner(user: Option<string>, current: seq<Order>, response: OrdersResponse)
    requires WellFormedResponse(response)
    ensures var s := FetchOrders(user, current, response);
            (SubscriptionFor(user).Some? <==> s.queriedOwner.Some?)
            && (SubscriptionFor(user).Some? ==> SubscriptionFor(user).value.ownerId == s.queriedOwner.value)
  {
  }

  /**
   * Every order the fetch shows, when the store honoured the owner filter of
   * the query, is one whose updates the channel forwards.
   */
  lemma FetchedOrdersAreWatched(user: string, current: seq<Order>, rows: seq<OrderRow>,
                                itemAnswers: seq<Option<seq<OrderItem>>>)
    requires |itemAnswers| == |rows|
    requires forall i :: 0 <= i < |rows| ==> rows[i].userId == user
    ensures var s := FetchOrders(Some(user), current, OrdersData(Some(rows), itemAnswers));
            forall i :: 0 <= i < |s.orders| ==> Delivers(SubscriptionFor(Some(user)).value, s.orders[i].row)
  {
  }

  /**
   * The update handler: the order whose id is the new row's id takes the new
   * row's status and nothing else from it; no re-fetch happens.
   */
  function OnOrderUpdated(orders: seq<Order>, newRow: OrderRow): (r: seq<Order>)
    ensures |r| == |orders|
    ensures forall i :: 0 <= i < |orders| && orders[i].row.id == newRow.id ==>
              r[i] == orders[i].(row := orders[i].row.(status := newRow.status))
    ensures forall i :: 0 <= i < |orders| && orders[i].row.id != newRow.id ==> r[i] == orders[i]
    ensures !HasOrder(orders, newRow.id) ==> r == orders
  {
    assert !HasOrder(orders, newRow.id) ==> SetStatus(orders, newRow.id, newRow.status) == orders by {
      if !HasOrder(orders, newRow.id) {
        SetStatusUnknownId(orders, newRow.id, newRow.status);
      }
    }
    SetStatus(orders, newRow.id, newRow.status)
  }

  /**
   * Applying a pushed row change to the fetched list gives what a re-fetch
   * of the changed rows would show, with the same items.
   */
  lemma CustomerPatchMatchesRefetch(user: string, current: seq<Order>, rows: seq<OrderRow>,
                                    itemAnswers: seq<Option<seq<OrderItem>>>, newRow: OrderRow)
    requires |itemAnswers| == |rows|
    ensures var fetched := FetchOrders(Some(user), current, OrdersData(Some(rows), itemAnswers));
            var refetched := FetchOrders(Some(user), current,
                                         OrdersData(Some(PatchRows(rows, newRow.id, newRow.status)), itemAnswers));
            OnOrderUpdated(fetched.orders, newRow) == refetched.orders
  {
    PatchMatchesRejoin(rows, itemAnswers, newRow.id, newRow.status);
  }

  /**
   * After the admin's status write for an order succeeds and the resulting
   * row change reaches the customer's channel, both screens show the same
   * status for that order, and neither re-fetched.
   */
  lemma AdminAndCustomerAgree(adminOrders: seq<Order>, customerOrders: seq<Order>,
                              storedRow: OrderRow, newStatus: string)
    ensures var u := Admin.UpdateOrderStatus(adminOrders, storedRow.id, newStatus, Ok(()));
            var c := OnOrderUpdated(customerOrders, storedRow.(status := u.write.status));
            && (forall i :: 0 <= i < |u.orders| && adminOrders[i].row.id == storedRow.id ==> u.orders[i].row.status == newStatus)
            && (forall j :: 0 <= j < |c| && customerOrders[j].row.id == storedRow.id ==> c[j].row.status == newStatus)
  {
  }
}
