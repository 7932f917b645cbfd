/** The admin dashboard: status vocabulary, badge lookup, status updates and the order list fetch. */
module Admin {
  import opened Wrappers
  import opened Orders

  /** One choice of the status selector. */
  datatype StatusOption = StatusOption(value: string, caption: string, icon: Icon, color: string)

  /** `statusOptions`: the six values the selector offers, pending first. */
  const StatusOptions: seq<StatusOption> := [
    StatusOption(Pending, "Pending", Clock, "bg-yellow-500"),
    StatusOption(Confirmed, "Confirmed", CheckCircle, "bg-blue-500"),
    StatusOption(Preparing, "Preparing", Package, "bg-orange-500"),
    StatusOption(OutForDelivery, "Out for Delivery", Truck, "bg-purple-500"),
    StatusOption(Delivered, "Delivered", CheckCircle, "bg-green-500"),
    StatusOption(Cancelled, "Cancelled", XCircle, "bg-red-500")
  ]

  ghost predicate IsOptionValue(status: string) {
    exists i :: 0 <= i < |StatusOptions| && StatusOptions[i].value == status
  }

  /** The selector offers six distinct values and its first is "pending". */
  lemma StatusOptionsWellFormed()
    ensures |StatusOptions| == 6
    ensures forall i, j :: 0 <= i < j < |StatusOptions| ==> StatusOptions[i].value != StatusOptions[j].value
    ensures StatusOptions[0].value == Pending
  {
  }

  /** The first option whose value is `status`, if any. */
  function FindOption(options: seq<StatusOption>, status: string): (r: Option<StatusOption>)
    ensures r.Some? ==> r.value in options && r.value.value == status
    ensures r.None? ==> forall i :: 0 <= i < |options| ==> options[i].value != status
  {
    if |options| == 0 then None
    else if options[0].value == status then Some(options[0])
    else FindOption(options[1..], status)
  }

  /**
   * `getStatusBadge`: the option for a known status, and the first option
   * ("pending") for any other string.
   */
  function StatusBadge(status: string): (o: StatusOption)
    ensures o in StatusOptions
    ensures IsOptionValue(status) ==> o.value == status
    ensures !IsOptionValue(status) ==> o == StatusOptions[0] && o.value == Pending
  {
    FindOption(StatusOptions, status).GetOr(StatusOptions[0])
  }

  /** `order.status || 'pending'`: the status the badge and the selector show. */
  function ShownStatus(status: string): (s: string)
    ensures s != ""
    ensures status != "" ==> s == status
    ensures status == "" ==> s == Pending
  {
    if status == "" then Pending else status
  }

  /** A missing status is displayed and selected as pending. */
  lemma MissingStatusShowsPending(order: Order)
    requires order.row.status == ""
    ensures StatusBadge(ShownStatus(order.row.status)).value == Pending
    ensures ShownStatus(order.row.status) == Pending
  {
  }

  /** The single write `updateOrderStatus` sends: set this order's status. */
  datatype StatusWrite = StatusWrite(orderId: string, status: string)

  datatype Notice = StatusUpdated(status: string) | UpdateFailed

  /** The result of one status change: what was written, the local list afterwards, the toast. */
  datatype StatusUpdate = StatusUpdate(write: StatusWrite, orders: seq<Order>, notice: Notice)

  /**
   * `updateOrderStatus(orderId, newStatus)`: the write goes out whatever the
   * order's current status is; the local list is patched only when the store
   * reports success.
   */
  function UpdateOrderStatus(orders: seq<Order>, orderId: string, newStatus: string,
                             response: DbResult<()>): (u: StatusUpdate)
    ensures u.write == StatusWrite(orderId, newStatus)
    ensures response.Err? ==> u.orders == orders && u.notice == UpdateFailed
    ensures response.Ok? ==> u.notice == StatusUpdated(newStatus)
    ensures response.Ok? ==> |u.orders| == |orders|
                             && (forall i :: 0 <= i < |orders| && orders[i].row.id == orderId ==>
                                   u.orders[i] == orders[i].(row := orders[i].row.(status := newStatus)))
                             && (forall i :: 0 <= i < |orders| && orders[i].row.id != orderId ==>
                                   u.orders[i] == orders[i])
  {
    var write := StatusWrite(orderId, newStatus);
    match response
    case Err(_) => StatusUpdate(write, orders, UpdateFailed)
    case Ok(_) => StatusUpdate(write, SetStatus(orders, orderId, newStatus), StatusUpdated(newStatus))
  }

  /** No transition rule: from any current status, any target status is written and shown. */
  lemma AnyTransitionAccepted(orders: seq<Order>, i: nat, newStatus: string)
    requires i < |orders|
    ensures var u := UpdateOrderStatus(orders, orders[i].row.id, newStatus, Ok(()));
            u.orders[i].row.status == newStatus && u.write.status == newStatus
  {
  }

  /** The dashboard's list state after `fetchOrders`. */
  datatype AdminList = AdminList(orders: seq<Order>, loading: bool, errorShown: bool)

  /**
   * `fetchOrders`: on a store error the previous list stays and an error is
   * shown; otherwise the list becomes the fetched rows, in the order fetched,
   * each with its own items. Loading ends either way.
   */
  function FetchAllOrders(current: seq<Order>, response: OrdersResponse): (s: AdminList)
    requires WellFormedResponse(response)
    ensures !s.loading
    ensures response.OrdersError? ==> s.orders == current && s.errorShown
    ensures response.OrdersData? ==>
              !s.errorShown
              && |s.orders| == |response.rows.GetOr([])|
              && forall i :: 0 <= i < |s.orders| ==>
                   s.orders[i].row == response.rows.GetOr([])[i]
                   && s.orders[i].items == response.itemAnswers[i].GetOr([])
  {
    match response
    case OrdersError(_) => AdminList(current, false, true)
    case OrdersData(rows, answers) => AdminList(JoinItems(rows.GetOr([]), answers), false, false)
  }

  /**
   * The local patch after a successful write leaves the dashboard showing
   * what a re-fetch of the written rows would show, with the same items.
   */
  lemma AdminPatchMatchesRefetch(current: seq<Order>, rows: seq<OrderRow>,
                                 itemAnswers: seq<Option<seq<OrderItem>>>, orderId: string, newStatus: string)
    requires |itemAnswers| == |rows|
    ensures var fetched := FetchAllOrders(current, OrdersData(Some(rows), itemAnswers));
            var refetched := FetchAllOrders(current, OrdersData(Some(PatchRows(rows, orderId, newStatus)), itemAnswers));
            UpdateOrderStatus(fetched.orders, orderId, newStatus, Ok(())).orders == refetched.orders
  {
    PatchMatchesRejoin(rows, itemAnswers, orderId, newStatus);
  }
}
