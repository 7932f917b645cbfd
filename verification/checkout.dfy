/**
 * The checkout page: which screen it shows, the order row and line items it
 * builds from the cart, and the insert-order / insert-items / clear-cart
 * protocol with its failure paths.
 */
module Checkout {
  import opened Wrappers
  import opened Catalog
  import opened CartStore
  import opened CartTotals
  import opened Pricing
  import Orders

  /** The delivery form; the page marks every field `required`. */
  datatype DeliveryForm = DeliveryForm(
    firstName: string,
    lastName: string,
    email: string,
    phone: string,
    street: string,
    city: string,
    state: string,
    zipCode: string)

  /** The payment choice the page starts with (cash on delivery). */
  const DefaultPaymentMethod: string := "cod"

  /** The message shown when a failed insert carries no message of its own. */
  const FallbackFailureMessage: string := "Something went wrong. Please try again."

  /** The `orders` row the page inserts; the store assigns id and timestamp. */
  datatype NewOrder = NewOrder(
    userId: string,
    totalAmount: int,
    deliveryAddress: string,
    deliveryCity: string,
    deliveryState: string,
    deliveryZip: string,
    phone: string,
    paymentMethod: string,
    status: string)

  /** One `order_items` row the page inserts: a snapshot of the menu entry. */
  datatype NewOrderItem = NewOrderItem(
    orderId: string,
    foodId: string,
    foodName: string,
    foodImage: string,
    quantity: int,
    price: int)

  /** The page's own state: the form being filled, the payment choice, and whether a submission is in flight. */
  datatype CheckoutState = CheckoutState(form: DeliveryForm, paymentMethod: string, processing: bool)

  /**
   * The state the page starts in: every field empty except the email, which
   * is the signed-in user's email when there is one, payment on delivery,
   * and no submission in flight.
   */
  function InitialCheckoutState(userEmail: Option<string>): (st: CheckoutState)
    ensures st.paymentMethod == DefaultPaymentMethod && !st.processing
    ensures st.form.email == (if userEmail.Some? then userEmail.value else "")
    ensures st.form.firstName == st.form.lastName == st.form.phone == st.form.street
            == st.form.city == st.form.state == st.form.zipCode == ""
    ensures !FormComplete(st.form)
  {
    CheckoutState(DeliveryForm("", "", userEmail.GetOr(""), "", "", "", "", ""), DefaultPaymentMethod, false)
  }

  /** The writes the page sends to the store, in order. */
  datatype Write = InsertOrder(order: NewOrder) | InsertItems(items: seq<NewOrderItem>)

  datatype SubmitOutcome =
    | SignInRequired
    | OrderFailed(message: string)
    | OrderPlaced(orderId: string)

  /** What one submission did: the writes issued, the cart afterwards, and the outcome. */
  datatype Submission = Submission(writes: seq<Write>, cart: Cart, outcome: SubmitOutcome)

  /** What the page renders before any submission. */
  datatype CheckoutView = RedirectToCart | SignInPrompt | CheckoutForm

  /** `subtotal === 0` redirects to the cart first; a signed-out visitor sees a prompt. */
  function RenderCheckout(user: Option<string>, subtotal: int): (v: CheckoutView)
    ensures v == CheckoutForm <==> subtotal != 0 && user.Some?
    ensures v == RedirectToCart <==> subtotal == 0
  {
    if subtotal == 0 then RedirectToCart
    else if user.None? then SignInPrompt
    else CheckoutForm
  }

  /** The browser's `required` check: no field of the form is empty. */
  predicate FormComplete(form: DeliveryForm) {
    form.firstName != "" && form.lastName != "" && form.email != "" && form.phone != ""
    && form.street != "" && form.city != "" && form.state != "" && form.zipCode != ""
  }

  /** The order row for `user`: pending, priced at subtotal plus fee, addressed from the form. */
  function OrderRowFor(user: string, quote: Quote, form: DeliveryForm, paymentMethod: string): (o: NewOrder)
    ensures o.status == Orders.Pending && o.userId == user && o.paymentMethod == paymentMethod
    ensures o.totalAmount == quote.total
    ensures o.deliveryAddress == form.street && o.deliveryCity == form.city
            && o.deliveryState == form.state && o.deliveryZip == form.zipCode && o.phone == form.phone
  {
    NewOrder(user, quote.total, form.street, form.city, form.state, form.zipCode, form.phone,
             paymentMethod, Orders.Pending)
  }

  /** `cartItemsList.map(...)`: one snapshot row per cart line, all pointing at `orderId`. */
  function OrderItemsFor(orderId: string, lines: seq<CatalogItem>, cart: Cart): (items: seq<NewOrderItem>)
    ensures |items| == |lines|
    ensures forall i :: 0 <= i < |lines| ==>
              && items[i].orderId == orderId
              && items[i].foodId == lines[i].id
              && items[i].foodName == lines[i].name
              && items[i].foodImage == lines[i].image
              && items[i].price == lines[i].price
              && items[i].quantity == Qty(cart, lines[i].id)
  {
    seq(|lines|, i requires 0 <= i < |lines| =>
      NewOrderItem(orderId, lines[i].id, lines[i].name, lines[i].image, Qty(cart, lines[i].id), lines[i].price))
  }

  /** Sum of unit price times quantity over inserted line items. */
  function ItemsTotal(items: seq<NewOrderItem>): int
    decreases |items|
  {
    if |items| == 0 then 0 else items[0].price * items[0].quantity + ItemsTotal(items[1..])
  }

  /** `error.message || fallback`. */
  function FailureMessage(message: string): (m: string)
    ensures m != ""
    ensures message != "" ==> m == message
    ensures message == "" ==> m == FallbackFailureMessage
  {
    if message != "" then message else FallbackFailureMessage
  }

  /**
   * `handleSubmit`: with no user nothing is written; otherwise the order row
   * is inserted, then (only if that succeeded) its line items, and the cart is
   * cleared only when both inserts succeeded. Any store error leaves the cart
   * as it was; an items error after a successful order insert leaves that
   * order row in the store without items.
   */
  function Submit(user: Option<string>, catalog: seq<CatalogItem>, cart: Cart, form: DeliveryForm,
                  paymentMethod: string, orderInsert: DbResult<string>, itemsInsert: DbResult<()>): (s: Submission)
    ensures user.None? ==> s == Submission([], cart, SignInRequired)
    ensures user.Some? ==> 1 <= |s.writes| <= 2
                           && s.writes[0] == InsertOrder(OrderRowFor(user.value, PriceCart(catalog, cart), form, paymentMethod))
    ensures user.Some? && orderInsert.Err? ==> |s.writes| == 1 && s.outcome == OrderFailed(FailureMessage(orderInsert.message))
    ensures user.Some? && orderInsert.Ok? ==>
              |s.writes| == 2
              && s.writes[1] == InsertItems(OrderItemsFor(orderInsert.value, CartLines(catalog, cart), cart))
    ensures user.Some? && orderInsert.Ok? && itemsInsert.Err? ==>
              s.outcome == OrderFailed(FailureMessage(itemsInsert.message))
    ensures s.outcome.OrderPlaced? <==> user.Some? && orderInsert.Ok? && itemsInsert.Ok?
    ensures s.outcome.OrderPlaced? ==> s.outcome.orderId == orderInsert.value && s.cart == EmptyCart
    ensures !s.outcome.OrderPlaced? ==> s.cart == cart
  {
    match user
    case None => Submission([], cart, SignInRequired)
    case Some(uid) =>
      var orderWrite := InsertOrder(OrderRowFor(uid, PriceCart(catalog, cart), form, paymentMethod));
      match orderInsert
      case Err(msg) => Submission([orderWrite], cart, OrderFailed(FailureMessage(msg)))
      case Ok(orderId) =>
        var itemsWrite := InsertItems(OrderItemsFor(orderId, CartLines(catalog, cart), cart));
        match itemsInsert
        case Err(msg) => Submission([orderWrite, itemsWrite], cart, OrderFailed(FailureMessage(msg)))
        case Ok(_) => Submission([orderWrite, itemsWrite], ClearCart(), OrderPlaced(orderId))
  }

  /**
   * A form submission on the page: it only reaches `handleSubmit` when the
   * form is on screen and every required field is filled. None means no
   * submission happened.
   */
  function SubmitFromPage(user: Option<string>, catalog: seq<CatalogItem>, cart: Cart, form: DeliveryForm,
                          paymentMethod: string, orderInsert: DbResult<string>,
                          itemsInsert: DbResult<()>): (s: Option<Submission>)
    ensures s.Some? <==> RenderCheckout(user, CartAmount(catalog, cart)) == CheckoutForm && FormComplete(form)
    ensures s.Some? ==> s.value == Submit(user, catalog, cart, form, paymentMethod, orderInsert, itemsInsert)
    ensures s.Some? ==> s.value.outcome != SignInRequired
  {
    if RenderCheckout(user, CartAmount(catalog, cart)) == CheckoutForm && FormComplete(form) then
      Some(Submit(user, catalog, cart, form, paymentMethod, orderInsert, itemsInsert))
    else None
  }

  /** The inserted line items price out to exactly the displayed subtotal. */
  lemma {:induction false} ItemsTotalIsLinesSubtotal(orderId: string, lines: seq<CatalogItem>, cart: Cart)
    ensures ItemsTotal(OrderItemsFor(orderId, lines, cart)) == LinesSubtotal(lines, cart)
    decreases |lines|
  {
    if |lines| > 0 {
      ItemsTotalIsLinesSubtotal(orderId, lines[1..], cart);
      assert OrderItemsFor(orderId, lines, cart)[1..] == OrderItemsFor(orderId, lines[1..], cart);
    }
  }

  /**
   * With distinct menu ids (as the shipped menu has), the stored
   * `total_amount` is the sum of the stored line items plus the delivery fee,
   * and every stored quantity is positive.
   */
  lemma StoredTotalMatchesItems(user: string, catalog: seq<CatalogItem>, cart: Cart, form: DeliveryForm,
                                paymentMethod: string, orderId: string, itemsInsert: DbResult<()>)
    requires UniqueIds(catalog)
    ensures var s := Submit(Some(user), catalog, cart, form, paymentMethod, Ok(orderId), itemsInsert);
            var items := s.writes[1].items;
            && s.writes[0].order.totalAmount == ItemsTotal(items) + PriceCart(catalog, cart).fee
            && (forall i :: 0 <= i < |items| ==> items[i].quantity >= 1 && items[i].orderId == orderId)
  {
    var lines := CartLines(catalog, cart);
    ItemsTotalIsLinesSubtotal(orderId, lines, cart);
    AmountIsLinesSubtotal(catalog, cart);
    forall i | 0 <= i < |lines| ensures Qty(cart, lines[i].id) >= 1 {
      assert lines[i] in lines;
    }
  }

  /**
   * With positive prices, a submission that happens always carries a
   * non-empty cart: its order is priced above the fee and, once the order
   * row exists, at least one line item is inserted with it.
   */
  lemma SubmittedCartIsNonEmpty(user: Option<string>, catalog: seq<CatalogItem>, cart: Cart, form: DeliveryForm,
                                paymentMethod: string, orderInsert: DbResult<string>, itemsInsert: DbResult<()>)
    requires PositivePrices(catalog)
    ensures var s := SubmitFromPage(user, catalog, cart, form, paymentMethod, orderInsert, itemsInsert);
            s.Some? ==>
              && s.value.writes[0].order.totalAmount > DeliveryFee
              && (orderInsert.Ok? ==> |s.value.writes[1].items| >= 1)
  {
  }

  /** The cart is emptied by a submission exactly when the order and its items were both stored. */
  lemma CartClearedOnlyOnFullSuccess(user: Option<string>, catalog: seq<CatalogItem>, cart: Cart,
                                     form: DeliveryForm, paymentMethod: string,
                                     orderInsert: DbResult<string>, itemsInsert: DbResult<()>)
    requires cart != EmptyCart
    ensures var s := Submit(user, catalog, cart, form, paymentMethod, orderInsert, itemsInsert);
            (s.cart == EmptyCart <==> user.Some? && orderInsert.Ok? && itemsInsert.Ok?)
            && (s.cart != EmptyCart ==> s.cart == cart)
  {
  }

  /**
   * Two of an entry priced 100 and one priced 50, with the flat fee of 50:
   * the order is stored at 300 with two line items of quantities 2 and 1,
   * and the cart is empty afterwards.
   */
  lemma PlaceOrderExample(form: DeliveryForm)
    ensures var a := CatalogItem("a", "A", "", 100, "", "");
            var b := CatalogItem("b", "B", "", 50, "", "");
            var cart := map["a" := 2, "b" := 1];
            var s := Submit(Some("u"), [a, b], cart, form, DefaultPaymentMethod, Ok("o"), Ok(()));
            && s.writes[0].order.totalAmount == 300
            && s.writes[0].order.paymentMethod == "cod"
            && |s.writes[1].items| == 2
            && s.writes[1].items[0].quantity == 2 && s.writes[1].items[1].quantity == 1
            && s.cart == map[]
            && s.outcome == OrderPlaced("o")
  {
  }
}
