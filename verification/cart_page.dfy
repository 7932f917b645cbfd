/** The cart page: its line rows, its empty state and its three buttons. */
module CartPage {
  import opened Catalog
  import opened CartStore
  import opened CartTotals
  import opened Pricing

  /** One displayed row: the entry, its quantity and `item.price * cartItems[item.id]`. */
  datatype CartRow = CartRow(item: CatalogItem, quantity: int, lineTotal: int)

  datatype CartView =
    | EmptyCartView
    | CartListView(rows: seq<CartRow>, headerCount: nat, quote: Quote)

  function Rows(lines: seq<CatalogItem>, cart: Cart): (rows: seq<CartRow>)
    ensures |rows| == |lines|
    ensures forall i :: 0 <= i < |lines| ==>
              rows[i].item == lines[i] && rows[i].quantity == Qty(cart, lines[i].id)
              && rows[i].lineTotal == lines[i].price * rows[i].quantity
  {
    seq(|lines|, i requires 0 <= i < |lines| => CartRow(lines[i], Qty(cart, lines[i].id), LineTotal(lines[i], cart)))
  }

  /**
   * What the cart page renders: the empty state when no menu entry has a
   * positive quantity, otherwise one row per such entry in menu order and a
   * header counting distinct entries.
   */
  function RenderCart(catalog: seq<CatalogItem>, cart: Cart): (v: CartView)
    ensures v.EmptyCartView? <==> forall i :: 0 <= i < |catalog| ==> Qty(cart, catalog[i].id) <= 0
    ensures v.CartListView? ==>
              && |v.rows| == v.headerCount == |CartLines(catalog, cart)|
              && (forall i :: 0 <= i < |v.rows| ==>
                    v.rows[i].item == CartLines(catalog, cart)[i]
                    && v.rows[i].quantity == Qty(cart, v.rows[i].item.id)
                    && v.rows[i].item in catalog && v.rows[i].quantity > 0
                    && v.rows[i].lineTotal == v.rows[i].item.price * v.rows[i].quantity)
              && v.quote == PriceCart(catalog, cart)
  {
    var lines := CartLines(catalog, cart);
    LinesEmptyIff(catalog, cart);
    if |lines| == 0 then EmptyCartView
    else
      var rows := Rows(lines, cart);
      assert forall i :: 0 <= i < |rows| ==> rows[i].item == lines[i] && lines[i] in lines;
      CartListView(rows, |lines|, PriceCart(catalog, cart))
  }

  /** The total quantity over the displayed lines. */
  function LinesQuantity(lines: seq<CatalogItem>, cart: Cart): int
    decreases |lines|
  {
    if |lines| == 0 then 0 else Qty(cart, lines[0].id) + LinesQuantity(lines[1..], cart)
  }

  /** The header counts distinct entries, never more than their total quantity. */
  lemma {:induction false} HeaderCountsDistinctItems(catalog: seq<CatalogItem>, cart: Cart)
    ensures |CartLines(catalog, cart)| <= LinesQuantity(CartLines(catalog, cart), cart)
  {
    var lines := CartLines(catalog, cart);
    forall i | 0 <= i < |lines|
      ensures Qty(cart, lines[i].id) >= 1
    {
      assert lines[i] in lines;
    }
    QuantityAtLeastCount(lines, cart);
  }

  lemma {:induction false} QuantityAtLeastCount(lines: seq<CatalogItem>, cart: Cart)
    requires forall i :: 0 <= i < |lines| ==> Qty(cart, lines[i].id) >= 1
    ensures |lines| <= LinesQuantity(lines, cart)
    decreases |lines|
  {
    if |lines| > 0 {
      QuantityAtLeastCount(lines[1..], cart);
    }
  }

  /** The "-" and "+" buttons of one row. */
  datatype StepButton = Minus | Plus

  /** Each button applies exactly one `removeFromCart` or `addToCart` to its row's id. */
  function OnStepClick(cart: Cart, id: string, button: StepButton): (r: Cart)
    ensures button == Plus ==> Qty(r, id) == Qty(cart, id) + 1
    ensures button == Minus ==> Qty(r, id) == (if Qty(cart, id) > 1 then Qty(cart, id) - 1 else 0)
    ensures button == Minus ==> (id in r <==> Qty(cart, id) > 1)
    ensures SameExcept(r, cart, id)
    ensures ValidCart(cart) ==> ValidCart(r)
  {
    match button
    case Plus => AddToCart(cart, id)
    case Minus => RemoveFromCart(cart, id)
  }

  /**
   * The trash button: it reads the quantity `q` shown when the page was
   * rendered and issues `removeFromCart(id)` `q` times, each applied to the
   * result of the one before. The key ends up deleted and nothing else moves.
   */
  method OnTrashClick(cart: Cart, id: string) returns (r: Cart)
    ensures r == RemoveTimes(cart, id, if Qty(cart, id) > 0 then Qty(cart, id) else 0)
    ensures Qty(cart, id) >= 1 ==> r == cart - {id}
    ensures Qty(cart, id) <= 0 ==> r == cart
    ensures ValidCart(cart) ==> r == cart - {id}
  {
    var q := Qty(cart, id);
    r := cart;
    var i := 0;
    while i < q
      invariant 0 <= i && (q > 0 ==> i <= q)
      invariant i < q ==> r == cart[id := q - i]
      invariant q > 0 && i == q ==> r == cart - {id}
      invariant q <= 0 ==> r == cart
    {
      r := RemoveFromCart(r, id);
      i := i + 1;
    }
    if q > 0 {
      RemoveTimesQty(cart, id, q);
      assert RemoveTimes(cart, id, q) == cart - {id};
    } else {
      assert RemoveTimes(cart, id, 0) == cart;
    }
  }
}
