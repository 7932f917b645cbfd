/** The flat delivery-fee rule shared by the cart page and the checkout page. */
module Pricing {
  import opened Catalog
  import opened CartStore
  import opened CartTotals

  /** The flat delivery charge, in whole currency units. */
  const DeliveryFee: int := 50

  /** The three amounts both pages display. */
  datatype Quote = Quote(subtotal: int, fee: int, total: int)

  /** `deliveryFee = subtotal > 0 ? 50 : 0` and `total = subtotal + deliveryFee`. */
  function PriceCart(catalog: seq<CatalogItem>, cart: Cart): (q: Quote)
    ensures q.subtotal == CartAmount(catalog, cart)
    ensures q.fee == DeliveryFee <==> q.subtotal > 0
    ensures q.fee == 0 <==> q.subtotal <= 0
    ensures q.total == q.subtotal + q.fee
    ensures PositivePrices(catalog) ==> (q.fee == 0 <==> CartLines(catalog, cart) == [])
    ensures PositivePrices(catalog) ==> (q.total == 0 <==> CartLines(catalog, cart) == [])
  {
    var subtotal := CartAmount(catalog, cart);
    assert PositivePrices(catalog) ==> (subtotal >= 0 && (subtotal == 0 <==> CartLines(catalog, cart) == [])) by {
      if PositivePrices(catalog) {
        SubtotalZeroIff(catalog, cart);
      }
    }
    Quote(subtotal, if subtotal > 0 then DeliveryFee else 0,
          subtotal + (if subtotal > 0 then DeliveryFee else 0))
  }
}
