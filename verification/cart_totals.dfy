/**
 * The two aggregates of the store context and the catalog-ordered view of
 * the cart that the cart and checkout pages display.
 */
module CartTotals {
  import opened Wrappers
  import opened Catalog
  import opened Sums
  import opened CartStore

  /** `a` is `b` with some entries dropped, the rest kept in order. */
  ghost predicate Subsequence<T>(a: seq<T>, b: seq<T>)
    decreases |b|
  {
    if |a| == 0 then true
    else if |b| == 0 then false
    else (a[0] == b[0] && Subsequence(a[1..], b[1..])) || Subsequence(a, b[1..])
  }

  /**
   * `foodList.filter(item => cartItems[item.id] > 0)`: the menu entries the
   * cart holds a positive quantity of, in menu order.
   */
  function CartLines(catalog: seq<CatalogItem>, cart: Cart): (r: seq<CatalogItem>)
    ensures |r| <= |catalog|
    ensures forall x :: x in r <==> x in catalog && Qty(cart, x.id) > 0
    ensures Subsequence(r, catalog)
    ensures UniqueIds(catalog) ==> UniqueIds(r)
    decreases |catalog|
  {
    if |catalog| == 0 then []
    else
      var rest := CartLines(catalog[1..], cart);
      assert forall x :: x in catalog <==> x == catalog[0] || x in catalog[1..];
      if Qty(cart, catalog[0].id) > 0 then
        var r := [catalog[0]] + rest;
        assert r[1..] == rest;
        assert UniqueIds(catalog) ==> UniqueIds(r) by {
          if UniqueIds(catalog) {
            assert UniqueIds(catalog[1..]);
            assert forall x :: x in rest ==> x.id != catalog[0].id by {
              forall x | x in rest ensures x.id != catalog[0].id {
                var i :| 0 <= i < |catalog[1..]| && catalog[1..][i] == x;
                assert catalog[i + 1] == x;
              }
            }
            assert forall i :: 1 <= i < |r| ==> r[i] in rest;
          }
        }
        r
      else
        assert UniqueIds(catalog) ==> UniqueIds(catalog[1..]);
        rest
  }

  /** `item.price * cartItems[item.id]`: the line total shown for one entry. */
  function LineTotal(item: CatalogItem, cart: Cart): int {
    item.price * Qty(cart, item.id)
  }

  /** Sum of the line totals of `lines`. */
  function LinesSubtotal(lines: seq<CatalogItem>, cart: Cart): int
    decreases |lines|
  {
    if |lines| == 0 then 0 else LineTotal(lines[0], cart) + LinesSubtotal(lines[1..], cart)
  }

  /** The sum of the line totals of the cart lines, as the pages list them. */
  function LinesAmount(catalog: seq<CatalogItem>, cart: Cart): int {
    LinesSubtotal(CartLines(catalog, cart), cart)
  }

  /**
   * The amount `getTotalCartAmount` computes, taken entry by entry through the
   * menu: an entry counts its line total when its id holds a positive
   * quantity, and its id is then dropped so that a later entry with the same
   * id counts nothing (the store resolves every id to its first entry).
   * This is the subtotal both pages display.
   */
  function CartAmount(catalog: seq<CatalogItem>, cart: Cart): int
    decreases |catalog|
  {
    if |catalog| == 0 then 0
    else HeadAmount(catalog, cart) + CartAmount(catalog[1..], cart - {catalog[0].id})
  }

  /**
   * What key `id` adds to `getTotalCartAmount`: price times quantity when the
   * quantity is positive and the id resolves in the menu, 0 otherwise.
   */
  function Contribution(catalog: seq<CatalogItem>, cart: Cart, id: string): int
    requires id in cart
  {
    if cart[id] > 0 then
      match Find(catalog, id)
      case Some(item) => item.price * cart[id]
      case None => 0
    else 0
  }

  function Contributions(catalog: seq<CatalogItem>, cart: Cart): map<string, int> {
    map id | id in cart :: Contribution(catalog, cart, id)
  }

  /**
   * `getTotalCartItems()`: walks the keys in whatever order the map yields
   * them and adds up every stored quantity.
   */
  method GetTotalCartItems(cart: Cart) returns (total: int)
    ensures total == MapSum(cart)
    ensures ValidCart(cart) ==> total >= |cart|
    ensures ValidCart(cart) ==> (total == 0 <==> cart == map[])
  {
    total := 0;
    var rest := cart;
    while rest != map[]
      invariant forall k :: k in rest ==> k in cart && rest[k] == cart[k]
      invariant total + MapSum(rest) == MapSum(cart)
      decreases |rest|
    {
      var id :| id in rest;
      MapSumRemove(rest, id);
      total := total + cart[id];
      rest := rest - {id};
    }
    if ValidCart(cart) {
      MapSumPositive(cart);
    }
  }

  /**
   * `getTotalCartAmount()`: walks the keys in whatever order the map yields
   * them, skipping non-positive quantities and ids the menu does not know.
   * With distinct menu ids this is the sum of the displayed line totals.
   */
  method GetTotalCartAmount(catalog: seq<CatalogItem>, cart: Cart) returns (total: int)
    ensures total == MapSum(Contributions(catalog, cart))
    ensures total == CartAmount(catalog, cart)
    ensures UniqueIds(catalog) ==> total == LinesAmount(catalog, cart)
  {
    total := 0;
    var rest := cart;
    while rest != map[]
      invariant forall k :: k in rest ==> k in cart && rest[k] == cart[k]
      invariant total + MapSum(Contributions(catalog, rest)) == MapSum(Contributions(catalog, cart))
      decreases |rest|
    {
      var id :| id in rest;
      var before := Contributions(catalog, rest);
      MapSumRemove(before, id);
      assert before - {id} == Contributions(catalog, rest - {id});
      if cart[id] > 0 {
        match Find(catalog, id)
        case Some(item) =>
          total := total + item.price * cart[id];
        case None =>
      }
      rest := rest - {id};
    }
    assert Contributions(catalog, rest) == map[];
    ContributionsSumIsCartAmount(catalog, cart);
    if UniqueIds(catalog) {
      AmountIsLinesSubtotal(catalog, cart);
    }
  }

  /** What the first menu entry adds when it is in the cart. */
  function HeadAmount(catalog: seq<CatalogItem>, cart: Cart): int
    requires |catalog| > 0
  {
    if Qty(cart, catalog[0].id) > 0 then LineTotal(catalog[0], cart) else 0
  }

  /** The first menu entry adds its line total (when in the cart) in front of the rest. */
  lemma LinesAmountCons(catalog: seq<CatalogItem>, cart: Cart)
    requires |catalog| > 0
    ensures LinesAmount(catalog, cart) == HeadAmount(catalog, cart) + LinesAmount(catalog[1..], cart)
  {
    var lines := CartLines(catalog, cart);
    if Qty(cart, catalog[0].id) > 0 {
      assert lines[1..] == CartLines(catalog[1..], cart);
    }
  }

  /** The view-side empty test agrees with the stored quantities: no lines iff no positive known entry. */
  lemma LinesEmptyIff(catalog: seq<CatalogItem>, cart: Cart)
    ensures CartLines(catalog, cart) == [] <==> forall i :: 0 <= i < |catalog| ==> Qty(cart, catalog[i].id) <= 0
  {
  }

  /**
   * `filter` keeps every copy of a kept entry: each entry occurs in the cart
   * lines as often as in the menu when its quantity is positive, else never.
   */
  lemma {:induction false} CartLinesMultiplicity(catalog: seq<CatalogItem>, cart: Cart, x: CatalogItem)
    ensures multiset(CartLines(catalog, cart))[x] == if Qty(cart, x.id) > 0 then multiset(catalog)[x] else 0
    decreases |catalog|
  {
    if |catalog| > 0 {
      CartLinesMultiplicity(catalog[1..], cart, x);
      assert catalog == [catalog[0]] + catalog[1..];
      assert multiset(catalog) == multiset{catalog[0]} + multiset(catalog[1..]);
      var rest := CartLines(catalog[1..], cart);
      if Qty(cart, catalog[0].id) > 0 {
        assert CartLines(catalog, cart) == [catalog[0]] + rest;
        assert multiset([catalog[0]] + rest) == multiset{catalog[0]} + multiset(rest);
      }
    }
  }

  /** A key other than the first entry's id contributes the same once that id is dropped from menu and cart. */
  lemma ContributionAfterDrop(catalog: seq<CatalogItem>, cart: Cart, k: string)
    requires |catalog| > 0 && k in cart && k != catalog[0].id
    ensures k in cart - {catalog[0].id}
    ensures Contribution(catalog, cart, k) == Contribution(catalog[1..], cart - {catalog[0].id}, k)
  {
    assert Find(catalog, k) == Find(catalog[1..], k);
  }

  /** Dropping the first entry's id from menu and cart removes exactly that key from the contributions. */
  lemma ContributionsDropKeys(catalog: seq<CatalogItem>, cart: Cart)
    requires |catalog| > 0
    ensures Contributions(catalog[1..], cart - {catalog[0].id}).Keys == cart.Keys - {catalog[0].id}
    ensures forall k | k in cart && k != catalog[0].id ::
              Contributions(catalog, cart)[k] == Contributions(catalog[1..], cart - {catalog[0].id})[k]
  {
    forall k | k in cart && k != catalog[0].id
      ensures Contributions(catalog, cart)[k] == Contributions(catalog[1..], cart - {catalog[0].id})[k]
    {
      ContributionAfterDrop(catalog, cart, k);
    }
  }

  /** When the cart does not hold the first entry's id, dropping it changes nothing. */
  lemma ContributionsDropAbsent(catalog: seq<CatalogItem>, cart: Cart)
    requires |catalog| > 0 && catalog[0].id !in cart
    ensures Contributions(catalog, cart) == Contributions(catalog[1..], cart - {catalog[0].id})
  {
    ContributionsDropKeys(catalog, cart);
  }

  /** When the cart holds the first entry's id, that key contributes the head amount on top of the rest. */
  lemma ContributionsDropPresent(catalog: seq<CatalogItem>, cart: Cart)
    requires |catalog| > 0 && catalog[0].id in cart
    ensures catalog[0].id !in Contributions(catalog[1..], cart - {catalog[0].id})
    ensures Contributions(catalog, cart)
            == Contributions(catalog[1..], cart - {catalog[0].id})[catalog[0].id := HeadAmount(catalog, cart)]
  {
    ContributionsDropKeys(catalog, cart);
    var x := catalog[0];
    var whole := Contributions(catalog, cart);
    var updated := Contributions(catalog[1..], cart - {x.id})[x.id := HeadAmount(catalog, cart)];
    assert whole[x.id] == updated[x.id] by {
      assert Find(catalog, x.id) == Some(x);
    }
  }

  /**
   * For any menu, even one repeating an id, summing the cart key by key
   * gives the entry-by-entry amount.
   */
  lemma {:induction false} ContributionsSumIsCartAmount(catalog: seq<CatalogItem>, cart: Cart)
    ensures MapSum(Contributions(catalog, cart)) == CartAmount(catalog, cart)
    decreases |catalog|
  {
    if |catalog| == 0 {
      MapSumZero(Contributions(catalog, cart));
    } else {
      var x := catalog[0];
      var smaller := cart - {x.id};
      ContributionsSumIsCartAmount(catalog[1..], smaller);
      if x.id in cart {
        ContributionsDropPresent(catalog, cart);
        MapSumUpdate(Contributions(catalog[1..], smaller), x.id, HeadAmount(catalog, cart));
      } else {
        ContributionsDropAbsent(catalog, cart);
      }
    }
  }

  /** Dropping an id the menu does not carry leaves the line amount unchanged. */
  lemma {:induction false} LinesAmountIgnoresAbsentId(catalog: seq<CatalogItem>, cart: Cart, k: string)
    requires !HasId(catalog, k)
    ensures LinesAmount(catalog, cart - {k}) == LinesAmount(catalog, cart)
    decreases |catalog|
  {
    if |catalog| > 0 {
      assert catalog[0].id != k;
      assert !HasId(catalog[1..], k) by {
        forall i | 0 <= i < |catalog[1..]| ensures catalog[1..][i].id != k {
          assert catalog[1..][i] == catalog[i + 1];
        }
      }
      LinesAmountIgnoresAbsentId(catalog[1..], cart, k);
      LinesAmountCons(catalog, cart);
      LinesAmountCons(catalog, cart - {k});
    }
  }

  /**
   * With distinct menu ids, the amount `getTotalCartAmount` computes equals
   * the sum of the line totals the pages list.
   */
  lemma {:induction false} AmountIsLinesSubtotal(catalog: seq<CatalogItem>, cart: Cart)
    requires UniqueIds(catalog)
    ensures CartAmount(catalog, cart) == LinesAmount(catalog, cart)
    decreases |catalog|
  {
    if |catalog| > 0 {
      var x := catalog[0];
      var rest := catalog[1..];
      assert UniqueIds(rest);
      forall i | 0 <= i < |rest|
        ensures rest[i].id != x.id
      {
        assert rest[i] == catalog[i + 1];
      }
      AmountIsLinesSubtotal(rest, cart - {x.id});
      LinesAmountIgnoresAbsentId(rest, cart, x.id);
      LinesAmountCons(catalog, cart);
    }
  }

  /** With positive prices the amount is 0 exactly when no menu entry has a positive quantity. */
  lemma {:induction false} CartAmountZeroIff(catalog: seq<CatalogItem>, cart: Cart)
    requires PositivePrices(catalog)
    ensures CartAmount(catalog, cart) >= 0
    ensures CartAmount(catalog, cart) == 0 <==> forall i :: 0 <= i < |catalog| ==> Qty(cart, catalog[i].id) <= 0
    decreases |catalog|
  {
    if |catalog| > 0 {
      var x := catalog[0];
      var rest := catalog[1..];
      var smaller := cart - {x.id};
      assert PositivePrices(rest);
      CartAmountZeroIff(rest, smaller);
      if Qty(cart, x.id) <= 0 {
        forall i | 0 <= i < |rest|
          ensures Qty(smaller, rest[i].id) <= 0 <==> Qty(cart, rest[i].id) <= 0
        {
        }
        assert (forall i :: 0 <= i < |catalog| ==> Qty(cart, catalog[i].id) <= 0)
           <==> (forall i :: 0 <= i < |rest| ==> Qty(cart, rest[i].id) <= 0) by {
          forall i | 1 <= i < |catalog| ensures catalog[i] == rest[i - 1] {
          }
        }
      } else {
        assert HeadAmount(catalog, cart) > 0;
      }
    }
  }

  /**
   * With positive prices, the displayed subtotal is never negative and is 0
   * exactly when there are no cart lines, for any menu.
   */
  lemma SubtotalZeroIff(catalog: seq<CatalogItem>, cart: Cart)
    requires PositivePrices(catalog)
    ensures CartAmount(catalog, cart) >= 0
    ensures CartAmount(catalog, cart) == 0 <==> CartLines(catalog, cart) == []
  {
    CartAmountZeroIff(catalog, cart);
    LinesEmptyIff(catalog, cart);
  }
}
