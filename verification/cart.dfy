/**
 * The session cart of the store context: a map from menu item id to
 * quantity, changed only by one-step increments and decrements.
 */
module CartStore {
  /** `cartItems`: item id to quantity; a missing key means "none". */
  type Cart = map<string, int>

  /** The cart every session starts with (`useState<CartItem>({})`). */
  const EmptyCart: Cart := map[]

  /** `cartItems[id] || 0`: the quantity of `id`, with a missing key read as 0. */
  function Qty(cart: Cart, id: string): int {
    if id in cart then cart[id] else 0
  }

  /** The cart invariant: no key is stored with a zero or negative quantity. */
  ghost predicate ValidCart(cart: Cart) {
    forall id :: id in cart ==> cart[id] >= 1
  }

  /** Every key other than `id` holds the same quantity in both carts. */
  ghost predicate SameExcept(a: Cart, b: Cart, id: string) {
    forall k :: k != id ==> (k in a <==> k in b) && (k in a ==> a[k] == b[k])
  }

  /** `addToCart(id)`: one more of `id`, starting from 0 when absent. */
  function AddToCart(cart: Cart, id: string): (r: Cart)
    ensures id in r && r[id] == Qty(cart, id) + 1
    ensures SameExcept(r, cart, id)
    ensures ValidCart(cart) ==> ValidCart(r)
  {
    cart[id := Qty(cart, id) + 1]
  }

  /**
   * `removeFromCart(id)`: one fewer of `id`; a quantity that would drop to 0
   * (or an absent key) leaves no key behind rather than storing 0.
   */
  function RemoveFromCart(cart: Cart, id: string): (r: Cart)
    ensures Qty(cart, id) > 1 ==> id in r && r[id] == cart[id] - 1
    ensures Qty(cart, id) <= 1 ==> id !in r
    ensures id !in cart ==> r == cart
    ensures SameExcept(r, cart, id)
    ensures ValidCart(cart) ==> ValidCart(r)
  {
    if id in cart && cart[id] > 1 then cart[id := cart[id] - 1]
    else cart - {id}
  }

  /** `clearCart()`: afterwards no item has a quantity and the invariant holds. */
  function ClearCart(): (r: Cart)
    ensures ValidCart(r)
    ensures forall id :: Qty(r, id) == 0
    ensures |r| == 0
  {
    EmptyCart
  }

  /**
   * The cart effect of `signOut()`: once the identity provider's sign-out
   * call has returned, the cart is emptied exactly as `clearCart` does.
   */
  function SignOut(): (r: Cart)
    ensures r == ClearCart()
  {
    map[]
  }

  /** A user action on the cart. */
  datatype CartOp = Add(id: string) | Remove(id: string)

  function Step(cart: Cart, op: CartOp): Cart {
    match op
    case Add(id) => AddToCart(cart, id)
    case Remove(id) => RemoveFromCart(cart, id)
  }

  /** The cart after applying `ops` in order. */
  function Replay(cart: Cart, ops: seq<CartOp>): Cart
    decreases |ops|
  {
    if |ops| == 0 then cart else Replay(Step(cart, ops[0]), ops[1..])
  }

  /** Any sequence of adds and removes keeps the invariant. */
  lemma {:induction false} ReplayKeepsValid(cart: Cart, ops: seq<CartOp>)
    requires ValidCart(cart)
    ensures ValidCart(Replay(cart, ops))
    decreases |ops|
  {
    if |ops| > 0 {
      ReplayKeepsValid(Step(cart, ops[0]), ops[1..]);
    }
  }

  /** From the initial empty cart, no reachable cart stores a quantity below 1. */
  lemma ReachableCartsValid(ops: seq<CartOp>)
    ensures ValidCart(Replay(EmptyCart, ops))
  {
    ReplayKeepsValid(EmptyCart, ops);
  }

  /** Adding one of `id` and then removing one gives back exactly the original cart. */
  lemma AddThenRemove(cart: Cart, id: string)
    requires id in cart ==> cart[id] >= 1
    ensures RemoveFromCart(AddToCart(cart, id), id) == cart
  {
  }

  /** Removing one of a present `id` and adding it back gives back exactly the original cart. */
  lemma RemoveThenAdd(cart: Cart, id: string)
    requires id in cart && cart[id] >= 1
    ensures AddToCart(RemoveFromCart(cart, id), id) == cart
  {
  }

  /** `removeFromCart(id)` applied `n` times. */
  function RemoveTimes(cart: Cart, id: string, n: nat): Cart
    decreases n
  {
    if n == 0 then cart else RemoveTimes(RemoveFromCart(cart, id), id, n - 1)
  }

  /** `addToCart(id)` applied `n` times. */
  function AddTimes(cart: Cart, id: string, n: nat): Cart
    decreases n
  {
    if n == 0 then cart else AddTimes(AddToCart(cart, id), id, n - 1)
  }

  /** `n` adds raise the quantity of `id` by `n` and touch nothing else. */
  lemma {:induction false} AddTimesQty(cart: Cart, id: string, n: nat)
    requires n > 0
    ensures AddTimes(cart, id, n) == cart[id := Qty(cart, id) + n]
    decreases n
  {
    if n > 1 {
      AddTimesQty(AddToCart(cart, id), id, n - 1);
    }
  }

  /**
   * `n` removes of a key holding `q` leave `q - n` when `n < q`, and delete
   * the key when `n >= q`; other keys are untouched.
   */
  lemma {:induction false} RemoveTimesQty(cart: Cart, id: string, n: nat)
    requires id in cart ==> cart[id] >= 1
    ensures n < Qty(cart, id) ==> RemoveTimes(cart, id, n) == cart[id := cart[id] - n]
    ensures n >= Qty(cart, id) ==> RemoveTimes(cart, id, n) == cart - {id}
    decreases n
  {
    if n == 0 {
      if Qty(cart, id) <= 0 {
        assert cart - {id} == cart;
      }
    } else {
      var next := RemoveFromCart(cart, id);
      RemoveTimesQty(next, id, n - 1);
      if n < Qty(cart, id) {
        assert next == cart[id := cart[id] - 1];
        assert next[id := next[id] - (n - 1)] == cart[id := cart[id] - n];
      } else {
        assert next - {id} == cart - {id};
      }
    }
  }

  /** Adding `n` of an item and then removing `n` of it restores the cart exactly. */
  lemma AddRemoveRoundTrip(cart: Cart, id: string, n: nat)
    requires id in cart ==> cart[id] >= 1
    ensures RemoveTimes(AddTimes(cart, id, n), id, n) == cart
  {
    if n > 0 {
      AddTimesQty(cart, id, n);
      var up := AddTimes(cart, id, n);
      RemoveTimesQty(up, id, n);
      if id in cart {
        assert up[id := up[id] - n] == cart;
      } else {
        assert up - {id} == cart;
      }
    }
  }
}
