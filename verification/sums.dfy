/**
 * Order-independent sums over the values of a finite map, the meaning of a
 * JavaScript `for (const k in obj) total += ...` loop whatever the key
 * enumeration order is.
 */
module Sums {

  /** Some key of a non-empty map. */
  ghost function Pick(m: map<string, int>): (k: string)
    requires m != map[]
    ensures k in m
  {
    assert exists k :: k in m.Keys by {
      assert m.Keys != {};
    }
    var k :| k in m.Keys; k
  }

  /** The sum of all values of `m`. */
  ghost function MapSum(m: map<string, int>): int
    decreases |m|
  {
    if m == map[] then 0
    else
      var k := Pick(m);
      m[k] + MapSum(m - {k})
  }

  /** Any key may be taken out first: the sum does not depend on the order. */
  lemma {:induction false} MapSumRemove(m: map<string, int>, k: string)
    requires k in m
    ensures MapSum(m) == m[k] + MapSum(m - {k})
    decreases |m|
  {
    var p := Pick(m);
    if p != k {
      var mp := m - {p};
      var mk := m - {k};
      assert k in mp && p in mk;
      MapSumRemove(mp, k);
      MapSumRemove(mk, p);
      assert mp - {k} == mk - {p};
    }
  }

  /** A map whose values are all positive sums to at least its size, and to 0 only when empty. */
  lemma {:induction false} MapSumPositive(m: map<string, int>)
    requires forall k :: k in m ==> m[k] > 0
    ensures MapSum(m) >= |m|
    ensures MapSum(m) == 0 <==> m == map[]
    decreases |m|
  {
    if m != map[] {
      var k := Pick(m);
      MapSumPositive(m - {k});
    }
  }

  /** Two maps that differ only at key `k` have sums that differ only by their values at `k`. */
  lemma MapSumUpdate(m: map<string, int>, k: string, v: int)
    ensures MapSum(m[k := v]) == MapSum(m) - (if k in m then m[k] else 0) + v
  {
    var m' := m[k := v];
    MapSumRemove(m', k);
    assert m' - {k} == m - {k};
    if k in m {
      MapSumRemove(m, k);
    } else {
      assert m - {k} == m;
    }
  }

  /** A map whose values are all 0 sums to 0. */
  lemma {:induction false} MapSumZero(m: map<string, int>)
    requires forall k :: k in m ==> m[k] == 0
    ensures MapSum(m) == 0
    decreases |m|
  {
    if m != map[] {
      MapSumZero(m - {Pick(m)});
    }
  }
}
