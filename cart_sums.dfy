/** The two sums the cart reports, `__len__` and `get_total_price`: computed
    over the dictionary's values in their order, and specified by a sum over
    the mapping alone. */
module CartSums {
  import opened CartItems

  /** `sum(f(item) for item in d.values())`, walking the keys in order. */
  function Sum(order: seq<ProductId>, items: map<ProductId, LineItem>, f: LineItem -> int): int
    requires forall i :: 0 <= i < |order| ==> order[i] in items
    decreases |order|
  {
    if order == [] then 0 else f(items[order[0]]) + Sum(order[1..], items, f)
  }

  lemma MapRemoveSize(m: map<ProductId, LineItem>, k: ProductId)
    requires k in m
    ensures |m - {k}| == |m| - 1
  {
    assert (m - {k}).Keys == m.Keys - {k};
  }

  /** Some key of a non-empty mapping; which one is left open. */
  ghost function AnyKey(items: map<ProductId, LineItem>): (k: ProductId)
    requires items != map[]
    ensures k in items
  {
    assert (forall x :: x !in items) ==> items == map[];
    var k :| k in items; k
  }

  /** The sum of `f` over every entry of the mapping, with no order. */
  ghost function Total(items: map<ProductId, LineItem>, f: LineItem -> int): int
    decreases |items|
  {
    if items == map[] then 0
    else
      var k := AnyKey(items);
      MapRemoveSize(items, k);
      f(items[k]) + Total(items - {k}, f)
  }

  /** Any entry can be taken out of the total first. */
  lemma {:induction false} TotalAt(items: map<ProductId, LineItem>, f: LineItem -> int, y: ProductId)
    requires y in items
    ensures Total(items, f) == f(items[y]) + Total(items - {y}, f)
    decreases |items|
  {
    var x := AnyKey(items);
    if x != y {
      var withoutX, withoutY, withoutBoth := items - {x}, items - {y}, items - {x, y};
      assert withoutX - {y} == withoutBoth;
      assert withoutY - {x} == withoutBoth;
      MapRemoveSize(items, x);
      MapRemoveSize(items, y);
      TotalAt(withoutX, f, y);
      TotalAt(withoutY, f, x);
    }
  }

  /** Storing `v` under `k` replaces that entry's share of the total, or adds
      one when `k` was absent; no other entry's share changes. */
  lemma {:induction false} TotalUpdate(items: map<ProductId, LineItem>, f: LineItem -> int, k: ProductId, v: LineItem)
    ensures Total(items[k := v], f) == Total(items, f) - (if k in items then f(items[k]) else 0) + f(v)
  {
    TotalAt(items[k := v], f, k);
    assert items[k := v] - {k} == items - {k};
    if k in items {
      TotalAt(items, f, k);
    } else {
      assert items - {k} == items;
    }
  }

  /** Two mappings with the same keys whose entries agree on `f` have the
      same total. */
  lemma {:induction false} TotalCongruent(m: map<ProductId, LineItem>, m': map<ProductId, LineItem>, f: LineItem -> int)
    requires m.Keys == m'.Keys
    requires forall k :: k in m ==> f(m[k]) == f(m'[k])
    ensures Total(m, f) == Total(m', f)
    decreases |m|
  {
    if m != map[] {
      var k := AnyKey(m);
      TotalAt(m, f, k);
      TotalAt(m', f, k);
      MapRemoveSize(m, k);
      TotalCongruent(m - {k}, m' - {k}, f);
    } else {
      assert m'.Keys == {};
      assert m' == map[];
    }
  }

  /** The ordered sum only looks at the keys it walks. */
  lemma {:induction false} SumCongruent(order: seq<ProductId>, items: map<ProductId, LineItem>, items': map<ProductId, LineItem>, f: LineItem -> int)
    requires forall i :: 0 <= i < |order| ==>
               order[i] in items && order[i] in items' && f(items[order[i]]) == f(items'[order[i]])
    ensures Sum(order, items, f) == Sum(order, items', f)
    decreases |order|
  {
    if order != [] {
      SumCongruent(order[1..], items, items', f);
    }
  }

  /** Walking the dictionary in its key order adds up every entry exactly
      once: the ordered sum is the total over the mapping. */
  lemma {:induction false} SumIsTotal(order: seq<ProductId>, items: map<ProductId, LineItem>, f: LineItem -> int)
    requires IsDictionary(order, items)
    ensures Sum(order, items, f) == Total(items, f)
    decreases |order|
  {
    if order == [] {
      assert forall k :: k !in items;
      assert items == map[];
    } else {
      var k, rest := order[0], order[1..];
      assert k !in rest;
      TotalAt(items, f, k);
      SumCongruent(rest, items, items - {k}, f);
      forall x | x in items - {k} ensures x in rest {
        var i :| 0 <= i < |order| && order[i] == x;
        assert rest[i - 1] == x;
      }
      DistinctTail(order);
      SumIsTotal(rest, items - {k}, f);
    }
  }

  /** Iteration leaves both sums as they were: it changes no quantity and no
      price. */
  lemma IterationKeepsTotals(items: map<ProductId, LineItem>, catalog: map<ProductId, Product>)
    ensures Total(DecorateAll(items, catalog), Quantity) == Total(items, Quantity)
    ensures Total(DecorateAll(items, catalog), Subtotal) == Total(items, Subtotal)
  {
    var d := DecorateAll(items, catalog);
    TotalCongruent(d, items, Quantity);
    TotalCongruent(d, items, Subtotal);
  }
}
