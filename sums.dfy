/**
 Sums of the values of a finite map, taken in no particular order.

 A Go `for … range` over a map visits the keys in an unspecified order; the
 sum defined here picks an arbitrary key at each step, and the lemmas show
 that the choice does not matter: any key can be taken out first, and a
 left-to-right accumulation over any enumeration of the keys gives the same
 value.
 */
module Sums {
  import opened Stocks

  /** The sum of the values of `m`. */
  ghost function Sum(m: map<Stock, real>): real
    decreases |m|
  {
    if m == map[] then 0.0
    else
      var k :| k in m;
      assert |(m - {k}).Keys| < |m.Keys| by {
        assert (m - {k}).Keys == m.Keys - {k};
      }
      m[k] + Sum(m - {k})
  }

  /** Any key can be taken out of the sum first. */
  lemma {:induction false} SumRemove(m: map<Stock, real>, k: Stock)
    requires k in m
    ensures Sum(m) == m[k] + Sum(m - {k})
    decreases |m|
  {
    var j :| j in m && Sum(m) == m[j] + Sum(m - {j});
    if j != k {
      assert (m - {j}).Keys == m.Keys - {j};
      assert (m - {k}).Keys == m.Keys - {k};
      SumRemove(m - {j}, k);
      SumRemove(m - {k}, j);
      assert m - {j} - {k} == m - {k} - {j};
    }
  }

  /** No key of `order` appears twice. */
  predicate Distinct(order: seq<Stock>) {
    forall i, j :: 0 <= i < j < |order| ==> order[i] != order[j]
  }

  /** `order` lists every key of `m` exactly once. */
  predicate Enumerates(order: seq<Stock>, m: map<Stock, real>) {
    && Distinct(order)
    && (forall i :: 0 <= i < |order| ==> order[i] in m)
    && (forall k :: k in m ==> k in order)
  }

  /**
   The accumulator `value += m[k]` after visiting the keys of `order` from
   left to right, starting from 0.
   */
  function SumInOrder(m: map<Stock, real>, order: seq<Stock>): real
    requires forall i :: 0 <= i < |order| ==> order[i] in m
  {
    if order == [] then 0.0
    else SumInOrder(m, order[..|order| - 1]) + m[order[|order| - 1]]
  }

  /** The accumulation only reads the entries of the keys it visits. */
  lemma {:induction false} SumInOrderAgree(m: map<Stock, real>, m': map<Stock, real>, order: seq<Stock>)
    requires forall i :: 0 <= i < |order| ==> order[i] in m && order[i] in m'
    requires forall i :: 0 <= i < |order| ==> m[order[i]] == m'[order[i]]
    ensures SumInOrder(m, order) == SumInOrder(m', order)
  {
    if order != [] {
      SumInOrderAgree(m, m', order[..|order| - 1]);
    }
  }

  /** Whatever order the keys are visited in, the accumulation equals the sum. */
  lemma {:induction false} SumInAnyOrder(m: map<Stock, real>, order: seq<Stock>)
    requires Enumerates(order, m)
    ensures SumInOrder(m, order) == Sum(m)
    decreases |order|
  {
    if order == [] {
      assert m == map[];
    } else {
      var n := |order| - 1;
      var last, init := order[n], order[..n];
      var rest := m - {last};
      assert last in m;
      forall k | k in rest ensures k in init {
          assert k in order;
          var i :| 0 <= i < |order| && order[i] == k;
          assert i != n;
          assert init[i] == k;
      }
      assert Enumerates(init, rest);
      SumInAnyOrder(rest, init);
      SumInOrderAgree(m, rest, init);
      SumRemove(m, last);
    }
  }

  /** Every finite map has an enumeration of its keys. */
  lemma {:induction false} EnumerationExists(m: map<Stock, real>) returns (order: seq<Stock>)
    ensures Enumerates(order, m)
    decreases |m|
  {
    if m == map[] {
      order := [];
    } else {
      var k :| k in m;
      var rest := m - {k};
      assert rest.Keys == m.Keys - {k};
      var init := EnumerationExists(rest);
      order := init + [k];
      forall i | 0 <= i < |order| ensures order[i] in m {
        if i < |init| {
          assert order[i] == init[i];
        }
      }
      forall x | x in m ensures x in order {
        if x != k {
          assert x in init;
          var i :| 0 <= i < |init| && init[i] == x;
          assert order[i] == x;
        }
      }
    }
  }

  /** A sum of non-negative values is non-negative. */
  lemma {:induction false} SumNonNegative(m: map<Stock, real>)
    requires forall k :: k in m ==> m[k] >= 0.0
    ensures Sum(m) >= 0.0
    decreases |m|
  {
    if m != map[] {
      var k :| k in m;
      assert (m - {k}).Keys == m.Keys - {k};
      SumRemove(m, k);
      SumNonNegative(m - {k});
    }
  }
}
