/** Sums over finite maps, in no particular order. */
module Sums {

  ghost function Sum<K>(m: map<K, int>): int
    decreases |m|
  {
    if m == map[] then 0
    else
      var k :| k in m;
      assert |m - {k}| < |m| by { Shrinks(m, k); }
      m[k] + Sum(m - {k})
  }

  lemma Shrinks<K>(m: map<K, int>, k: K)
    requires k in m
    ensures |m - {k}| == |m| - 1
  {
    assert (m - {k}).Keys == m.Keys - {k};
  }

  /** Every key may be taken out first: the sum does not depend on the order. */
  lemma {:induction false} SumRemove<K>(m: map<K, int>, k: K)
    requires k in m
    ensures Sum(m) == m[k] + Sum(m - {k})
    decreases |m|
  {
    var p :| p in m && Sum(m) == m[p] + Sum(m - {p});
    if p != k {
      Shrinks(m, p);
      Shrinks(m, k);
      SumRemove(m - {p}, k);
      SumRemove(m - {k}, p);
      assert m - {p} - {k} == m - {k} - {p};
    }
  }

  lemma SumUpdate<K>(m: map<K, int>, k: K, v: int)
    ensures Sum(m[k := v]) == Sum(m) - (if k in m then m[k] else 0) + v
  {
    SumRemove(m[k := v], k);
    assert m[k := v] - {k} == m - {k};
    if k in m {
      SumRemove(m, k);
    } else {
      assert m - {k} == m;
    }
  }

  /** A pointwise smaller map over fewer keys has a smaller sum. */
  lemma {:induction false} SumBounded<K>(small: map<K, int>, big: map<K, int>)
    requires forall k :: k in small ==> k in big && small[k] <= big[k]
    requires forall k :: k in big ==> 0 <= big[k]
    ensures Sum(small) <= Sum(big)
    decreases |big|
  {
    if big == map[] {
      assert small == map[];
    } else {
      var k :| k in big;
      Shrinks(big, k);
      SumRemove(big, k);
      if k in small {
        SumRemove(small, k);
      } else {
        assert small - {k} == small;
      }
      SumBounded(small - {k}, big - {k});
    }
  }

  lemma SumNonNegative<K>(m: map<K, int>)
    requires forall k :: k in m ==> 0 <= m[k]
    ensures 0 <= Sum(m)
  {
    var none: map<K, int> := map[];
    SumBounded(none, m);
  }

  /** Sums over keys of another type: every key of `small` is paired with its own key of `big`. */
  lemma {:induction false} SumPaired<A, B>(small: map<A, int>, big: map<B, int>, pair: map<A, B>)
    requires forall a :: a in small ==> a in pair && pair[a] in big && small[a] <= big[pair[a]]
    requires forall a, b :: a in small && b in small && a != b ==> pair[a] != pair[b]
    requires forall b :: b in big ==> 0 <= big[b]
    ensures Sum(small) <= Sum(big)
    decreases |small|
  {
    if small == map[] {
      SumNonNegative(big);
    } else {
      var a :| a in small;
      Shrinks(small, a);
      SumRemove(small, a);
      SumRemove(big, pair[a]);
      SumPaired(small - {a}, big - {pair[a]}, pair);
    }
  }

  /** Extra keys that carry nothing do not change a sum. */
  lemma {:induction false} SumExtend<K>(small: map<K, int>, big: map<K, int>)
    requires forall k :: k in small ==> k in big && small[k] == big[k]
    requires forall k :: k in big && k !in small ==> big[k] == 0
    ensures Sum(small) == Sum(big)
    decreases |big|
  {
    if big == map[] {
      assert small == map[];
    } else {
      var k :| k in big;
      Shrinks(big, k);
      SumRemove(big, k);
      if k in small {
        SumRemove(small, k);
      } else {
        assert small - {k} == small;
      }
      SumExtend(small - {k}, big - {k});
    }
  }

  /** The part of a map over the keys counted so far. */
  ghost function Part<K>(m: map<K, int>, done: set<K>): map<K, int> {
    map k | k in m && k in done :: m[k]
  }

  lemma PartGrows<K>(m: map<K, int>, done: set<K>, k: K)
    requires k in m && k !in done
    ensures Sum(Part(m, done + {k})) == Sum(Part(m, done)) + m[k]
  {
    assert Part(m, done + {k}) == Part(m, done)[k := m[k]];
    SumUpdate(Part(m, done), k, m[k]);
  }

  /** Counting one more key of a map without negative values stays within the whole sum. */
  lemma PartBounded<K>(m: map<K, int>, done: set<K>)
    requires forall k :: k in m ==> 0 <= m[k]
    ensures Sum(Part(m, done)) <= Sum(m)
  {
    SumBounded(Part(m, done), m);
  }

  lemma PartEnds<K>(m: map<K, int>)
    ensures Sum(Part(m, {})) == 0 && Part(m, m.Keys) == m
  {
    var none: set<K> := {};
    assert Part(m, none) == map[];
  }
}
