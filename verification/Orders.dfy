/** Strict total orders, and the sorted listings they make unique.
    The journal orders intent ids by the C collation of their hash; every result here
    holds for whatever strict total order that happens to be. */
module Orders {

  ghost predicate StrictTotal<K(!new)>(less: (K, K) -> bool) {
    && (forall a, b, c :: less(a, b) && less(b, c) ==> less(a, c))
    && (forall a :: !less(a, a))
    && (forall a, b :: a != b ==> less(a, b) || less(b, a))
  }

  ghost predicate Increasing<K>(less: (K, K) -> bool, s: seq<K>) {
    forall i, j :: 0 <= i < j < |s| ==> less(s[i], s[j])
  }

  ghost predicate Distinct<K>(s: seq<K>) {
    forall i, j :: 0 <= i < j < |s| ==> s[i] != s[j]
  }

  ghost function Elements<K>(s: seq<K>): set<K> {
    set x | x in s
  }

  function Insert<K>(less: (K, K) -> bool, x: K, s: seq<K>): seq<K> {
    if s == [] then [x]
    else if less(x, s[0]) then [x] + s
    else [s[0]] + Insert(less, x, s[1..])
  }

  /** slices.Sort on distinct ids. */
  function Sort<K>(less: (K, K) -> bool, s: seq<K>): seq<K> {
    if s == [] then [] else Insert(less, s[0], Sort(less, s[1..]))
  }

  lemma NoElements<K>(s: seq<K>)
    ensures Elements(s) == {} <==> s == []
  {
    if s != [] {
      assert s[0] in Elements(s);
    }
  }

  lemma {:induction false} InsertElements<K>(less: (K, K) -> bool, x: K, s: seq<K>)
    ensures Elements(Insert(less, x, s)) == Elements(s) + {x}
    ensures |Insert(less, x, s)| == |s| + 1
  {
    if s != [] {
      assert s == [s[0]] + s[1..];
      if less(x, s[0]) {
        assert Elements([x] + s) == Elements(s) + {x};
      } else {
        InsertElements(less, x, s[1..]);
        var rest := Insert(less, x, s[1..]);
        assert Elements([s[0]] + rest) == {s[0]} + Elements(rest);
        assert Elements(s) == {s[0]} + Elements(s[1..]);
      }
    }
  }

  lemma {:induction false} SortElements<K>(less: (K, K) -> bool, s: seq<K>)
    ensures Elements(Sort(less, s)) == Elements(s)
    ensures |Sort(less, s)| == |s|
  {
    if s != [] {
      SortElements(less, s[1..]);
      InsertElements(less, s[0], Sort(less, s[1..]));
      assert s == [s[0]] + s[1..];
    }
  }

  lemma {:induction false} InsertIncreasing<K(!new)>(less: (K, K) -> bool, x: K, s: seq<K>)
    requires StrictTotal(less) && Increasing(less, s) && x !in s
    ensures Increasing(less, Insert(less, x, s))
  {
    if s != [] && !less(x, s[0]) {
      assert x != s[0];
      InsertIncreasing(less, x, s[1..]);
      InsertElements(less, x, s[1..]);
      var rest := Insert(less, x, s[1..]);
      forall y | y in rest ensures less(s[0], y) {
        assert y in Elements(rest);
        if y != x {
          assert y in s[1..];
          var j :| 0 <= j < |s[1..]| && s[1..][j] == y;
          assert s[j + 1] == y;
        }
      }
    }
  }

  lemma {:induction false} SortIncreasing<K(!new)>(less: (K, K) -> bool, s: seq<K>)
    requires StrictTotal(less) && Distinct(s)
    ensures Increasing(less, Sort(less, s))
  {
    if s != [] {
      assert Distinct(s[1..]);
      SortIncreasing(less, s[1..]);
      SortElements(less, s[1..]);
      var sorted := Sort(less, s[1..]);
      assert forall y :: y in sorted ==> y in Elements(sorted);
      InsertIncreasing(less, s[0], sorted);
    }
  }

  /** A set has exactly one increasing listing. */
  lemma {:induction false} IncreasingUnique<K(!new)>(less: (K, K) -> bool, a: seq<K>, b: seq<K>)
    requires StrictTotal(less) && Increasing(less, a) && Increasing(less, b)
    requires Elements(a) == Elements(b)
    ensures a == b
  {
    if a == [] {
      NoElements(a);
      NoElements(b);
    } else {
      assert a[0] in Elements(b);
      assert b != [];
      assert b[0] in Elements(a);
      SameFirst(less, a, b);
      assert Elements(a[1..]) == Elements(a) - {a[0]} by { HeadApart(less, a); }
      assert Elements(b[1..]) == Elements(b) - {b[0]} by { HeadApart(less, b); }
      IncreasingUnique(less, a[1..], b[1..]);
      assert a == [a[0]] + a[1..] && b == [b[0]] + b[1..];
    }
  }

  lemma SameFirst<K(!new)>(less: (K, K) -> bool, a: seq<K>, b: seq<K>)
    requires StrictTotal(less) && Increasing(less, a) && Increasing(less, b)
    requires a != [] && b != [] && a[0] in b && b[0] in a
    ensures a[0] == b[0]
  {
    var x, y := a[0], b[0];
    assert forall z :: z in a ==> z == x || less(x, z);
    assert forall z :: z in b ==> z == y || less(y, z);
    assert less(x, y) && less(y, x) ==> less(x, x);
  }

  lemma HeadApart<K(!new)>(less: (K, K) -> bool, a: seq<K>)
    requires StrictTotal(less) && Increasing(less, a) && a != []
    ensures Elements(a[1..]) == Elements(a) - {a[0]}
  {
    assert a[0] !in a[1..];
    assert a == [a[0]] + a[1..];
  }

  /** Two requests for the same distinct ids, in any order, sort to the same listing. */
  lemma SortCanonical<K(!new)>(less: (K, K) -> bool, a: seq<K>, b: seq<K>)
    requires StrictTotal(less) && Distinct(a) && Distinct(b)
    ensures Sort(less, a) == Sort(less, b) <==> Elements(a) == Elements(b)
  {
    SortElements(less, a);
    SortElements(less, b);
    SortIncreasing(less, a);
    SortIncreasing(less, b);
    if Elements(a) == Elements(b) {
      IncreasingUnique(less, Sort(less, a), Sort(less, b));
    }
  }
}
