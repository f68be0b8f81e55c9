/** `sorted(...)` over a finite set, for any total order. */
module SortedNames {
  import opened Text

  ghost predicate TotalOrder<K(!new)>(leq: (K, K) -> bool) {
    && (forall a, b :: leq(a, b) || leq(b, a))
    && (forall a, b :: leq(a, b) && leq(b, a) ==> a == b)
    && (forall a, b, c :: leq(a, b) && leq(b, c) ==> leq(a, c))
  }

  ghost predicate Ascending<K>(s: seq<K>, leq: (K, K) -> bool) {
    forall i, j :: 0 <= i < j < |s| ==> leq(s[i], s[j]) && s[i] != s[j]
  }

  function Elements<K>(s: seq<K>): set<K> { set x | x in s }

  /** Tuples compare part by part, as in Python. */
  predicate PairAtMost(a: (string, string), b: (string, string)) {
    if a.0 == b.0 then AtMost(a.1, b.1) else AtMost(a.0, b.0)
  }

  lemma {:induction false} StringsAreOrdered()
    ensures TotalOrder(AtMost)
  {
    forall a, b ensures (AtMost(a, b) || AtMost(b, a)) && (AtMost(a, b) && AtMost(b, a) ==> a == b) { AtMostTotal(a, b); }
    forall a, b, c | AtMost(a, b) && AtMost(b, c) ensures AtMost(a, c) { AtMostTransitive(a, b, c); }
  }

  lemma {:induction false} PairsAreOrdered()
    ensures TotalOrder(PairAtMost)
  {
    forall a, b
      ensures (PairAtMost(a, b) || PairAtMost(b, a)) && (PairAtMost(a, b) && PairAtMost(b, a) ==> a == b)
    {
      AtMostTotal(a.0, b.0);
      AtMostTotal(a.1, b.1);
    }
    forall a, b, c | PairAtMost(a, b) && PairAtMost(b, c)
      ensures PairAtMost(a, c)
    {
      PairTransitive(a, b, c);
    }
  }

  lemma {:induction false} PairTransitive(a: (string, string), b: (string, string), c: (string, string))
    requires PairAtMost(a, b) && PairAtMost(b, c)
    ensures PairAtMost(a, c)
  {
    if a.0 == b.0 == c.0 {
      AtMostTransitive(a.1, b.1, c.1);
    } else {
      AtMostTotal(a.0, b.0);
      AtMostTotal(b.0, c.0);
      AtMostTransitive(a.0, b.0, c.0);
    }
  }

  method Least<K(==, !new)>(names: set<K>, leq: (K, K) -> bool) returns (least: K)
    requires names != {} && TotalOrder(leq)
    ensures least in names && forall x :: x in names ==> leq(least, x)
  {
    least :| least in names;
    var left := names - {least};
    while left != {}
      invariant least in names && left <= names
      invariant forall x :: x in names - left ==> leq(least, x)
      decreases left
    {
      var x :| x in left;
      if !leq(least, x) { least := x; }
      left := left - {x};
    }
  }

  method Sorted<K(==, !new)>(names: set<K>, leq: (K, K) -> bool) returns (s: seq<K>)
    requires TotalOrder(leq)
    ensures Elements(s) == names && Ascending(s, leq)
  {
    s := [];
    var left := names;
    while left != {}
      invariant Elements(s) + left == names && Elements(s) !! left
      invariant Ascending(s, leq)
      invariant forall i, x :: 0 <= i < |s| && x in left ==> leq(s[i], x)
      decreases left
    {
      var least := Least(left, leq);
      assert forall i :: 0 <= i < |s| ==> s[i] in Elements(s);
      s := s + [least];
      left := left - {least};
    }
  }
}
