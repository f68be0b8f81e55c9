/** Decimal printing, separated keys, and the order of strings by code point. */
module Text {

  // ----- Decimal numerals -------------------------------------------------

  predicate IsDigit(c: char) { '0' <= c <= '9' }

  function Digit(d: nat): (c: char)
    requires d < 10
    ensures IsDigit(c)
  {
    "0123456789"[d]
  }

  predicate AllDigits(s: string) { forall i :: 0 <= i < |s| ==> IsDigit(s[i]) }

  /** How Python prints a non-negative integer. */
  function Decimal(n: nat): (s: string)
    ensures s != [] && AllDigits(s)
  {
    if n < 10 then [Digit(n)] else Decimal(n / 10) + [Digit(n % 10)]
  }

  function Numeral(s: string): nat
    requires AllDigits(s)
  {
    if s == [] then 0 else 10 * Numeral(s[..|s| - 1]) + (s[|s| - 1] as int - '0' as int)
  }

  lemma {:induction false} DigitValue(d: nat)
    requires d < 10
    ensures Digit(d) as int == '0' as int + d
  {
  }

  lemma {:induction false} DecimalReadsBack(n: nat)
    ensures Numeral(Decimal(n)) == n
  {
    if n < 10 {
      DigitValue(n);
      assert Decimal(n)[..0] == [];
    } else {
      DecimalReadsBack(n / 10);
      DigitValue(n % 10);
      assert Decimal(n)[..|Decimal(n)| - 1] == Decimal(n / 10);
    }
  }

  lemma {:induction false} NoLeadingZero(n: nat)
    requires n > 0
    ensures Decimal(n)[0] != '0'
  {
    if n >= 10 { NoLeadingZero(n / 10); }
  }

  // ----- Keys of the form prefix, separator, number -------------------------

  function Keyed(prefix: string, sep: char, n: nat): string { prefix + [sep] + Decimal(n) }

  /** `key.rsplit(sep, 1)[0]`: what stands before the last separator, or the whole key. */
  function BeforeLast(key: string, sep: char): string {
    if sep !in key then key
    else if key[|key| - 1] == sep then key[..|key| - 1]
    else BeforeLast(key[..|key| - 1], sep)
  }

  lemma {:induction false} BeforeLastSkipsTail(head: string, sep: char, tail: string)
    requires sep !in tail
    ensures BeforeLast(head + [sep] + tail, sep) == head
  {
    var key := head + [sep] + tail;
    assert key[|head|] == sep;
    if tail == [] {
      assert key[..|key| - 1] == head;
    } else {
      assert key[..|key| - 1] == head + [sep] + tail[..|tail| - 1];
      BeforeLastSkipsTail(head, sep, tail[..|tail| - 1]);
    }
  }

  lemma {:induction false} KeyedSplits(prefix: string, sep: char, n: nat)
    requires !IsDigit(sep)
    ensures BeforeLast(Keyed(prefix, sep, n), sep) == prefix
  {
    BeforeLastSkipsTail(prefix, sep, Decimal(n));
  }

  /** A key determines both its prefix and its number, whatever the prefix contains. */
  lemma {:induction false} KeyedInjective(p: string, q: string, sep: char, m: nat, n: nat)
    requires !IsDigit(sep)
    ensures Keyed(p, sep, m) == Keyed(q, sep, n) <==> p == q && m == n
  {
    if Keyed(p, sep, m) == Keyed(q, sep, n) {
      KeyedSplits(p, sep, m);
      KeyedSplits(q, sep, n);
      assert Keyed(p, sep, m)[|p| + 1..] == Decimal(m);
      assert Keyed(q, sep, n)[|q| + 1..] == Decimal(n);
      DecimalReadsBack(m);
      DecimalReadsBack(n);
    }
  }

  // ----- String order ---------------------------------------------------------

  /** Code-point order, as Python and MongoDB compare strings. */
  predicate AtMost(a: string, b: string) {
    a == [] || (b != [] && (a[0] < b[0] || (a[0] == b[0] && AtMost(a[1..], b[1..]))))
  }

  lemma {:induction false} AtMostTotal(a: string, b: string)
    ensures AtMost(a, a)
    ensures AtMost(a, b) || AtMost(b, a)
    ensures AtMost(a, b) && AtMost(b, a) ==> a == b
  {
    if a != [] {
      AtMostTotal(a[1..], if b == [] then [] else b[1..]);
      if b != [] {
        assert a == [a[0]] + a[1..] && b == [b[0]] + b[1..];
      }
    }
  }

  /** A prefix comes first; otherwise the first difference decides. */
  lemma {:induction false} AtMostByFirstDifference(a: string, b: string)
    ensures AtMost(a, b) <==> a <= b || exists k: nat :: DiffersAt(a, b, k) && a[k] < b[k]
  {
    if a != [] && b != [] && a[0] == b[0] {
      AtMostByFirstDifference(a[1..], b[1..]);
      assert a == [a[0]] + a[1..] && b == [b[0]] + b[1..];
      assert forall k: nat {:trigger DiffersAt(a[1..], b[1..], k)} :: DiffersAt(a[1..], b[1..], k) ==> DiffersAt(a, b, k + 1);
      assert forall k: nat {:trigger DiffersAt(a, b, k)} :: DiffersAt(a, b, k) ==> k > 0 && DiffersAt(a[1..], b[1..], k - 1);
    } else if a != [] && b != [] {
      assert DiffersAt(a, b, 0);
    }
  }

  predicate DiffersAt(a: string, b: string, k: nat) {
    k < |a| && k < |b| && a[..k] == b[..k] && a[k] != b[k]
  }

  lemma {:induction false} AtMostTransitive(a: string, b: string, c: string)
    requires AtMost(a, b) && AtMost(b, c)
    ensures AtMost(a, c)
  {
    if a != [] && a[0] == b[0] && b[0] == c[0] {
      AtMostTransitive(a[1..], b[1..], c[1..]);
    }
  }
}
