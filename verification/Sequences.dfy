/** sequence-service: counter keys, printed identifiers, and the atomic counters behind them. */
module Sequences {
  import opened Text

  datatype YearMonthDay = YearMonthDay(year: nat, month: nat, day: nat)

  type Date = d: YearMonthDay | 1 <= d.year && 1 <= d.month <= 12 && 1 <= d.day <= 31 witness YearMonthDay(1, 1, 1)

  datatype EntityType = INSTRUCTION | PAYMENT

  /** The two allocation endpoints; line of business and resource id are arbitrary text here. */
  datatype Request =
    | NextSequence(businessDate: Date, owningLob: string, entityType: EntityType)
    | NextSecurityEvent(resourceId: string)

  function TwoDigits(n: nat): (s: string)
    requires n < 100
    ensures |s| == 2 && AllDigits(s)
  {
    [Digit(n / 10), Digit(n % 10)]
  }

  /** `%Y%m%d`; a year below 1000 is printed without leading zeros. */
  function CompactDate(d: Date): (s: string)
    ensures AllDigits(s)
  {
    Decimal(d.year) + TwoDigits(d.month) + TwoDigits(d.day)
  }

  function EntityTypeCode(t: EntityType): string { if t == INSTRUCTION then "I" else "P" }

  function CounterKey(r: Request): string
  {
    match r
    case NextSequence(d, lob, t) => CompactDate(d) + "-" + lob + "-" + EntityTypeCode(t)
    case NextSecurityEvent(resource) => resource + "-SE"
  }

  function SequenceId(counterKey: string, number: nat): string { Keyed(counterKey, '-', number) }

  /** What the two kinds of identifiers look like. */
  lemma {:induction false} PrintedParts(r: Request, number: nat)
    ensures match r
      case NextSequence(d, lob, t) =>
        SequenceId(CounterKey(r), number)
        == Decimal(d.year) + TwoDigits(d.month) + TwoDigits(d.day) + "-" + lob
           + (if t == INSTRUCTION then "-I-" else "-P-") + Decimal(number)
      case NextSecurityEvent(resource) => SequenceId(CounterKey(r), number) == resource + "-SE-" + Decimal(number)
  {
  }

  /** Month and day are the two-digit numerals of their numbers. */
  lemma {:induction false} TwoDigitsReadBack(n: nat)
    requires n < 100
    ensures Numeral(TwoDigits(n)) == n
  {
    DigitValue(n / 10);
    DigitValue(n % 10);
    assert TwoDigits(n)[..1] == [Digit(n / 10)] && [Digit(n / 10)][..0] == [];
  }

  // ----- Keys tell requests apart -----------------------------------------------------

  lemma {:induction false} CompactDateInjective(d: Date, e: Date)
    requires CompactDate(d) == CompactDate(e)
    ensures d == e
  {
    var s := CompactDate(d);
    assert s[|s| - 4..] == TwoDigits(d.month) + TwoDigits(d.day) == TwoDigits(e.month) + TwoDigits(e.day);
    assert s[..|s| - 4] == Decimal(d.year) == Decimal(e.year);
    TwoDigitsInjective(d.month, e.month);
    TwoDigitsInjective(d.day, e.day);
    DecimalReadsBack(d.year);
    DecimalReadsBack(e.year);
    assert s[|s| - 4..][..2] == TwoDigits(d.month) == TwoDigits(e.month);
    assert s[|s| - 4..][2..] == TwoDigits(d.day) == TwoDigits(e.day);
  }

  lemma {:induction false} TwoDigitsInjective(m: nat, n: nat)
    requires m < 100 && n < 100
    ensures TwoDigits(m) == TwoDigits(n) ==> m == n
  {
    if TwoDigits(m) == TwoDigits(n) {
      assert TwoDigits(m)[0] == TwoDigits(n)[0] && TwoDigits(m)[1] == TwoDigits(n)[1];
      DigitInjective(m / 10, n / 10);
      DigitInjective(m % 10, n % 10);
    }
  }

  lemma {:induction false} DigitInjective(m: nat, n: nat)
    requires m < 10 && n < 10
    ensures Digit(m) == Digit(n) ==> m == n
  {
  }

  /** The text before the first hyphen is the date, so a date cannot be confused with a longer one. */
  lemma {:induction false} FirstHyphenSplits(a: string, x: string, b: string, y: string)
    requires AllDigits(a) && AllDigits(b) && a + "-" + x == b + "-" + y
    ensures a == b && x == y
  {
    var s := a + "-" + x;
    assert s[|a|] == '-' && s[|b|] == '-';
    assert forall i :: 0 <= i < |a| ==> s[i] == a[i] && IsDigit(s[i]);
    assert forall i :: 0 <= i < |b| ==> s[i] == b[i] && IsDigit(s[i]);
    assert |a| == |b|;
    assert a == s[..|a|] && b == s[..|b|];
    assert x == s[|a| + 1..] && y == s[|b| + 1..];
  }

  /** Date, line of business and one-letter code can be read back, hyphens in the middle part included. */
  lemma {:induction false} ThreePartsSplit(a: string, x: string, t: char, b: string, y: string, u: char)
    requires AllDigits(a) && AllDigits(b)
    requires a + "-" + x + "-" + [t] == b + "-" + y + "-" + [u]
    ensures a == b && x == y && t == u
  {
    var p, q := x + "-" + [t], y + "-" + [u];
    assert a + "-" + x + "-" + [t] == a + "-" + p && b + "-" + y + "-" + [u] == b + "-" + q;
    FirstHyphenSplits(a, p, b, q);
    assert x == p[..|p| - 2] && y == q[..|q| - 2];
    assert t == p[|p| - 1] && u == q[|q| - 1];
  }

  lemma {:induction false} EndingsDiffer(x: string, t: char, resource: string)
    requires t != 'E'
    ensures x + "-" + [t] != resource + "-SE"
  {
    var s, s' := x + "-" + [t], resource + "-SE";
    assert s[|s| - 1] == t && s'[|s'| - 1] == 'E';
  }

  lemma {:induction false} SuffixSplits(x: string, y: string, suffix: string)
    requires x + suffix == y + suffix
    ensures x == y
  {
    assert x == (x + suffix)[..|x|] && y == (y + suffix)[..|y|];
  }

  /** Different requests never share a counter, hyphens in the line of business included. */
  lemma {:induction false} CounterKeysDistinguish(r: Request, q: Request)
    ensures CounterKey(r) == CounterKey(q) <==> r == q
  {
    if CounterKey(r) == CounterKey(q) {
      match (r, q)
      case (NextSequence(d, lob, t), NextSequence(d', lob', t')) =>
        ThreePartsSplit(CompactDate(d), lob, EntityTypeCode(t)[0], CompactDate(d'), lob', EntityTypeCode(t')[0]);
        CompactDateInjective(d, d');
      case (NextSequence(d, lob, t), NextSecurityEvent(resource)) =>
        EndingsDiffer(CompactDate(d) + "-" + lob, EntityTypeCode(t)[0], resource);
      case (NextSecurityEvent(resource), NextSequence(d, lob, t)) =>
        EndingsDiffer(CompactDate(d) + "-" + lob, EntityTypeCode(t)[0], resource);
      case (NextSecurityEvent(resource), NextSecurityEvent(resource')) =>
        SuffixSplits(resource, resource', "-SE");
    }
  }

  // ----- Histories of allocations ----------------------------------------------------------

  /**
   How often a counter has been advanced in a history of keys; find_one_and_update makes each
   advance atomic, so any interleaving of calls is some such history.
   */
  function Advances(history: seq<string>, key: string): nat
  {
    if history == [] then 0
    else Advances(history[..|history| - 1], key) + if history[|history| - 1] == key then 1 else 0
  }

  function NumberAt(history: seq<string>, i: nat): nat
    requires i < |history|
  {
    Advances(history[..i + 1], history[i])
  }

  function IdentifierAt(history: seq<string>, i: nat): string
    requires i < |history|
  {
    SequenceId(history[i], NumberAt(history, i))
  }

  lemma {:induction false} AdvancesGrow(history: seq<string>, i: nat, j: nat, key: string)
    requires i <= j <= |history|
    ensures Advances(history[..i], key) <= Advances(history[..j], key)
    ensures i < j && history[j - 1] == key ==> Advances(history[..i], key) < Advances(history[..j], key)
    decreases j
  {
    if i < j {
      assert history[..j][..j - 1] == history[..j - 1];
      AdvancesGrow(history, i, j - 1, key);
    }
  }

  lemma {:induction false} NumberAtOfPrefix(history: seq<string>, n: nat, i: nat)
    requires i < n <= |history|
    ensures NumberAt(history[..n], i) == NumberAt(history, i)
  {
    assert history[..n][..i + 1] == history[..i + 1];
  }

  lemma {:induction false} NumbersOfOneKeyGrow(history: seq<string>, i: nat, j: nat)
    requires i < j < |history| && history[i] == history[j]
    ensures NumberAt(history, i) < NumberAt(history, j)
  {
    AdvancesGrow(history, i + 1, j + 1, history[j]);
  }

  /** All identifiers ever printed, by both endpoints in any interleaving, are pairwise distinct. */
  lemma {:induction false} IdentifiersAreDistinct(history: seq<string>, i: nat, j: nat)
    requires i < j < |history|
    ensures IdentifierAt(history, i) != IdentifierAt(history, j)
  {
    if history[i] == history[j] { NumbersOfOneKeyGrow(history, i, j); }
    KeyedInjective(history[i], history[j], '-', NumberAt(history, i), NumberAt(history, j));
  }

  /** A counter advanced k times has handed out every number from 1 to k. */
  lemma {:induction false} CounterReaches(history: seq<string>, key: string, n: nat) returns (i: nat)
    requires 1 <= n <= Advances(history, key)
    ensures i < |history| && history[i] == key && NumberAt(history, i) == n
    decreases |history|
  {
    var front := history[..|history| - 1];
    if Advances(front, key) < n {
      i := |history| - 1;
      assert history[..i + 1] == history;
    } else {
      i := CounterReaches(front, key, n);
      NumberAtOfPrefix(history, |front|, i);
    }
  }

  /** The i-th advance of the history was on this key and returned this number. */
  predicate HandedOut(history: seq<string>, key: string, i: nat, n: int) {
    i < |history| && history[i] == key && NumberAt(history, i) == n
  }

  predicate EverHandedOut(history: seq<string>, key: string, n: int) {
    exists i: nat :: i < |history| && HandedOut(history, key, i, n)
  }

  /** A counter advanced k times has handed out each of 1..k exactly once, and nothing else. */
  lemma {:induction false} CounterHandsOutOneToK(history: seq<string>, key: string)
    ensures forall n {:trigger EverHandedOut(history, key, n)} ::
      EverHandedOut(history, key, n) <==> 1 <= n <= Advances(history, key)
    ensures forall i: nat, j: nat, n :: HandedOut(history, key, i, n) && HandedOut(history, key, j, n) ==> i == j
  {
    forall n {:trigger EverHandedOut(history, key, n)}
      ensures EverHandedOut(history, key, n) <==> 1 <= n <= Advances(history, key)
    {
      if 1 <= n <= Advances(history, key) {
        var i := CounterReaches(history, key, n);
        assert HandedOut(history, key, i, n);
      }
      if EverHandedOut(history, key, n) {
        var i: nat :| i < |history| && HandedOut(history, key, i, n);
        AdvancesGrow(history, 0, i + 1, key);
        AdvancesGrow(history, i + 1, |history|, key);
        assert history[..|history|] == history;
      }
    }
    forall i: nat, j: nat, n | HandedOut(history, key, i, n) && HandedOut(history, key, j, n)
      ensures i == j
    {
      if i < j { NumbersOfOneKeyGrow(history, i, j); }
      if j < i { NumbersOfOneKeyGrow(history, j, i); }
    }
  }

  // ----- The service object --------------------------------------------------------------------

  /** The counter collection: one document per key. */
  class SequenceRepository {
    var counters: map<string, nat>

    constructor ()
      ensures counters == map[]
    {
      counters := map[];
    }

    /** find_one_and_update with $inc and upsert, returning the document after the update. */
    method AllocateNext(counterKey: string) returns (number: nat)
      modifies this
      ensures number == 1 + Count(old(counters), counterKey)
      ensures counters == old(counters)[counterKey := number]
    {
      number := if counterKey in counters then counters[counterKey] + 1 else 1;
      counters := counters[counterKey := number];
    }
  }

  function Count(counters: map<string, nat>, key: string): nat { if key in counters then counters[key] else 0 }

  /** The stored counters say how often each key has been advanced. */
  ghost predicate Counts(counters: map<string, nat>, history: seq<string>) {
    forall key: string {:trigger Count(counters, key)} :: Count(counters, key) == Advances(history, key)
  }

  lemma {:induction false} AdvanceKeepsCounts(counters: map<string, nat>, history: seq<string>, key: string)
    requires Counts(counters, history)
    ensures Counts(counters[key := 1 + Count(counters, key)], history + [key])
    ensures NumberAt(history + [key], |history|) == 1 + Count(counters, key)
  {
    var longer := history + [key];
    assert longer[..|history|] == history && longer[..|history| + 1] == longer;
    forall other: string
      ensures Count(counters[key := 1 + Count(counters, key)], other) == Advances(longer, other)
    {
      assert Count(counters, other) == Advances(history, other);
    }
  }

  class SequenceService {
    const repository: SequenceRepository
    /** The keys advanced so far, in order. */
    ghost var history: seq<string>

    ghost predicate Valid()
      reads this, repository
    {
      Counts(repository.counters, history)
    }

    constructor ()
      ensures Valid() && history == [] && fresh(repository)
    {
      repository := new SequenceRepository();
      history := [];
    }

    /** Both endpoints: advance the request's counter and print key and number. */
    method Next(request: Request) returns (sequenceId: string, number: nat)
      requires Valid()
      modifies this, repository
      ensures Valid() && history == old(history) + [CounterKey(request)]
      ensures number == NumberAt(history, |old(history)|) && sequenceId == IdentifierAt(history, |old(history)|)
      ensures match request
        case NextSequence(d, lob, t) =>
          sequenceId == Decimal(d.year) + TwoDigits(d.month) + TwoDigits(d.day) + "-" + lob
                        + (if t == INSTRUCTION then "-I-" else "-P-") + Decimal(number)
        case NextSecurityEvent(resource) => sequenceId == resource + "-SE-" + Decimal(number)
      ensures forall i: nat :: i < |old(history)| ==> IdentifierAt(history, i) != sequenceId
    {
      var counterKey := CounterKey(request);
      AdvanceKeepsCounts(repository.counters, history, counterKey);
      number := repository.AllocateNext(counterKey);
      sequenceId := SequenceId(counterKey, number);
      PrintedParts(request, number);
      history := history + [counterKey];
      forall i: nat | i < |history| - 1
        ensures IdentifierAt(history, i) != IdentifierAt(history, |history| - 1)
      {
        IdentifiersAreDistinct(history, i, |history| - 1);
      }
    }
  }
}
