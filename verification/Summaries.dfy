/** The inventory summaries of both services: the aggregated form against the scoped form. */
module Summaries {
  import opened Lists
  import opened SortedNames
  import opened Text

  const SUMMARY_LIMIT := 10_000

  datatype Bucket<K> = Bucket(key: K, count: nat)

  // ----- Tables of counts ------------------------------------------------------------------

  function Keys<K>(buckets: seq<Bucket<K>>): seq<K> { seq(|buckets|, i requires 0 <= i < |buckets| => buckets[i].key) }

  /** The sorted table of how often each key occurs. */
  ghost predicate Tabulates<K(!new)>(buckets: seq<Bucket<K>>, m: multiset<K>, leq: (K, K) -> bool) {
    && Ascending(Keys(buckets), leq)
    && (forall k :: k in m <==> k in Keys(buckets))
    && forall i :: 0 <= i < |buckets| ==> buckets[i].count == m[buckets[i].key]
  }

  ghost predicate Counts<K(!new)>(counts: map<K, nat>, m: multiset<K>) {
    && (forall k :: k in counts <==> k in m)
    && forall k :: k in counts ==> counts[k] == m[k]
  }

  lemma {:induction false} AscendingUnique<K(!new)>(s: seq<K>, t: seq<K>, leq: (K, K) -> bool)
    requires TotalOrder(leq) && Ascending(s, leq) && Ascending(t, leq)
    requires forall k :: k in s <==> k in t
    ensures s == t
  {
    assert s != [] ==> s[0] in t;
    assert t != [] ==> t[0] in s;
    if s == [] {
    } else {
      assert leq(s[0], t[0]) && leq(t[0], s[0]);
      forall k ensures k in s[1..] <==> k in t[1..] {
        assert k in s <==> k == s[0] || k in s[1..];
        assert k in t <==> k == t[0] || k in t[1..];
        assert s[0] !in s[1..] && t[0] !in t[1..];
      }
      AscendingUnique(s[1..], t[1..], leq);
      assert s == [s[0]] + s[1..] && t == [t[0]] + t[1..];
    }
  }

  lemma {:induction false} CountsDetermineTables<K(!new)>(b: seq<Bucket<K>>, c: seq<Bucket<K>>, m: multiset<K>, leq: (K, K) -> bool)
    requires TotalOrder(leq) && Tabulates(b, m, leq) && Tabulates(c, m, leq)
    ensures b == c
  {
    AscendingUnique(Keys(b), Keys(c), leq);
    forall i | 0 <= i < |b|
      ensures b[i] == c[i]
    {
      assert Keys(b)[i] == b[i].key && Keys(c)[i] == c[i].key;
    }
  }

  /** `[Bucket(key=name, count=counts[name]) for name in sorted(counts)]` */
  method ToBuckets<K(==, !new)>(counts: map<K, nat>, ghost m: multiset<K>, leq: (K, K) -> bool) returns (buckets: seq<Bucket<K>>)
    requires TotalOrder(leq) && Counts(counts, m)
    ensures Tabulates(buckets, m, leq)
  {
    var names := Sorted(counts.Keys, leq);
    buckets := [];
    for i := 0 to |names|
      invariant Keys(buckets) == names[..i]
      invariant forall j :: 0 <= j < i ==> buckets[j].count == counts[names[j]]
    {
      assert names[i] in Elements(names);
      buckets := buckets + [Bucket(names[i], counts[names[i]])];
    }
    assert Keys(buckets) == names;
    forall k ensures k in m <==> k in names {
      assert k in names <==> k in Elements(names);
    }
    forall i | 0 <= i < |buckets| ensures buckets[i].count == m[buckets[i].key] {
      assert names[i] in Elements(names) && Keys(buckets)[i] == names[i];
    }
  }

  // ----- Sums over a table --------------------------------------------------------------------

  /** Sum of the counts of the keys that satisfy p. */
  function Sum<K>(buckets: seq<Bucket<K>>, p: K -> bool): nat {
    if buckets == [] then 0
    else Sum(buckets[..|buckets| - 1], p) + if p(buckets[|buckets| - 1].key) then buckets[|buckets| - 1].count else 0
  }

  function SumAt<K(!new)>(keys: seq<K>, m: multiset<K>, p: K -> bool): nat {
    if keys == [] then 0
    else SumAt(keys[..|keys| - 1], m, p) + if p(keys[|keys| - 1]) then m[keys[|keys| - 1]] else 0
  }

  function HowMany<K>(rows: seq<K>, p: K -> bool): nat {
    if rows == [] then 0 else HowMany(rows[..|rows| - 1], p) + if p(rows[|rows| - 1]) then 1 else 0
  }

  ghost predicate Distinct<K>(keys: seq<K>) { forall i, j :: 0 <= i < j < |keys| ==> keys[i] != keys[j] }

  lemma {:induction false} SumAtOfOneMore<K(!new)>(keys: seq<K>, m: multiset<K>, x: K, p: K -> bool)
    requires Distinct(keys)
    ensures SumAt(keys, m + multiset{x}, p) == SumAt(keys, m, p) + if x in keys && p(x) then 1 else 0
  {
    if keys != [] {
      var front, last := keys[..|keys| - 1], keys[|keys| - 1];
      SumAtOfOneMore(front, m, x, p);
      assert keys == front + [last];
      assert last !in front;
      assert x in keys <==> x in front || x == last;
    }
  }

  lemma {:induction false} SumAtOfNone<K(!new)>(keys: seq<K>, p: K -> bool)
    ensures SumAt(keys, multiset{}, p) == 0
  {
    if keys != [] { SumAtOfNone(keys[..|keys| - 1], p); }
  }

  lemma {:induction false} SumAtCountsRows<K(!new)>(keys: seq<K>, rows: seq<K>, p: K -> bool)
    requires Distinct(keys) && forall k :: k in rows ==> k in keys
    ensures SumAt(keys, multiset(rows), p) == HowMany(rows, p)
  {
    if rows == [] {
      SumAtOfNone(keys, p);
    } else {
      var front, last := rows[..|rows| - 1], rows[|rows| - 1];
      assert rows == front + [last];
      SumAtCountsRows(keys, front, p);
      SumAtOfOneMore(keys, multiset(front), last, p);
    }
  }

  lemma {:induction false} SumIsSumAt<K(!new)>(buckets: seq<Bucket<K>>, m: multiset<K>, p: K -> bool)
    requires forall i :: 0 <= i < |buckets| ==> buckets[i].count == m[buckets[i].key]
    ensures Sum(buckets, p) == SumAt(Keys(buckets), m, p)
  {
    if buckets != [] {
      var front := buckets[..|buckets| - 1];
      SumIsSumAt(front, m, p);
      assert Keys(buckets)[..|buckets| - 1] == Keys(front);
    }
  }

  /** Summing a table over any set of keys counts the rows with such a key. */
  lemma {:induction false} SumCountsRows<K(!new)>(buckets: seq<Bucket<K>>, rows: seq<K>, leq: (K, K) -> bool, p: K -> bool)
    requires Tabulates(buckets, multiset(rows), leq)
    ensures Sum(buckets, p) == HowMany(rows, p)
  {
    SumIsSumAt(buckets, multiset(rows), p);
    forall k | k in rows ensures k in Keys(buckets) { assert k in multiset(rows); }
    SumAtCountsRows(Keys(buckets), rows, p);
  }

  lemma {:induction false} HowManyAll<K(!new)>(rows: seq<K>, p: K -> bool)
    requires forall k :: p(k)
    ensures HowMany(rows, p) == |rows|
  {
    if rows != [] { HowManyAll(rows[..|rows| - 1], p); }
  }

  // ----- The rows each form counts ----------------------------------------------------------------

  const CANCELLED := "CANCELLED"

  /** A current row of either service: what it is counted by and, with its id and creator, what decides who sees it.
   The cursors deliver rows newest first. */
  datatype CurrentRow = CurrentRow(id: string, createdBy: string, owningLob: string, instructionType: string, status: string)

  function Filter<T>(s: seq<T>, p: T -> bool): seq<T> {
    if s == [] then []
    else Filter(s[..|s| - 1], p) + if p(s[|s| - 1]) then [s[|s| - 1]] else []
  }

  function Statuses(s: seq<CurrentRow>): seq<string> { seq(|s|, i requires 0 <= i < |s| => s[i].status) }

  predicate Live(p: CurrentRow) { p.status != CANCELLED }

  /** The rows a summary is about: all of them, or those of one line of business. */
  function InLob(current: seq<CurrentRow>, owningLob: string): seq<CurrentRow> {
    Filter(current, (p: CurrentRow) => owningLob == "" || p.owningLob == owningLob)
  }

  lemma {:induction false} FilterKeeps<T>(s: seq<T>, p: T -> bool)
    ensures |Filter(s, p)| <= |s|
    ensures |Filter(s, p)| == |s| <==> forall i :: 0 <= i < |s| ==> p(s[i])
    ensures (forall i :: 0 <= i < |s| ==> p(s[i])) ==> Filter(s, p) == s
  {
    if s != [] {
      FilterKeeps(s[..|s| - 1], p);
      assert forall i :: 0 <= i < |s| - 1 ==> s[..|s| - 1][i] == s[i];
    }
  }

  lemma {:induction false} FilterAppend<T>(s: seq<T>, t: seq<T>, p: T -> bool)
    ensures Filter(s + t, p) == Filter(s, p) + Filter(t, p)
  {
    if t == [] {
      assert s + t == s;
    } else {
      assert (s + t)[..|s + t| - 1] == s + t[..|t| - 1];
      FilterAppend(s, t[..|t| - 1], p);
    }
  }

  lemma {:induction false} FilterStep<T>(s: seq<T>, i: nat, p: T -> bool)
    requires i < |s|
    ensures Filter(s[..i + 1], p) == if p(s[i]) then Filter(s[..i], p) + [s[i]] else Filter(s[..i], p)
  {
    assert s[..i + 1][..i] == s[..i];
  }

  lemma {:induction false} FilterEmpty<T>(s: seq<T>, p: T -> bool)
    ensures Filter(s, p) == [] <==> forall i :: 0 <= i < |s| ==> !p(s[i])
  {
    if s != [] {
      FilterEmpty(s[..|s| - 1], p);
      assert forall i :: 0 <= i < |s| - 1 ==> s[..|s| - 1][i] == s[i];
    }
  }

  /** What the scoped form counts. */
  function ScopedRows(current: seq<CurrentRow>, owningLob: string, canView: CurrentRow -> bool): seq<CurrentRow> {
    Filter(Filter(Take(InLob(current, owningLob), SUMMARY_LIMIT), Live), canView)
  }

  /** What the aggregation counts. */
  function AggregatedRows(current: seq<CurrentRow>, owningLob: string): seq<CurrentRow> {
    Filter(InLob(current, owningLob), Live)
  }

  /** Every live row is among the newest 10,000 rows and visible to the caller. */
  ghost predicate SeesEveryLiveRow(current: seq<CurrentRow>, owningLob: string, canView: CurrentRow -> bool) {
    var rows := InLob(current, owningLob);
    forall i :: 0 <= i < |rows| && Live(rows[i]) ==> i < SUMMARY_LIMIT && canView(rows[i])
  }

  lemma {:induction false} FilterMembers<T>(s: seq<T>, p: T -> bool, q: T -> bool)
    ensures (forall r :: r in Filter(s, p) ==> q(r)) <==> forall i :: 0 <= i < |s| && p(s[i]) ==> q(s[i])
  {
    if s != [] {
      FilterMembers(s[..|s| - 1], p, q);
      assert forall i :: 0 <= i < |s| - 1 ==> s[..|s| - 1][i] == s[i];
    }
  }

  lemma {:induction false} ScopedCountsAllIff(current: seq<CurrentRow>, owningLob: string, canView: CurrentRow -> bool)
    ensures |ScopedRows(current, owningLob, canView)| <= |AggregatedRows(current, owningLob)|
    ensures SeesEveryLiveRow(current, owningLob, canView) ==> ScopedRows(current, owningLob, canView) == AggregatedRows(current, owningLob)
    ensures |ScopedRows(current, owningLob, canView)| == |AggregatedRows(current, owningLob)| ==> SeesEveryLiveRow(current, owningLob, canView)
  {
    var rows := InLob(current, owningLob);
    var newest := Take(rows, SUMMARY_LIMIT);
    var older := rows[|newest|..];
    assert rows == newest + older;
    FilterAppend(newest, older, Live);
    FilterEmpty(older, Live);
    FilterKeeps(Filter(newest, Live), canView);
    FilterMembers(newest, Live, canView);
    var live := Filter(newest, Live);
    assert (forall r :: r in live ==> canView(r)) <==> forall i :: 0 <= i < |live| ==> canView(live[i]);
    assert forall i :: |newest| <= i < |rows| ==> rows[i] == older[i - |newest|];
    assert forall i :: 0 <= i < |newest| ==> rows[i] == newest[i];
  }

  // ----- The same rows by position ---------------------------------------------------------------------

  /** The rows at the chosen positions, in order. */
  function Pick(s: seq<CurrentRow>, chosen: set<nat>): seq<CurrentRow> {
    if s == [] then []
    else Pick(s[..|s| - 1], chosen) + if |s| - 1 in chosen then [s[|s| - 1]] else []
  }

  ghost function Chosen(s: seq<CurrentRow>, at: set<nat>): set<nat> { set i: nat | i < |s| && i in at }

  ghost function WithStatus(s: seq<CurrentRow>, at: set<nat>, status: string): set<nat> {
    set i: nat | i < |s| && i in at && s[i].status == status
  }

  ghost function WithType(s: seq<CurrentRow>, at: set<nat>, kind: string): set<nat> {
    set i: nat | i < |s| && i in at && s[i].instructionType == kind
  }

  ghost function WithCell(s: seq<CurrentRow>, at: set<nat>, c: Cell): set<nat> {
    set i: nat | i < |s| && i in at && s[i].instructionType == c.0 && s[i].status == c.1
  }

  lemma {:induction false} PickLength(s: seq<CurrentRow>, chosen: set<nat>)
    ensures |Pick(s, chosen)| == |Chosen(s, chosen)|
  {
    if s != [] {
      var front := s[..|s| - 1];
      PickLength(front, chosen);
      OneMore(Chosen(front, chosen), Chosen(s, chosen), |s| - 1);
    }
  }

  lemma {:induction false} PickStatuses(s: seq<CurrentRow>, chosen: set<nat>, k: string)
    ensures multiset(Statuses(Pick(s, chosen)))[k] == |WithStatus(s, chosen, k)|
  {
    if s != [] {
      var front, last := s[..|s| - 1], s[|s| - 1];
      PickStatuses(front, chosen, k);
      OneMore(WithStatus(front, chosen, k), WithStatus(s, chosen, k), |s| - 1);
      if |s| - 1 in chosen {
        assert Statuses(Pick(front, chosen) + [last]) == Statuses(Pick(front, chosen)) + [last.status];
        OneAdded(Statuses(Pick(front, chosen)), last.status, k);
      } else {
        assert Pick(s, chosen) == Pick(front, chosen);
      }
    }
  }

  lemma {:induction false} PickTypes(s: seq<CurrentRow>, chosen: set<nat>, k: string)
    ensures multiset(Types(Pick(s, chosen)))[k] == |WithType(s, chosen, k)|
  {
    if s != [] {
      var front, last := s[..|s| - 1], s[|s| - 1];
      PickTypes(front, chosen, k);
      OneMore(WithType(front, chosen, k), WithType(s, chosen, k), |s| - 1);
      if |s| - 1 in chosen {
        assert Types(Pick(front, chosen) + [last]) == Types(Pick(front, chosen)) + [last.instructionType];
        OneAdded(Types(Pick(front, chosen)), last.instructionType, k);
      } else {
        assert Pick(s, chosen) == Pick(front, chosen);
      }
    }
  }

  lemma {:induction false} PickCells(s: seq<CurrentRow>, chosen: set<nat>, c: Cell)
    ensures multiset(Cells(Pick(s, chosen)))[c] == |WithCell(s, chosen, c)|
  {
    if s != [] {
      var front, last := s[..|s| - 1], s[|s| - 1];
      PickCells(front, chosen, c);
      OneMore(WithCell(front, chosen, c), WithCell(s, chosen, c), |s| - 1);
      if |s| - 1 in chosen {
        assert Cells(Pick(front, chosen) + [last]) == Cells(Pick(front, chosen)) + [(last.instructionType, last.status)];
        OneAdded(Cells(Pick(front, chosen)), (last.instructionType, last.status), c);
      } else {
        assert Pick(s, chosen) == Pick(front, chosen);
      }
    }
  }

  lemma {:induction false} OneMore(before: set<nat>, after: set<nat>, n: nat)
    requires n !in before && after - {n} == before
    ensures |after| == |before| + if n in after then 1 else 0
  {
    if n in after { assert after == before + {n}; } else { assert after == before; }
  }

  lemma {:induction false} OneAdded<K>(s: seq<K>, x: K, k: K)
    ensures multiset(s + [x])[k] == multiset(s)[k] + if x == k then 1 else 0
  {
  }

  lemma {:induction false} FilterIsPicked(s: seq<CurrentRow>, p: CurrentRow -> bool, at: set<nat>)
    requires forall i: nat :: i < |s| ==> (i in at <==> p(s[i]))
    ensures Filter(s, p) == Pick(s, at)
    decreases |s|
  {
    if s != [] { FilterIsPicked(s[..|s| - 1], p, at); }
  }

  lemma {:induction false} PickAgain(s: seq<CurrentRow>, chosen: set<nat>, p: CurrentRow -> bool, at: set<nat>)
    requires forall i: nat :: i < |s| ==> (i in at <==> i in chosen && p(s[i]))
    ensures Filter(Pick(s, chosen), p) == Pick(s, at)
    decreases |s|
  {
    if s != [] {
      var n, front, last := |s| - 1, s[..|s| - 1], s[|s| - 1];
      PickAgain(front, chosen, p, at);
      FilterAppend(Pick(front, chosen), if n in chosen then [last] else [], p);
      assert [last][..0] == [];
    }
  }

  /** How many of the chosen positions come before position n. */
  ghost function Before(chosen: set<nat>, n: nat): nat { |set i: nat | i < n && i in chosen| }

  lemma {:induction false} PickFirst(s: seq<CurrentRow>, chosen: set<nat>, limit: nat, at: set<nat>)
    requires forall i: nat :: i < |s| ==> (i in at <==> i in chosen && Before(chosen, i) < limit)
    ensures Take(Pick(s, chosen), limit) == Pick(s, at)
    decreases |s|
  {
    if s != [] {
      var n, front := |s| - 1, s[..|s| - 1];
      PickFirst(front, chosen, limit, at);
      PickLength(front, chosen);
      assert Chosen(front, chosen) == set i: nat | i < n && i in chosen;
    }
  }

  /** The positions of one line of business, or all of them. */
  ghost function LobAt(current: seq<CurrentRow>, owningLob: string): set<nat> {
    set i: nat | i < |current| && (owningLob == "" || current[i].owningLob == owningLob)
  }

  lemma {:induction false} InLobIsPicked(current: seq<CurrentRow>, owningLob: string)
    ensures InLob(current, owningLob) == Pick(current, LobAt(current, owningLob))
  {
    FilterIsPicked(current, (p: CurrentRow) => owningLob == "" || p.owningLob == owningLob, LobAt(current, owningLob));
  }

  /** Where the rows are that the aggregation of payments counts. */
  ghost function LiveAt(current: seq<CurrentRow>, owningLob: string): set<nat> {
    set i: nat | i < |current| && (owningLob == "" || current[i].owningLob == owningLob) && current[i].status != "CANCELLED"
  }

  lemma {:induction false} AggregatedIsPicked(current: seq<CurrentRow>, owningLob: string)
    ensures AggregatedRows(current, owningLob) == Pick(current, LiveAt(current, owningLob))
  {
    InLobIsPicked(current, owningLob);
    PickAgain(current, LobAt(current, owningLob), Live, LiveAt(current, owningLob));
  }

  /** Where the rows are that the scoped form counts: the visible live ones among the newest 10,000. */
  ghost function ScopedAt(current: seq<CurrentRow>, owningLob: string, canView: CurrentRow -> bool): set<nat> {
    set i: nat | i < |current| && (owningLob == "" || current[i].owningLob == owningLob)
      && Before(LobAt(current, owningLob), i) < 10_000 && current[i].status != "CANCELLED" && canView(current[i])
  }

  lemma {:induction false} ScopedIsPicked(current: seq<CurrentRow>, owningLob: string, canView: CurrentRow -> bool)
    ensures ScopedRows(current, owningLob, canView) == Pick(current, ScopedAt(current, owningLob, canView))
  {
    var lob := LobAt(current, owningLob);
    var first := set i: nat | i in lob && Before(lob, i) < 10_000;
    var live := set i: nat | i in first && i < |current| && Live(current[i]);
    InLobIsPicked(current, owningLob);
    PickFirst(current, lob, SUMMARY_LIMIT, first);
    PickAgain(current, first, Live, live);
    PickAgain(current, live, canView, ScopedAt(current, owningLob, canView));
  }

  /** The total and every bucket count positions of `current`, and no status that occurs there is missing. */
  ghost predicate CountsStatuses(total: nat, buckets: seq<Bucket<string>>, current: seq<CurrentRow>, at: set<nat>) {
    && total == |Chosen(current, at)|
    && (forall b :: b in buckets ==> b.count == |WithStatus(current, at, b.key)|)
    && (forall i: nat :: i < |current| && i in at ==> current[i].status in Keys(buckets))
  }

  ghost predicate CountsTypes(buckets: seq<Bucket<string>>, current: seq<CurrentRow>, at: set<nat>) {
    forall b :: b in buckets ==> b.count == |WithType(current, at, b.key)|
  }

  ghost predicate CountsCells(buckets: seq<Bucket<Cell>>, current: seq<CurrentRow>, at: set<nat>) {
    && (forall b :: b in buckets ==> b.count == |WithCell(current, at, b.key)|)
    && (forall i: nat :: i < |current| && i in at ==> (current[i].instructionType, current[i].status) in Keys(buckets))
  }

  lemma {:induction false} PickedIn(s: seq<CurrentRow>, at: set<nat>, i: nat)
    requires i < |s| && i in at
    ensures s[i] in Pick(s, at)
    decreases |s|
  {
    if i < |s| - 1 { PickedIn(s[..|s| - 1], at, i); }
  }

  lemma {:induction false} StatusesCounted(buckets: seq<Bucket<string>>, rows: seq<CurrentRow>, current: seq<CurrentRow>, at: set<nat>)
    requires Tabulates(buckets, multiset(Statuses(rows)), AtMost) && rows == Pick(current, at)
    ensures CountsStatuses(|rows|, buckets, current, at)
  {
    PickLength(current, at);
    forall b | b in buckets
      ensures b.count == |WithStatus(current, at, b.key)|
    {
      PickStatuses(current, at, b.key);
    }
    forall i: nat | i < |current| && i in at
      ensures current[i].status in Keys(buckets)
    {
      PickedIn(current, at, i);
      var j :| 0 <= j < |rows| && rows[j] == current[i];
      assert Statuses(rows)[j] == current[i].status;
      assert current[i].status in multiset(Statuses(rows));
    }
  }

  lemma {:induction false} CellsCounted(s: InstructionSummary, rows: seq<CurrentRow>, current: seq<CurrentRow>, at: set<nat>)
    requires IsInstructionSummary(s, rows) && rows == Pick(current, at)
    ensures CountsStatuses(s.total, s.byStatus, current, at)
    ensures CountsTypes(s.byType, current, at) && CountsCells(s.byTypeStatus, current, at)
  {
    StatusesCounted(s.byStatus, rows, current, at);
    forall b | b in s.byType
      ensures b.count == |WithType(current, at, b.key)|
    {
      PickTypes(current, at, b.key);
    }
    forall b | b in s.byTypeStatus
      ensures b.count == |WithCell(current, at, b.key)|
    {
      PickCells(current, at, b.key);
    }
    forall i: nat | i < |current| && i in at
      ensures (current[i].instructionType, current[i].status) in Keys(s.byTypeStatus)
    {
      PickedIn(current, at, i);
      var j :| 0 <= j < |rows| && rows[j] == current[i];
      assert Cells(rows)[j] == (current[i].instructionType, current[i].status);
      assert (current[i].instructionType, current[i].status) in multiset(Cells(rows));
    }
  }

  function Get<K>(counts: map<K, nat>, k: K): nat { if k in counts then counts[k] else 0 }

  lemma {:induction false} CountOneMore<K(!new)>(counts: map<K, nat>, m: multiset<K>, k: K)
    requires Counts(counts, m)
    ensures Counts(counts[k := Get(counts, k) + 1], m + multiset{k})
  {
  }

  // ----- Payments: by status ---------------------------------------------------------------------

  datatype PaymentSummary = PaymentSummary(total: nat, byStatus: seq<Bucket<string>>)

  ghost predicate IsPaymentSummary(s: PaymentSummary, rows: seq<CurrentRow>) {
    Tabulates(s.byStatus, multiset(Statuses(rows)), AtMost) && s.total == |rows|
  }

  function Always<K>(): K -> bool { k => true }

  lemma {:induction false} TotalOfStatuses(buckets: seq<Bucket<string>>, rows: seq<CurrentRow>)
    requires Tabulates(buckets, multiset(Statuses(rows)), AtMost)
    ensures Sum(buckets, Always()) == |rows|
  {
    SumCountsRows(buckets, Statuses(rows), AtMost, Always());
    HowManyAll(Statuses(rows), Always());
  }

  lemma {:induction false} StatusTallied(counts: map<string, nat>, rows: seq<CurrentRow>, r: CurrentRow)
    requires Counts(counts, multiset(Statuses(rows)))
    ensures Counts(counts[r.status := Get(counts, r.status) + 1], multiset(Statuses(rows + [r])))
  {
    CountOneMore(counts, multiset(Statuses(rows)), r.status);
    assert Statuses(rows + [r]) == Statuses(rows) + [r.status];
  }

  /** `$match`, `$group` by status, `$sort`, then the accumulating loop. */
  method AggregatedPaymentSummary(current: seq<CurrentRow>, owningLob: string) returns (summary: PaymentSummary)
    ensures IsPaymentSummary(summary, AggregatedRows(current, owningLob))
    ensures CountsStatuses(summary.total, summary.byStatus, current,
              set i: nat | i < |current| && (owningLob == "" || current[i].owningLob == owningLob) && current[i].status != "CANCELLED")
  {
    var matched := AggregatedRows(current, owningLob);
    var groups := GroupByStatus(matched);
    var total, byStatus := 0, [];
    for i := 0 to |groups|
      invariant total == Sum(groups[..i], Always()) && byStatus == groups[..i]
    {
      assert groups[..i + 1][..i] == groups[..i];
      total := total + groups[i].count;
      byStatus := byStatus + [groups[i]];
    }
    assert groups[..|groups|] == groups;
    TotalOfStatuses(groups, matched);
    summary := PaymentSummary(total, byStatus);
    AggregatedIsPicked(current, owningLob);
    StatusesCounted(byStatus, matched, current, LiveAt(current, owningLob));
  }

  method GroupByStatus(rows: seq<CurrentRow>) returns (groups: seq<Bucket<string>>)
    ensures Tabulates(groups, multiset(Statuses(rows)), AtMost)
  {
    var counts: map<string, nat> := map[];
    for i := 0 to |rows|
      invariant Counts(counts, multiset(Statuses(rows[..i])))
    {
      StatusTallied(counts, rows[..i], rows[i]);
      assert rows[..i + 1] == rows[..i] + [rows[i]];
      counts := counts[rows[i].status := Get(counts, rows[i].status) + 1];
    }
    assert rows[..|rows|] == rows;
    StringsAreOrdered();
    groups := ToBuckets(counts, multiset(Statuses(rows)), AtMost);
  }

  /** The repository's list: newest rows first, cut at the limit, cancelled rows dropped afterwards. */
  method ListLive(current: seq<CurrentRow>, owningLob: string, limit: nat) returns (records: seq<CurrentRow>)
    ensures records == Filter(Take(InLob(current, owningLob), limit), Live)
  {
    var cursor := Take(InLob(current, owningLob), limit);
    records := [];
    for i := 0 to |cursor|
      invariant records == Filter(cursor[..i], Live)
    {
      assert cursor[..i + 1][..i] == cursor[..i];
      if cursor[i].status != CANCELLED { records := records + [cursor[i]]; }
    }
    assert cursor[..|cursor|] == cursor;
  }

  /** One more row: it counts when it is live and visible. */
  lemma {:induction false} ScopedStep(records: seq<CurrentRow>, i: nat, canView: CurrentRow -> bool)
    requires i < |records|
    ensures var before := Filter(Filter(records[..i], Live), canView);
      Filter(Filter(records[..i + 1], Live), canView) ==
      if Live(records[i]) && canView(records[i]) then before + [records[i]] else before
  {
    FilterStep(records, i, Live);
    FilterAppend(Filter(records[..i], Live), [records[i]], canView);
    FilterStep([records[i]], 0, canView);
    assert [records[i]][..1] == [records[i]];
  }

  method ScopedPaymentSummary(current: seq<CurrentRow>, owningLob: string, canView: CurrentRow -> bool) returns (summary: PaymentSummary)
    ensures IsPaymentSummary(summary, ScopedRows(current, owningLob, canView))
    ensures CountsStatuses(summary.total, summary.byStatus, current, ScopedAt(current, owningLob, canView))
  {
    var records := ListLive(current, owningLob, SUMMARY_LIMIT);
    var byStatus := TallyVisible(records, canView);
    ghost var counted := ScopedRows(current, owningLob, canView);
    StringsAreOrdered();
    var buckets := ToBuckets(byStatus, multiset(Statuses(counted)), AtMost);
    TotalOfStatuses(buckets, counted);
    summary := PaymentSummary(Sum(buckets, Always()), buckets);
    ScopedIsPicked(current, owningLob, canView);
    StatusesCounted(buckets, counted, current, ScopedAt(current, owningLob, canView));
  }

  method TallyVisible(records: seq<CurrentRow>, canView: CurrentRow -> bool) returns (byStatus: map<string, nat>)
    ensures Counts(byStatus, multiset(Statuses(Filter(records, canView))))
  {
    byStatus := map[];
    for i := 0 to |records|
      invariant Counts(byStatus, multiset(Statuses(Filter(records[..i], canView))))
    {
      FilterStep(records, i, canView);
      if !canView(records[i]) { continue; }
      StatusTallied(byStatus, Filter(records[..i], canView), records[i]);
      byStatus := byStatus[records[i].status := Get(byStatus, records[i].status) + 1];
    }
    assert records[..|records|] == records;
  }

  /** The scoped summary is the aggregated one exactly when every live row is visible and among the newest 10,000. */
  lemma {:induction false} PaymentSummariesAgreeIff(current: seq<CurrentRow>, owningLob: string, canView: CurrentRow -> bool,
                                                    scoped: PaymentSummary, aggregated: PaymentSummary)
    requires IsPaymentSummary(scoped, ScopedRows(current, owningLob, canView))
    requires IsPaymentSummary(aggregated, AggregatedRows(current, owningLob))
    ensures scoped == aggregated <==> SeesEveryLiveRow(current, owningLob, canView)
  {
    ScopedCountsAllIff(current, owningLob, canView);
    if SeesEveryLiveRow(current, owningLob, canView) {
      StringsAreOrdered();
      CountsDetermineTables(scoped.byStatus, aggregated.byStatus, multiset(Statuses(AggregatedRows(current, owningLob))), AtMost);
    }
  }

  // ----- Instructions: by type and status -----------------------------------------------------------

  type Cell = (string, string)

  datatype InstructionSummary = InstructionSummary(total: nat, byTypeStatus: seq<Bucket<Cell>>,
                                                   byType: seq<Bucket<string>>, byStatus: seq<Bucket<string>>)

  function Cells(rows: seq<CurrentRow>): seq<Cell> {
    seq(|rows|, i requires 0 <= i < |rows| => (rows[i].instructionType, rows[i].status))
  }

  function Types(rows: seq<CurrentRow>): seq<string> { seq(|rows|, i requires 0 <= i < |rows| => rows[i].instructionType) }

  /** Every table counts the same rows: the cells, both marginals and the total. */
  ghost predicate IsInstructionSummary(s: InstructionSummary, rows: seq<CurrentRow>) {
    && Tabulates(s.byTypeStatus, multiset(Cells(rows)), PairAtMost)
    && Tabulates(s.byType, multiset(Types(rows)), AtMost)
    && Tabulates(s.byStatus, multiset(Statuses(rows)), AtMost)
    && s.total == |rows|
  }

  /** The total equals the sum over the cells and the sum over either marginal. */
  lemma {:induction false} TotalsEqualMarginals(s: InstructionSummary, rows: seq<CurrentRow>)
    requires IsInstructionSummary(s, rows)
    ensures s.total == Sum(s.byTypeStatus, Always()) == Sum(s.byType, Always()) == Sum(s.byStatus, Always())
  {
    SumCountsRows(s.byTypeStatus, Cells(rows), PairAtMost, Always());
    SumCountsRows(s.byType, Types(rows), AtMost, Always());
    SumCountsRows(s.byStatus, Statuses(rows), AtMost, Always());
    HowManyAll(Cells(rows), Always());
    HowManyAll(Types(rows), Always());
    HowManyAll(Statuses(rows), Always());
  }

  function TypeIs(t: string): Cell -> bool { (c: Cell) => c.0 == t }

  function StatusIs(t: string): Cell -> bool { (c: Cell) => c.1 == t }

  lemma {:induction false} MarginalOccurrences(rows: seq<CurrentRow>, t: string)
    ensures HowMany(Cells(rows), TypeIs(t)) == multiset(Types(rows))[t]
    ensures HowMany(Cells(rows), StatusIs(t)) == multiset(Statuses(rows))[t]
  {
    if rows != [] {
      var front, last := rows[..|rows| - 1], rows[|rows| - 1];
      MarginalOccurrences(front, t);
      assert Cells(rows)[..|rows| - 1] == Cells(front);
      assert Types(rows) == Types(front) + [last.instructionType];
      assert Statuses(rows) == Statuses(front) + [last.status];
    }
  }

  /** The marginal so far: each name with the sum of its cells. */
  ghost predicate Marginal(counts: map<string, nat>, cells: seq<Bucket<Cell>>, named: string -> Cell -> bool) {
    && (forall t :: t in counts ==> counts[t] > 0)
    && forall t :: Get(counts, t) == Sum(cells, named(t))
  }

  lemma {:induction false} MarginalCounts(counts: map<string, nat>, cells: seq<Bucket<Cell>>, rows: seq<CurrentRow>,
                                          named: string -> Cell -> bool, names: seq<string>)
    requires Tabulates(cells, multiset(Cells(rows)), PairAtMost) && Marginal(counts, cells, named)
    requires forall t :: HowMany(Cells(rows), named(t)) == multiset(names)[t]
    ensures Counts(counts, multiset(names))
  {
    forall t
      ensures Get(counts, t) == multiset(names)[t]
    {
      SumCountsRows(cells, Cells(rows), PairAtMost, named(t));
    }
    forall t
      ensures t in counts <==> t in multiset(names)
    {
      assert Get(counts, t) == multiset(names)[t];
    }
  }

  lemma {:induction false} MarginalStep(counts: map<string, nat>, cells: seq<Bucket<Cell>>, i: nat, named: string -> Cell -> bool, name: string)
    requires i < |cells| && cells[i].count > 0
    requires Marginal(counts, cells[..i], named)
    requires forall t :: named(t)(cells[i].key) <==> t == name
    ensures Marginal(counts[name := Get(counts, name) + cells[i].count], cells[..i + 1], named)
  {
    assert cells[..i + 1][..i] == cells[..i];
  }

  lemma {:induction false} CellTallied(counts: map<Cell, nat>, rows: seq<CurrentRow>, r: CurrentRow)
    requires Counts(counts, multiset(Cells(rows)))
    ensures var cell := (r.instructionType, r.status);
      Counts(counts[cell := Get(counts, cell) + 1], multiset(Cells(rows + [r])))
  {
    CountOneMore(counts, multiset(Cells(rows)), (r.instructionType, r.status));
    assert Cells(rows + [r]) == Cells(rows) + [(r.instructionType, r.status)];
  }

  method GroupByCell(rows: seq<CurrentRow>) returns (cells: seq<Bucket<Cell>>)
    ensures Tabulates(cells, multiset(Cells(rows)), PairAtMost)
  {
    var counts: map<Cell, nat> := map[];
    for i := 0 to |rows|
      invariant Counts(counts, multiset(Cells(rows[..i])))
    {
      var cell := (rows[i].instructionType, rows[i].status);
      CellTallied(counts, rows[..i], rows[i]);
      assert rows[..i + 1] == rows[..i] + [rows[i]];
      counts := counts[cell := Get(counts, cell) + 1];
    }
    assert rows[..|rows|] == rows;
    PairsAreOrdered();
    cells := ToBuckets(counts, multiset(Cells(rows)), PairAtMost);
  }

  /** The loop over the cells that adds up the total and both marginals. */
  method FromCells(cells: seq<Bucket<Cell>>, ghost rows: seq<CurrentRow>) returns (summary: InstructionSummary)
    requires Tabulates(cells, multiset(Cells(rows)), PairAtMost)
    ensures IsInstructionSummary(summary, rows)
  {
    var total := 0;
    var byType: map<string, nat>, byStatus: map<string, nat> := map[], map[];
    for i := 0 to |cells|
      invariant total == Sum(cells[..i], Always())
      invariant Marginal(byType, cells[..i], TypeIs) && Marginal(byStatus, cells[..i], StatusIs)
    {
      var cell := cells[i];
      assert Keys(cells)[i] == cell.key;
      MarginalStep(byType, cells, i, TypeIs, cell.key.0);
      MarginalStep(byStatus, cells, i, StatusIs, cell.key.1);
      assert cells[..i + 1][..i] == cells[..i];
      total := total + cell.count;
      byType := byType[cell.key.0 := Get(byType, cell.key.0) + cell.count];
      byStatus := byStatus[cell.key.1 := Get(byStatus, cell.key.1) + cell.count];
    }
    assert cells[..|cells|] == cells;
    forall t
      ensures HowMany(Cells(rows), TypeIs(t)) == multiset(Types(rows))[t]
      ensures HowMany(Cells(rows), StatusIs(t)) == multiset(Statuses(rows))[t]
    {
      MarginalOccurrences(rows, t);
    }
    MarginalCounts(byType, cells, rows, TypeIs, Types(rows));
    MarginalCounts(byStatus, cells, rows, StatusIs, Statuses(rows));
    SumCountsRows(cells, Cells(rows), PairAtMost, Always());
    HowManyAll(Cells(rows), Always());
    StringsAreOrdered();
    var types := ToBuckets(byType, multiset(Types(rows)), AtMost);
    var statuses := ToBuckets(byStatus, multiset(Statuses(rows)), AtMost);
    summary := InstructionSummary(total, cells, types, statuses);
  }

  /** The unscoped form counts every current row, cancelled ones included. */
  method AggregatedInstructionSummary(current: seq<CurrentRow>, owningLob: string) returns (summary: InstructionSummary)
    ensures IsInstructionSummary(summary, InLob(current, owningLob))
    ensures var at := set i: nat | i < |current| && (owningLob == "" || current[i].owningLob == owningLob);
      && CountsStatuses(summary.total, summary.byStatus, current, at)
      && CountsTypes(summary.byType, current, at) && CountsCells(summary.byTypeStatus, current, at)
  {
    var cells := GroupByCell(InLob(current, owningLob));
    summary := FromCells(cells, InLob(current, owningLob));
    InLobIsPicked(current, owningLob);
    CellsCounted(summary, InLob(current, owningLob), current, LobAt(current, owningLob));
  }

  /** The scoped form skips cancelled rows and rows the caller may not view. */
  method ScopedInstructionSummary(current: seq<CurrentRow>, owningLob: string, canView: CurrentRow -> bool) returns (summary: InstructionSummary)
    ensures IsInstructionSummary(summary, ScopedRows(current, owningLob, canView))
    ensures var at := ScopedAt(current, owningLob, canView);
      && CountsStatuses(summary.total, summary.byStatus, current, at)
      && CountsTypes(summary.byType, current, at) && CountsCells(summary.byTypeStatus, current, at)
  {
    var records := Take(InLob(current, owningLob), SUMMARY_LIMIT);
    var byTypeStatus: map<Cell, nat> := map[];
    ghost var counted: seq<CurrentRow> := [];
    for i := 0 to |records|
      invariant counted == Filter(Filter(records[..i], Live), canView)
      invariant Counts(byTypeStatus, multiset(Cells(counted)))
    {
      ScopedStep(records, i, canView);
      if records[i].status == CANCELLED { continue; }
      if !canView(records[i]) { continue; }
      var key := (records[i].instructionType, records[i].status);
      CellTallied(byTypeStatus, counted, records[i]);
      byTypeStatus := byTypeStatus[key := Get(byTypeStatus, key) + 1];
      counted := counted + [records[i]];
    }
    assert records[..|records|] == records;
    PairsAreOrdered();
    var cells := ToBuckets(byTypeStatus, multiset(Cells(counted)), PairAtMost);
    summary := FromCells(cells, counted);
    ScopedIsPicked(current, owningLob, canView);
    CellsCounted(summary, counted, current, ScopedAt(current, owningLob, canView));
  }

  predicate NoneCancelled(current: seq<CurrentRow>, owningLob: string) {
    forall i :: 0 <= i < |InLob(current, owningLob)| ==> Live(InLob(current, owningLob)[i])
  }

  /** The two forms agree exactly when every row is visible, among the newest 10,000 and not cancelled. */
  lemma {:induction false} InstructionSummariesAgreeIff(current: seq<CurrentRow>, owningLob: string, canView: CurrentRow -> bool,
                                                        scoped: InstructionSummary, aggregated: InstructionSummary)
    requires IsInstructionSummary(scoped, ScopedRows(current, owningLob, canView))
    requires IsInstructionSummary(aggregated, InLob(current, owningLob))
    ensures scoped == aggregated <==> (SeesEveryLiveRow(current, owningLob, canView) && NoneCancelled(current, owningLob))
  {
    var rows := InLob(current, owningLob);
    ScopedCountsAllIff(current, owningLob, canView);
    FilterKeeps(rows, Live);
    if SeesEveryLiveRow(current, owningLob, canView) && Filter(rows, Live) == rows {
      StringsAreOrdered();
      PairsAreOrdered();
      CountsDetermineTables(scoped.byTypeStatus, aggregated.byTypeStatus, multiset(Cells(rows)), PairAtMost);
      CountsDetermineTables(scoped.byType, aggregated.byType, multiset(Types(rows)), AtMost);
      CountsDetermineTables(scoped.byStatus, aggregated.byStatus, multiset(Statuses(rows)), AtMost);
    }
  }
}
