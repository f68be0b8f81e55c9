/** audit_console/repository.py: the merged, bounded feed of security events. */
module AuditFeed {
  import opened Wrappers
  import opened Lists
  import opened Text

  datatype Source = InstructionEvents | PaymentEvents

  /** A stored event; timestamps are stored as text and a missing one reads as "". */
  datatype Document = Document(id: string, timestamp: string, severity: string)

  datatype Event = Event(domain: Source, document: Document)

  const PER_SOURCE_LIMIT := 500

  predicate NotNewer(a: Event, b: Event) { AtMost(a.document.timestamp, b.document.timestamp) }

  // ----- Stable descending sort --------------------------------------------------------------

  /** In front of the first event that is not newer, so behind none of its equals. */
  function InsertDesc(e: Event, s: seq<Event>): seq<Event> {
    if s == [] || NotNewer(s[0], e) then [e] + s else [s[0]] + InsertDesc(e, s[1..])
  }

  /** `sort(reverse=True)` by timestamp: newest first, equal timestamps in their given order. */
  function SortDesc(s: seq<Event>): seq<Event> {
    if s == [] then [] else InsertDesc(s[0], SortDesc(s[1..]))
  }

  predicate Descending(s: seq<Event>) {
    forall i, j :: 0 <= i < j < |s| ==> NotNewer(s[j], s[i])
  }

  /** The events of one timestamp, in order. */
  function AtTime(s: seq<Event>, timestamp: string): seq<Event> {
    if s == [] then []
    else (if s[0].document.timestamp == timestamp then [s[0]] else []) + AtTime(s[1..], timestamp)
  }

  lemma {:induction false} NotNewerTotal(a: Event, b: Event)
    ensures NotNewer(a, a) && (NotNewer(a, b) || NotNewer(b, a))
  {
    AtMostTotal(a.document.timestamp, b.document.timestamp);
  }

  lemma {:induction false} NotNewerTransitive(a: Event, b: Event, c: Event)
    requires NotNewer(a, b) && NotNewer(b, c)
    ensures NotNewer(a, c)
  {
    AtMostTransitive(a.document.timestamp, b.document.timestamp, c.document.timestamp);
  }

  /** A head not older than a descending tail's head keeps the whole descending. */
  lemma {:induction false} DescendingCons(e: Event, s: seq<Event>)
    requires Descending(s) && (s != [] ==> NotNewer(s[0], e))
    ensures Descending([e] + s)
  {
    forall j | 0 <= j < |s| ensures NotNewer(s[j], e) {
      if j > 0 { NotNewerTransitive(s[j], s[0], e); }
    }
  }

  lemma {:induction false} InsertDescSorts(e: Event, s: seq<Event>)
    requires Descending(s)
    ensures Descending(InsertDesc(e, s))
    ensures multiset(InsertDesc(e, s)) == multiset{e} + multiset(s)
  {
    if s == [] || NotNewer(s[0], e) {
      DescendingCons(e, s);
    } else {
      InsertDescSorts(e, s[1..]);
      NotNewerTotal(e, s[0]);
      assert s == [s[0]] + s[1..];
      var rest := InsertDesc(e, s[1..]);
      assert rest[0] == e || rest[0] == s[1];
      DescendingCons(s[0], rest);
    }
  }

  lemma {:induction false} InsertDescIsStable(e: Event, s: seq<Event>, timestamp: string)
    ensures AtTime(InsertDesc(e, s), timestamp) == AtTime([e] + s, timestamp)
  {
    if s == [] || NotNewer(s[0], e) {
    } else {
      InsertDescIsStable(e, s[1..], timestamp);
      NotNewerTotal(s[0], e);
      assert ([e] + s)[1..] == s && ([e] + s[1..])[1..] == s[1..];
      var rest := InsertDesc(e, s[1..]);
      assert ([s[0]] + rest)[1..] == rest;
    }
  }

  /** SortDesc is the stable descending sort: ordered, a permutation, and ties keep their order. */
  lemma {:induction false} SortDescIsStableSort(s: seq<Event>)
    ensures Descending(SortDesc(s))
    ensures multiset(SortDesc(s)) == multiset(s)
    ensures forall timestamp :: AtTime(SortDesc(s), timestamp) == AtTime(s, timestamp)
  {
    if s != [] {
      SortDescIsStableSort(s[1..]);
      var rest := SortDesc(s[1..]);
      InsertDescSorts(s[0], rest);
      assert s == [s[0]] + s[1..];
      forall timestamp
        ensures AtTime(SortDesc(s), timestamp) == AtTime(s, timestamp)
      {
        InsertDescIsStable(s[0], rest, timestamp);
        assert ([s[0]] + rest)[1..] == rest;
      }
    }
  }

  // ----- Merging two descending feeds ----------------------------------------------------------

  /** Newest head first; on a tie the instruction feed `a` goes first. */
  function MergeDesc(a: seq<Event>, b: seq<Event>): (m: seq<Event>)
    ensures |m| == |a| + |b|
  {
    if a == [] then b
    else if b == [] then a
    else if NotNewer(b[0], a[0]) then [a[0]] + MergeDesc(a[1..], b)
    else [b[0]] + MergeDesc(a, b[1..])
  }

  lemma {:induction false} SortedIsFixed(s: seq<Event>)
    requires Descending(s)
    ensures SortDesc(s) == s
  {
    if s != [] { SortedIsFixed(s[1..]); }
  }

  lemma {:induction false} InsertIntoMerge(e: Event, a: seq<Event>, b: seq<Event>)
    requires Descending([e] + a) && Descending(b)
    ensures InsertDesc(e, MergeDesc(a, b)) == MergeDesc([e] + a, b)
    decreases |b|
  {
    assert ([e] + a)[1..] == a;
    if a != [] { assert NotNewer(([e] + a)[1], ([e] + a)[0]); }
    if b == [] {
    } else if NotNewer(b[0], e) {
    } else {
      NotNewerTotal(b[0], e);
      if a != [] && NotNewer(b[0], a[0]) {
        NotNewerTransitive(b[0], a[0], e);
        assert false;
      }
      InsertIntoMerge(e, a, b[1..]);
      var rest := MergeDesc(a, b[1..]);
      assert MergeDesc(a, b) == [b[0]] + rest;
      assert ([b[0]] + rest)[1..] == rest;
    }
  }

  lemma {:induction false} InsertMergesFirst(e: Event, a: seq<Event>, b: seq<Event>)
    requires Descending(a) && Descending(b)
    ensures InsertDesc(e, MergeDesc(a, b)) == MergeDesc(InsertDesc(e, a), b)
    decreases |a| + |b|
  {
    if a == [] || NotNewer(a[0], e) {
      DescendingCons(e, a);
      InsertIntoMerge(e, a, b);
    } else if b == [] {
    } else if NotNewer(b[0], a[0]) {
      InsertMergesFirst(e, a[1..], b);
      InsertUnderHead(e, a[0], MergeDesc(a[1..], b));
      MergeUnderFirst(a[0], InsertDesc(e, a[1..]), b);
    } else {
      NotNewerTotal(a[0], e);
      NotNewerTotal(b[0], a[0]);
      if NotNewer(b[0], e) {
        NotNewerTransitive(b[0], e, a[0]);
        assert false;
      }
      InsertMergesFirst(e, a, b[1..]);
      InsertUnderHead(e, b[0], MergeDesc(a, b[1..]));
    }
  }

  lemma {:induction false} InsertUnderHead(e: Event, head: Event, s: seq<Event>)
    requires !NotNewer(head, e)
    ensures InsertDesc(e, [head] + s) == [head] + InsertDesc(e, s)
  {
    assert ([head] + s)[1..] == s;
  }

  lemma {:induction false} MergeUnderFirst(head: Event, s: seq<Event>, b: seq<Event>)
    requires b != [] && NotNewer(b[0], head)
    ensures MergeDesc([head] + s, b) == [head] + MergeDesc(s, b)
  {
    assert ([head] + s)[1..] == s;
  }

  /** Sorting two collections together is merging the two sorted feeds. */
  lemma {:induction false} SortOfBoth(s: seq<Event>, t: seq<Event>)
    ensures SortDesc(s + t) == MergeDesc(SortDesc(s), SortDesc(t))
  {
    if s == [] {
      assert s + t == t;
    } else {
      assert (s + t)[1..] == s[1..] + t;
      SortOfBoth(s[1..], t);
      SortDescIsStableSort(s[1..]);
      SortDescIsStableSort(t);
      InsertMergesFirst(s[0], SortDesc(s[1..]), SortDesc(t));
    }
  }

  /** How many of the first n merged events come from the first feed. */
  function FromFirst(a: seq<Event>, b: seq<Event>, n: nat): (k: nat)
    ensures k <= n && k <= |a| && (n <= |a| + |b| ==> n - k <= |b|)
  {
    if n == 0 || a == [] then 0
    else if b == [] then Min(n, |a|)
    else if NotNewer(b[0], a[0]) then 1 + FromFirst(a[1..], b, n - 1)
    else FromFirst(a, b[1..], n - 1)
  }

  /** The first n merged events. */
  function Page(a: seq<Event>, b: seq<Event>, n: nat): seq<Event> { Take(MergeDesc(a, b), n) }

  predicate FirstLeads(a: seq<Event>, b: seq<Event>) { a != [] && (b == [] || NotNewer(b[0], a[0])) }

  lemma {:induction false} PageTakesFirst(a: seq<Event>, b: seq<Event>, n: nat)
    requires FirstLeads(a, b) && n > 0
    ensures Page(a, b, n) == [a[0]] + Page(a[1..], b, n - 1)
    ensures FromFirst(a, b, n) == 1 + FromFirst(a[1..], b, n - 1)
  {
    var rest := MergeDesc(a[1..], b);
    if b == [] { assert rest == a[1..] && a == [a[0]] + a[1..]; }
    assert MergeDesc(a, b) == [a[0]] + rest;
    assert Take([a[0]] + rest, n) == [a[0]] + Take(rest, n - 1);
  }

  lemma {:induction false} PageTakesSecond(a: seq<Event>, b: seq<Event>, n: nat)
    requires b != [] && !FirstLeads(a, b) && n > 0
    ensures Page(a, b, n) == [b[0]] + Page(a, b[1..], n - 1)
    ensures FromFirst(a, b, n) == FromFirst(a, b[1..], n - 1)
  {
    var rest := MergeDesc(a, b[1..]);
    if a == [] { assert rest == b[1..] && b == [b[0]] + b[1..]; }
    assert MergeDesc(a, b) == [b[0]] + rest;
    assert Take([b[0]] + rest, n) == [b[0]] + Take(rest, n - 1);
  }

  lemma {:induction false} TakeTail(s: seq<Event>, p: nat)
    requires s != [] && p > 0
    ensures Take(s, p) != [] && Take(s, p)[0] == s[0] && Take(s, p)[1..] == Take(s[1..], p - 1)
  {
  }

  lemma {:induction false} PrefixTakesFirst(a: seq<Event>, b: seq<Event>, p: nat, q: nat, n: nat)
    requires FirstLeads(a, b) && p > 0 && n > 0
    ensures Page(Take(a, p), Take(b, q), n) == [a[0]] + Page(Take(a[1..], p - 1), Take(b, q), n - 1)
  {
    TakeTail(a, p);
    PageTakesFirst(Take(a, p), Take(b, q), n);
  }

  lemma {:induction false} PrefixTakesSecond(a: seq<Event>, b: seq<Event>, p: nat, q: nat, n: nat)
    requires b != [] && !FirstLeads(a, b) && q > 0 && n > 0
    ensures Page(Take(a, p), Take(b, q), n) == [b[0]] + Page(Take(a, p), Take(b[1..], q - 1), n - 1)
  {
    TakeTail(b, q);
    PageTakesSecond(Take(a, p), Take(b, q), n);
  }

  /** The first n merged events need only so many of each feed as they contain. */
  lemma {:induction false} PageOfPrefixes(a: seq<Event>, b: seq<Event>, p: nat, q: nat, n: nat)
    requires n <= |a| + |b|
    requires FromFirst(a, b, n) <= p && n - FromFirst(a, b, n) <= q
    ensures Page(Take(a, p), Take(b, q), n) == Page(a, b, n)
    decreases n
  {
    if n == 0 {
    } else if FirstLeads(a, b) {
      PageTakesFirst(a, b, n);
      PageOfPrefixes(a[1..], b, p - 1, q, n - 1);
      PrefixTakesFirst(a, b, p, q, n);
    } else {
      PageTakesSecond(a, b, n);
      PageOfPrefixes(a, b[1..], p, q - 1, n - 1);
      PrefixTakesSecond(a, b, p, q, n);
    }
  }

  // ----- The repository query ---------------------------------------------------------------------

  datatype Stores = Stores(instructionEvents: seq<Document>, paymentEvents: seq<Document>) {
    function Of(source: Source): seq<Document> { if source == InstructionEvents then instructionEvents else paymentEvents }
  }

  /** The events one query matches; an empty severity matches all. */
  function Matching(documents: seq<Document>, source: Source, severity: string): seq<Event> {
    if documents == [] then [] else
    var rest := Matching(documents[1..], source, severity);
    if severity == "" || documents[0].severity == severity then [Event(source, documents[0])] + rest else rest
  }

  /** One source's events, newest first. */
  function SourceFeed(db: Stores, source: Source, severity: string): seq<Event> {
    SortDesc(Matching(db.Of(source), source, severity))
  }

  /** All matching events of both sources in one descending feed: what the query stands for. */
  function FullFeed(db: Stores, severity: string): seq<Event> {
    SortDesc(Matching(db.Of(InstructionEvents), InstructionEvents, severity) + Matching(db.Of(PaymentEvents), PaymentEvents, severity))
  }

  function CountFrom(s: seq<Event>, source: Source): nat {
    if s == [] then 0 else (if s[0].domain == source then 1 else 0) + CountFrom(s[1..], source)
  }

  /** The first `limit` events of the full feed hold at most 500 of either source. */
  predicate NeitherSourceCut(db: Stores, severity: string, limit: nat) {
    var page := Take(FullFeed(db, severity), limit);
    CountFrom(page, InstructionEvents) <= 500 && CountFrom(page, PaymentEvents) <= 500
  }

  predicate AllFrom(s: seq<Event>, source: Source) { forall i :: 0 <= i < |s| ==> s[i].domain == source }

  lemma {:induction false} MatchingIsFrom(documents: seq<Document>, source: Source, severity: string)
    ensures AllFrom(Matching(documents, source, severity), source)
  {
    if documents != [] { MatchingIsFrom(documents[1..], source, severity); }
  }

  /** How often an event of a source is among the matching ones: as often as its document is stored, if the severity fits. */
  lemma {:induction false} MatchingHolds(documents: seq<Document>, source: Source, severity: string, e: Event)
    ensures multiset(Matching(documents, source, severity))[e]
      == if e.domain == source && (severity == "" || e.document.severity == severity) then multiset(documents)[e.document] else 0
  {
    if documents != [] {
      MatchingHolds(documents[1..], source, severity, e);
      assert documents == [documents[0]] + documents[1..];
      var rest := Matching(documents[1..], source, severity);
      assert multiset([Event(source, documents[0])] + rest) == multiset{Event(source, documents[0])} + multiset(rest);
    }
  }

  /** How often the stores hold the event's document. */
  function Stored(db: Stores, e: Event): nat {
    if e.domain == InstructionEvents then multiset(db.instructionEvents)[e.document] else multiset(db.paymentEvents)[e.document]
  }

  /**
   What is listed: every stored document of the wanted severity exactly once for each time it is
   stored, of one source or of both, newest first by the order of the timestamps' text.
   */
  lemma {:induction false} FeedsHold(db: Stores, source: Source, severity: string, e: Event)
    ensures multiset(SourceFeed(db, source, severity))[e]
      == if e.domain == source && (severity == "" || e.document.severity == severity) then Stored(db, e) else 0
    ensures multiset(FullFeed(db, severity))[e] == if severity == "" || e.document.severity == severity then Stored(db, e) else 0
    ensures forall i, j :: 0 <= i < j < |FullFeed(db, severity)| ==>
      AtMost(FullFeed(db, severity)[j].document.timestamp, FullFeed(db, severity)[i].document.timestamp)
  {
    var i, p := Matching(db.instructionEvents, InstructionEvents, severity), Matching(db.paymentEvents, PaymentEvents, severity);
    MatchingHolds(db.instructionEvents, InstructionEvents, severity, e);
    MatchingHolds(db.paymentEvents, PaymentEvents, severity, e);
    SortDescIsStableSort(Matching(db.Of(source), source, severity));
    SortDescIsStableSort(i + p);
    assert multiset(i + p) == multiset(i) + multiset(p);
    assert Descending(FullFeed(db, severity));
  }

  lemma {:induction false} SortedIsFrom(s: seq<Event>, source: Source)
    requires AllFrom(s, source)
    ensures AllFrom(SortDesc(s), source)
  {
    SortDescIsStableSort(s);
    forall i | 0 <= i < |SortDesc(s)| ensures SortDesc(s)[i].domain == source {
      assert SortDesc(s)[i] in multiset(SortDesc(s));
      assert SortDesc(s)[i] in s;
    }
  }

  lemma {:induction false} CountOfCons(e: Event, s: seq<Event>, source: Source)
    ensures CountFrom([e] + s, source) == (if e.domain == source then 1 else 0) + CountFrom(s, source)
  {
    assert ([e] + s)[1..] == s;
  }

  /** A page of the merge holds as many events of a source as the merge took from its feed. */
  lemma {:induction false} PageCounts(a: seq<Event>, b: seq<Event>, n: nat)
    requires AllFrom(a, InstructionEvents) && AllFrom(b, PaymentEvents) && n <= |a| + |b|
    ensures CountFrom(Page(a, b, n), InstructionEvents) == FromFirst(a, b, n)
    ensures CountFrom(Page(a, b, n), PaymentEvents) == n - FromFirst(a, b, n)
    decreases n
  {
    if n == 0 {
    } else if FirstLeads(a, b) {
      PageTakesFirst(a, b, n);
      PageCounts(a[1..], b, n - 1);
      CountOfCons(a[0], Page(a[1..], b, n - 1), InstructionEvents);
      CountOfCons(a[0], Page(a[1..], b, n - 1), PaymentEvents);
    } else {
      PageTakesSecond(a, b, n);
      PageCounts(a, b[1..], n - 1);
      CountOfCons(b[0], Page(a, b[1..], n - 1), InstructionEvents);
      CountOfCons(b[0], Page(a, b[1..], n - 1), PaymentEvents);
    }
  }

  /** Cutting both feeds at p leaves a page intact exactly when the page holds at most p of each. */
  lemma {:induction false} CutIsHarmlessIff(a: seq<Event>, b: seq<Event>, p: nat, n: nat)
    requires AllFrom(a, InstructionEvents) && AllFrom(b, PaymentEvents)
    ensures Page(Take(a, p), Take(b, p), n) == Page(a, b, n) <==>
      CountFrom(Page(a, b, n), InstructionEvents) <= p && CountFrom(Page(a, b, n), PaymentEvents) <= p
  {
    var m := Min(n, |a| + |b|);
    assert Page(a, b, n) == Page(a, b, m);
    PageCounts(a, b, m);
    var a', b' := Take(a, p), Take(b, p);
    var m' := Min(n, |a'| + |b'|);
    assert Page(a', b', n) == Page(a', b', m') == Page(a', b', m);
    PageCounts(a', b', m');
    if FromFirst(a, b, m) <= p && m - FromFirst(a, b, m) <= p { PageOfPrefixes(a, b, p, p, m); }
  }

  /** The newest p events survive any cut at p. */
  lemma {:induction false} NewestSurvive(a: seq<Event>, b: seq<Event>, p: nat, n: nat)
    ensures Take(Page(Take(a, p), Take(b, p), n), p) == Take(Page(a, b, n), p)
  {
    var k := Min(n, p);
    var m := Min(k, |a| + |b|);
    PageOfPrefixes(a, b, p, p, m);
    assert Take(Page(a, b, n), p) == Page(a, b, m);
    assert Take(Page(Take(a, p), Take(b, p), n), p) == Page(Take(a, p), Take(b, p), m);
  }

  lemma {:induction false} TakeDescends(s: seq<Event>, n: nat)
    requires Descending(s)
    ensures Descending(Take(s, n)) && SortDesc(Take(s, n)) == Take(s, n)
  {
    SortedIsFixed(Take(s, n));
  }

  lemma {:induction false} FullFeedIsMerge(db: Stores, severity: string)
    ensures FullFeed(db, severity) == MergeDesc(SourceFeed(db, InstructionEvents, severity), SourceFeed(db, PaymentEvents, severity))
  {
    SortOfBoth(Matching(db.Of(InstructionEvents), InstructionEvents, severity), Matching(db.Of(PaymentEvents), PaymentEvents, severity));
  }

  lemma {:induction false} SourceFeedDescends(db: Stores, source: Source, severity: string)
    ensures Descending(SourceFeed(db, source, severity)) && AllFrom(SourceFeed(db, source, severity), source)
  {
    var matching := Matching(db.Of(source), source, severity);
    SortDescIsStableSort(matching);
    MatchingIsFrom(db.Of(source), source, severity);
    SortedIsFrom(matching, source);
  }

  /** What the two bounded cursors and the final sort return, as a page of a merge. */
  lemma {:induction false} TwoSourcePage(db: Stores, severity: string, limit: nat)
    ensures var p := Min(limit, PER_SOURCE_LIMIT);
      var a, b := SourceFeed(db, InstructionEvents, severity), SourceFeed(db, PaymentEvents, severity);
      Take(SortDesc(Take(a, p) + Take(b, p)), limit) == Page(Take(a, p), Take(b, p), limit)
  {
    var p := Min(limit, PER_SOURCE_LIMIT);
    var a, b := SourceFeed(db, InstructionEvents, severity), SourceFeed(db, PaymentEvents, severity);
    SourceFeedDescends(db, InstructionEvents, severity);
    SourceFeedDescends(db, PaymentEvents, severity);
    TakeDescends(a, p);
    TakeDescends(b, p);
    SortOfBoth(Take(a, p), Take(b, p));
  }

  /** The bounded query against the full feed: the newest 500 always agree, the page exactly when no source is cut. */
  lemma {:induction false} BoundedFeedAgrees(db: Stores, severity: string, limit: nat)
    ensures var p := Min(limit, PER_SOURCE_LIMIT);
      var page := Take(SortDesc(Take(SourceFeed(db, InstructionEvents, severity), p) + Take(SourceFeed(db, PaymentEvents, severity), p)), limit);
      && Take(page, PER_SOURCE_LIMIT) == Take(FullFeed(db, severity), p)
      && (page == Take(FullFeed(db, severity), limit) <==> NeitherSourceCut(db, severity, limit))
  {
    var p := Min(limit, PER_SOURCE_LIMIT);
    var a, b := SourceFeed(db, InstructionEvents, severity), SourceFeed(db, PaymentEvents, severity);
    TwoSourcePage(db, severity, limit);
    FullFeedIsMerge(db, severity);
    SourceFeedDescends(db, InstructionEvents, severity);
    SourceFeedDescends(db, PaymentEvents, severity);
    BoundedPageAgrees(a, b, limit);
  }

  lemma {:induction false} BoundedPageAgrees(a: seq<Event>, b: seq<Event>, limit: nat)
    requires AllFrom(a, InstructionEvents) && AllFrom(b, PaymentEvents)
    ensures var p := Min(limit, PER_SOURCE_LIMIT);
      var page := Page(Take(a, p), Take(b, p), limit);
      && Take(page, PER_SOURCE_LIMIT) == Page(a, b, p)
      && (page == Page(a, b, limit) <==>
          CountFrom(Page(a, b, limit), InstructionEvents) <= PER_SOURCE_LIMIT && CountFrom(Page(a, b, limit), PaymentEvents) <= PER_SOURCE_LIMIT)
  {
    var p := Min(limit, PER_SOURCE_LIMIT);
    var page := Page(Take(a, p), Take(b, p), limit);
    NewestSurvive(a, b, p, limit);
    CutIsHarmlessIff(a, b, p, limit);
    var m := Min(limit, |a| + |b|);
    assert Page(a, b, limit) == Page(a, b, m);
    PageCounts(a, b, m);
    assert Take(page, PER_SOURCE_LIMIT) == Take(page, p);
    assert Take(Page(a, b, limit), p) == Page(a, b, p);
  }

  /** A cursor: `find(query).sort("timestamp", -1).limit(n)`, for a positive n. */
  function Cursor(db: Stores, source: Source, severity: string, n: nat): seq<Event>
    requires n > 0
  {
    Take(SourceFeed(db, source, severity), n)
  }

  method ListEvents(db: Stores, source: Option<Source>, severity: string, limit: nat) returns (events: seq<Event>)
    requires limit > 0
    ensures source.Some? ==> events == Take(SourceFeed(db, source.value, severity), limit)
    ensures source.None? ==>
      events == Take(MergeDesc(Take(SourceFeed(db, InstructionEvents, severity), Min(limit, 500)),
                               Take(SourceFeed(db, PaymentEvents, severity), Min(limit, 500))), limit)
    ensures source.None? ==> Take(events, 500) == Take(FullFeed(db, severity), Min(limit, 500))
    ensures source.None? ==> (events == Take(FullFeed(db, severity), limit) <==> NeitherSourceCut(db, severity, limit))
  {
    var sources := if source.Some? then [source.value] else [InstructionEvents, PaymentEvents];
    var perSourceLimit := if source.Some? then limit else Min(limit, PER_SOURCE_LIMIT);
    var documents := [];
    for i := 0 to |sources|
      invariant documents == CursorsOf(db, sources[..i], severity, perSourceLimit)
    {
      var cursor := Cursor(db, sources[i], severity, perSourceLimit);
      for j := 0 to |cursor|
        invariant documents == CursorsOf(db, sources[..i], severity, perSourceLimit) + cursor[..j]
      {
        documents := documents + [cursor[j]];
      }
      assert sources[..i + 1][..i] == sources[..i];
      assert cursor[..|cursor|] == cursor;
    }
    assert sources[..|sources|] == sources;
    CursorsOfSources(db, source, severity, perSourceLimit);
    if source.Some? {
      SourceFeedDescends(db, source.value, severity);
      TakeDescends(SourceFeed(db, source.value, severity), limit);
    } else {
      TwoSourcePage(db, severity, limit);
      BoundedFeedAgrees(db, severity, limit);
    }
    documents := SortDesc(documents);
    events := Take(documents, limit);
  }

  /** The cursors of several sources, one after the other. */
  function CursorsOf(db: Stores, sources: seq<Source>, severity: string, n: nat): seq<Event>
    requires n > 0
  {
    if sources == [] then []
    else CursorsOf(db, sources[..|sources| - 1], severity, n) + Cursor(db, sources[|sources| - 1], severity, n)
  }

  lemma {:induction false} CursorsOfSources(db: Stores, source: Option<Source>, severity: string, n: nat)
    requires n > 0
    ensures source.Some? ==> CursorsOf(db, [source.value], severity, n) == Cursor(db, source.value, severity, n)
    ensures CursorsOf(db, [InstructionEvents, PaymentEvents], severity, n)
      == Cursor(db, InstructionEvents, severity, n) + Cursor(db, PaymentEvents, severity, n)
  {
    assert [InstructionEvents, PaymentEvents][..1] == [InstructionEvents];
    assert [InstructionEvents][..0] == [];
    assert CursorsOf(db, [InstructionEvents], severity, n) == Cursor(db, InstructionEvents, severity, n);
    if source.Some? { assert [source.value][..0] == []; }
  }
}
