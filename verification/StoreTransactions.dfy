/**
 Concurrent append_version calls, each inside its own MongoDB transaction together with the
 insert of its security event. A transaction reads from the snapshot taken by its first
 statement; a write to a row that another transaction has written since the snapshot, or is
 still holding, fails with a write conflict (first updater wins).
 */
module StoreTransactions {
  import opened Wrappers
  import opened VersionStore
  import opened SecurityEvents

  type CallId = nat

  /** Where a call stands; `Found(v)` and later phases remember the open row of its snapshot. */
  datatype Phase =
    | Begun
    | Found(version: nat)
    | Closed(version: nat)
    | Inserted(version: nat)
    | Committed(version: nat)
    | NotFoundError
    | ConcurrentModificationError
    | Aborted

  datatype Call<+P> = Call(id: string, payload: P, now: Clock, phase: Phase)

  /** `events` holds one entry per committed authorized-mutation event document. */
  datatype State<P> = State(rows: Rows<P>, events: multiset<Key>, calls: map<CallId, Call<P>>)

  datatype Action<+P> =
    | Create(id: string, payload: P, now: Clock)
    | Begin(call: CallId, id: string, payload: P, now: Clock)
    | Find(call: CallId)
    | Close(call: CallId)
    | Insert(call: CallId)
    | Commit(call: CallId)
    | Abort(call: CallId)

  function Empty<P>(): State<P> { State(map[], multiset{}, map[]) }

  predicate HoldsRow<P>(s: State<P>, c: CallId, id: string, v: nat) {
    && c in s.calls && s.calls[c].id == id
    && (s.calls[c].phase == Closed(v) || s.calls[c].phase == Inserted(v))
  }

  predicate HasCommitted<P>(s: State<P>, c: CallId, id: string, v: nat) {
    c in s.calls && s.calls[c].id == id && s.calls[c].phase == Committed(v)
  }

  /** update_one on row `v` conflicts: written since the snapshot, or held by another transaction. */
  predicate CloseConflicts<P>(s: State<P>, c: CallId, id: string, v: nat) {
    || Key(id, v) !in s.rows || s.rows[Key(id, v)].validOut.Some?
    || exists d | d in s.calls :: d != c && HoldsRow(s, d, id, v)
  }

  /** insert_one of row `v + 1` conflicts: committed already, or pending in another transaction. */
  predicate InsertConflicts<P>(s: State<P>, c: CallId, id: string, v: nat) {
    || Key(id, v + 1) in s.rows
    || exists d | d in s.calls :: d != c && s.calls[d].id == id && s.calls[d].phase == Inserted(v)
  }

  function WithPhase<P>(s: State<P>, c: CallId, phase: Phase): State<P>
    requires c in s.calls
  {
    s.(calls := s.calls[c := s.calls[c].(phase := phase)])
  }

  /** The event document written in the same transaction, for subjects that are recorded at all. */
  function Record<P>(s: State<P>, k: Key, payload: P, audited: P -> bool): State<P> {
    if audited(payload) then s.(events := s.events + multiset{k}) else s
  }

  predicate Finished(phase: Phase) {
    phase.Committed? || phase.NotFoundError? || phase.ConcurrentModificationError? || phase.Aborted?
  }

  /** One step of one call; an action that is not enabled changes nothing. */
  ghost function Step<P>(s: State<P>, a: Action<P>, audited: P -> bool): State<P> {
    match a
    case Create(id, payload, now) =>
      if Key(id, 1) in s.rows then s
      else Record(s.(rows := s.rows[Key(id, 1) := Row(now, None, payload)]), Key(id, 1), payload, audited)
    case Begin(c, id, payload, now) =>
      if c in s.calls then s else s.(calls := s.calls[c := Call(id, payload, now, Begun)])
    case Find(c) =>
      if c !in s.calls || s.calls[c].phase != Begun then s
      else var open := OpenVersion(s.rows, s.calls[c].id);
           WithPhase(s, c, if open.Some? then Found(open.value) else NotFoundError)
    case Close(c) =>
      if c !in s.calls || !s.calls[c].phase.Found? then s
      else var v := s.calls[c].phase.version;
           if CloseConflicts(s, c, s.calls[c].id, v) then WithPhase(s, c, ConcurrentModificationError)
           else WithPhase(s, c, Closed(v))
    case Insert(c) =>
      if c !in s.calls || !s.calls[c].phase.Closed? then s
      else var v := s.calls[c].phase.version;
           if InsertConflicts(s, c, s.calls[c].id, v) then WithPhase(s, c, ConcurrentModificationError)
           else WithPhase(s, c, Inserted(v))
    case Commit(c) =>
      if c !in s.calls || !s.calls[c].phase.Inserted? || Key(s.calls[c].id, s.calls[c].phase.version) !in s.rows then s
      else var call, v := s.calls[c], s.calls[c].phase.version;
           Record(WithPhase(s.(rows := AppendRow(s.rows, call.id, v, call.payload, call.now)), c, Committed(v)),
                  Key(call.id, v + 1), call.payload, audited)
    case Abort(c) =>
      if c !in s.calls || Finished(s.calls[c].phase) then s else WithPhase(s, c, Aborted)
  }

  ghost function Run<P>(s: State<P>, actions: seq<Action<P>>, audited: P -> bool): State<P> {
    if actions == [] then s
    else Step(Run(s, actions[..|actions| - 1], audited), actions[|actions| - 1], audited)
  }

  // ----- What every step keeps -------------------------------------------------

  /** A call that holds row `v` holds the open row, and nobody else does. */
  ghost predicate LocksAreExclusive<P>(s: State<P>) {
    && (forall c, id, v: nat :: HoldsRow(s, c, id, v) ==> IsOpen(s.rows, id, v))
    && (forall c, d, id, v: nat :: HoldsRow(s, c, id, v) && HoldsRow(s, d, id, v) ==> c == d)
  }

  /** A committed call owns the closing of the row it read. */
  ghost predicate CommitsAreUnique<P>(s: State<P>) {
    && (forall c, id, v: nat :: HasCommitted(s, c, id, v) ==>
          Key(id, v) in s.rows && s.rows[Key(id, v)].validOut.Some?)
    && (forall c, d, id, v: nat :: HasCommitted(s, c, id, v) && HasCommitted(s, d, id, v) ==> c == d)
  }

  ghost predicate Inv<P>(s: State<P>, audited: P -> bool) {
    WellFormed(s.rows) && LocksAreExclusive(s) && CommitsAreUnique(s) && OneEventPerRow(s.rows, s.events, audited)
  }

  lemma {:induction false} CommitKeepsLocks<P>(s: State<P>, c: CallId, audited: P -> bool)
    requires Inv(s, audited) && c in s.calls && s.calls[c].phase.Inserted?
    ensures var after := Step(s, Commit(c), audited); LocksAreExclusive(after) && CommitsAreUnique(after)
  {
    var call, v := s.calls[c], s.calls[c].phase.version;
    assert HoldsRow(s, c, call.id, v);
    AppendKeepsChains(s.rows, call.id, v, call.payload, call.now);
    var after := Step(s, Commit(c), audited);
    forall d, id, w: nat | HoldsRow(after, d, id, w)
      ensures HoldsRow(s, d, id, w) && IsOpen(after.rows, id, w)
    {
      assert HoldsRow(s, d, id, w);
      if id == call.id { OnlyOneOpen(s.rows, id, v, w); }
    }
    assert forall d, id, w: nat :: HasCommitted(after, d, id, w) ==>
      HasCommitted(s, d, id, w) || (d == c && id == call.id && w == v);
  }

  lemma {:induction false} CommitKeepsInv<P>(s: State<P>, c: CallId, audited: P -> bool)
    requires Inv(s, audited) && c in s.calls && s.calls[c].phase.Inserted?
    ensures Inv(Step(s, Commit(c), audited), audited)
  {
    CommitKeepsLocks(s, c, audited);
    var call, v := s.calls[c], s.calls[c].phase.version;
    assert HoldsRow(s, c, call.id, v);
    AppendKeepsChains(s.rows, call.id, v, call.payload, call.now);
    var after := Step(s, Commit(c), audited);
    forall k
      ensures after.events[k] == if k in after.rows && audited(after.rows[k].payload) then 1 else 0
    {
    }
  }

  lemma {:induction false} QuietStep<P>(s: State<P>, a: Action<P>, audited: P -> bool)
    requires Inv(s, audited) && !a.Create? && !a.Commit?
    ensures Inv(Step(s, a, audited), audited)
  {
    QuietStepTakes(s, a, audited);
    PhaseChangeKeepsInv(s, Step(s, a, audited), a.call, audited);
  }

  lemma {:induction false} QuietStepTakes<P>(s: State<P>, a: Action<P>, audited: P -> bool)
    requires !a.Create? && !a.Commit?
    ensures var after := Step(s, a, audited);
      && after.rows == s.rows && after.events == s.events
      && (forall c, id, v: nat :: HasCommitted(after, c, id, v) ==> HasCommitted(s, c, id, v))
      && (forall c, id, v: nat :: HoldsRow(after, c, id, v) ==> HoldsRow(s, c, id, v) || Takes(s, a, c, id, v))
  {
    if a.Insert? && a.call in s.calls && s.calls[a.call].phase.Closed? {
      assert HoldsRow(s, a.call, s.calls[a.call].id, s.calls[a.call].phase.version);
    }
  }

  predicate Takes<P>(s: State<P>, a: Action<P>, c: CallId, id: string, v: nat) {
    !a.Create? && c == a.call && !CloseConflicts(s, c, id, v)
  }

  /** Steps that write no row: locks are only taken on free open rows, commits are not forged. */
  lemma {:induction false} PhaseChangeKeepsInv<P>(s: State<P>, after: State<P>, taker: CallId, audited: P -> bool)
    requires Inv(s, audited) && after.rows == s.rows && after.events == s.events
    requires forall c, id, v: nat :: HasCommitted(after, c, id, v) ==> HasCommitted(s, c, id, v)
    requires forall c, id, v: nat :: HoldsRow(after, c, id, v) ==>
               HoldsRow(s, c, id, v) || (c == taker && !CloseConflicts(s, c, id, v))
    ensures Inv(after, audited)
  {
  }

  lemma {:induction false} StepKeepsInv<P>(s: State<P>, a: Action<P>, audited: P -> bool)
    requires Inv(s, audited)
    ensures Inv(Step(s, a, audited), audited)
  {
    var after := Step(s, a, audited);
    match a
    case Create(id, payload, now) =>
      if Key(id, 1) !in s.rows {
        InsertKeepsChains(s.rows, id, payload, now);
        assert forall c, id, v: nat :: HoldsRow(after, c, id, v) ==> HoldsRow(s, c, id, v);
        assert forall c, id, v: nat :: HasCommitted(after, c, id, v) ==> HasCommitted(s, c, id, v);
      }
    case Commit(c) =>
      if c in s.calls && s.calls[c].phase.Inserted? { CommitKeepsInv(s, c, audited); }
    case _ => QuietStep(s, a, audited);
  }

  lemma {:induction false} RunKeepsInv<P>(s: State<P>, actions: seq<Action<P>>, audited: P -> bool)
    requires Inv(s, audited)
    ensures Inv(Run(s, actions, audited), audited)
    decreases |actions|
  {
    if actions != [] {
      RunKeepsInv(s, actions[..|actions| - 1], audited);
      StepKeepsInv(Run(s, actions[..|actions| - 1], audited), actions[|actions| - 1], audited);
    }
  }

  // ----- What holds of every run --------------------------------------------------

  /**
   For any number of concurrent calls, crashes included: an entity's committed rows are exactly
   1..n with only row n open, and events and recorded rows are in bijection.
   */
  lemma {:induction false} EveryRunKeepsTheStore<P>(actions: seq<Action<P>>, audited: P -> bool, id: string, v: nat)
    returns (n: nat)
    ensures var s := Run(Empty(), actions, audited);
      && (forall k :: s.events[k] == if k in s.rows && audited(s.rows[k].payload) then 1 else 0)
      && (Key(id, v) in s.rows ==>
            (forall w: nat :: Key(id, w) in s.rows <==> 1 <= w <= n)
            && (forall w: nat :: IsOpen(s.rows, id, w) <==> w == n))
  {
    RunKeepsInv(Empty(), actions, audited);
    var s := Run(Empty(), actions, audited);
    n := 0;
    if Key(id, v) in s.rows {
      n := VersionsAreOneToN(s.rows, id, v);
      assert WellFormedAt(s.rows, Key(id, v));
    }
  }

  /** Of all calls that read the same open row, at most one ever commits. */
  lemma {:induction false} OneWinnerPerRow<P>(actions: seq<Action<P>>, audited: P -> bool,
                                              c: CallId, d: CallId, id: string, v: nat)
    requires var s := Run(Empty(), actions, audited); HasCommitted(s, c, id, v) && HasCommitted(s, d, id, v)
    ensures c == d
  {
    RunKeepsInv(Empty(), actions, audited);
  }

  /** A call that has read row `v` and has not taken it. */
  predicate Racing<P>(s: State<P>, c: CallId, id: string, v: nat) {
    && c in s.calls && s.calls[c].id == id
    && (s.calls[c].phase == Found(v) || s.calls[c].phase.ConcurrentModificationError? || s.calls[c].phase.Aborted?)
  }

  /** Once the row it read is closed, a racing call can only fail; it never writes. */
  lemma {:induction false} LoserNeverWrites<P>(s: State<P>, a: Action<P>, audited: P -> bool,
                                               c: CallId, id: string, v: nat)
    requires Inv(s, audited) && Racing(s, c, id, v)
    requires Key(id, v) in s.rows && s.rows[Key(id, v)].validOut.Some?
    ensures var after := Step(s, a, audited);
      && Racing(after, c, id, v) && Key(id, v) in after.rows && after.rows[Key(id, v)].validOut.Some?
      && (!a.Create? && !a.Begin? && a.call == c ==> after.rows == s.rows && after.events == s.events)
      && (a == Close(c) && s.calls[c].phase == Found(v) ==> after.calls[c].phase == ConcurrentModificationError)
  {
    ClosedRowsStay(s, a, audited, Key(id, v));
  }

  lemma {:induction false} LosersNeverCommit<P>(s: State<P>, actions: seq<Action<P>>, audited: P -> bool,
                                                winner: CallId, c: CallId, id: string, v: nat)
    requires Inv(s, audited) && HasCommitted(s, winner, id, v) && Racing(s, c, id, v)
    ensures var end := Run(s, actions, audited);
      Racing(end, c, id, v) && Key(id, v) in end.rows && end.rows[Key(id, v)].validOut.Some?
    decreases |actions|
  {
    if actions != [] {
      LosersNeverCommit(s, actions[..|actions| - 1], audited, winner, c, id, v);
      RunKeepsInv(s, actions[..|actions| - 1], audited);
      LoserNeverWrites(Run(s, actions[..|actions| - 1], audited), actions[|actions| - 1], audited, c, id, v);
    }
  }

  /** A call that has read row `v` in its snapshot, whatever it has done with it since. */
  predicate HasRead<P>(s: State<P>, c: CallId, id: string, v: nat) {
    && c in s.calls && s.calls[c].id == id
    && s.calls[c].phase in {Found(v), Closed(v), Inserted(v), Committed(v)}
  }

  /**
   The moment one call commits, every other call that read the same open row has lost: from then
   on, in every continuation, it neither commits nor writes.
   */
  lemma {:induction false} EveryOtherLoses<P>(actions: seq<Action<P>>, more: seq<Action<P>>, audited: P -> bool,
                                              winner: CallId, c: CallId, id: string, v: nat)
    requires var s := Run(Empty(), actions, audited); HasCommitted(s, winner, id, v) && HasRead(s, c, id, v) && c != winner
    ensures Racing(Run(Empty(), actions, audited), c, id, v)
    ensures var end := Run(Run(Empty(), actions, audited), more, audited);
      Racing(end, c, id, v) && !HasCommitted(end, c, id, v) && Key(id, v) in end.rows && end.rows[Key(id, v)].validOut.Some?
  {
    var s := Run(Empty(), actions, audited);
    RunKeepsInv(Empty(), actions, audited);
    assert !IsOpen(s.rows, id, v) && !HoldsRow(s, c, id, v) && !HasCommitted(s, c, id, v);
    LosersNeverCommit(s, more, audited, winner, c, id, v);
  }

  predicate AtAnEnd(phase: Phase) {
    match phase
    case Committed(_) => true
    case NotFoundError => true
    case ConcurrentModificationError => true
    case Aborted => true
    case _ => false
  }

  /**
   A call that has committed, aborted or failed is over: whatever happens afterwards, an abort
   included, it keeps that outcome.
   */
  lemma {:induction false} OutcomesAreFinal<P>(s: State<P>, actions: seq<Action<P>>, audited: P -> bool, c: CallId)
    requires c in s.calls && AtAnEnd(s.calls[c].phase)
    ensures var end := Run(s, actions, audited); c in end.calls && end.calls[c] == s.calls[c]
    decreases |actions|
  {
    if actions != [] {
      OutcomesAreFinal(s, actions[..|actions| - 1], audited, c);
      OutcomeStays(Run(s, actions[..|actions| - 1], audited), actions[|actions| - 1], audited, c);
    }
  }

  lemma {:induction false} OutcomeStays<P>(s: State<P>, a: Action<P>, audited: P -> bool, c: CallId)
    requires c in s.calls && AtAnEnd(s.calls[c].phase)
    ensures var after := Step(s, a, audited); c in after.calls && after.calls[c] == s.calls[c]
  {
  }

  /** A call that starts reading finds its entity's open row, or fails for want of one; it writes nothing. */
  lemma {:induction false} FindReadsTheOpenRow<P>(s: State<P>, c: CallId, audited: P -> bool)
    requires Inv(s, audited) && c in s.calls && s.calls[c].phase == Begun
    ensures var after := Step(s, Find(c), audited);
      && after.rows == s.rows && after.events == s.events && c in after.calls
      && (forall v: nat :: IsOpen(s.rows, s.calls[c].id, v) ==> after.calls[c].phase == Found(v))
      && ((forall v: nat :: !IsOpen(s.rows, s.calls[c].id, v)) ==> after.calls[c].phase == NotFoundError)
  {
    var id := s.calls[c].id;
    forall v: nat | IsOpen(s.rows, id, v)
      ensures OpenVersion(s.rows, id) == Some(v)
    {
      OnlyOneOpen(s.rows, id, v, OpenVersion(s.rows, id).value);
    }
  }

  /** A closed row never changes again, and no row disappears or changes its start or content. */
  ghost predicate KeepsRow<P>(before: Rows<P>, after: Rows<P>, k: Key)
    requires k in before
  {
    && k in after
    && after[k].validIn == before[k].validIn && after[k].payload == before[k].payload
    && (before[k].validOut.Some? ==> after[k] == before[k])
  }

  lemma {:induction false} ClosedRowsStay<P>(s: State<P>, a: Action<P>, audited: P -> bool, k: Key)
    requires Inv(s, audited) && k in s.rows
    ensures KeepsRow(s.rows, Step(s, a, audited).rows, k)
  {
    if a.Commit? && a.call in s.calls && s.calls[a.call].phase.Inserted? {
      var call, v := s.calls[a.call], s.calls[a.call].phase.version;
      assert HoldsRow(s, a.call, call.id, v);
      AppendKeepsChains(s.rows, call.id, v, call.payload, call.now);
    }
  }

  lemma {:induction false} RowsStayForever<P>(s: State<P>, actions: seq<Action<P>>, audited: P -> bool, k: Key)
    requires Inv(s, audited) && k in s.rows
    ensures KeepsRow(s.rows, Run(s, actions, audited).rows, k)
    decreases |actions|
  {
    if actions != [] {
      RowsStayForever(s, actions[..|actions| - 1], audited, k);
      RunKeepsInv(s, actions[..|actions| - 1], audited);
      ClosedRowsStay(Run(s, actions[..|actions| - 1], audited), actions[|actions| - 1], audited, k);
    }
  }

  // ----- Time ------------------------------------------------------------------------

  /** Every commit of the run closes its row at or after that row's start. */
  ghost predicate CommitsInOrder<P>(actions: seq<Action<P>>, audited: P -> bool) {
    actions == [] || (CommitsInOrder(actions[..|actions| - 1], audited)
                      && InOrderAt(Run(Empty(), actions[..|actions| - 1], audited), actions[|actions| - 1]))
  }

  ghost predicate InOrderAt<P>(s: State<P>, a: Action<P>) {
    a.Commit? && a.call in s.calls && s.calls[a.call].phase.Inserted? ==>
      var call, k := s.calls[a.call], Key(s.calls[a.call].id, s.calls[a.call].phase.version);
      k in s.rows ==> s.rows[k].validIn <= call.now
  }

  ghost predicate AllStartsInOrder<P>(rows: Rows<P>) {
    forall id: string :: StartsInOrder(rows, id)
  }

  lemma {:induction false} CreateStartsInOrder<P>(s: State<P>, id: string, payload: P, now: Clock, audited: P -> bool)
    requires Inv(s, audited) && AllStartsInOrder(s.rows)
    ensures AllStartsInOrder(Step(s, Create(id, payload, now), audited).rows)
  {
    var after := Step(s, Create(id, payload, now), audited);
    if Key(id, 1) !in s.rows {
      assert Key(id, 2) !in s.rows by { if Key(id, 2) in s.rows { ContiguousBelow(s.rows, id, 2, 1); } }
      assert Key(id, 0) !in s.rows by { assert Key(id, 0) in s.rows ==> WellFormedAt(s.rows, Key(id, 0)); }
      forall other: string, v: nat
        ensures NextStartsLater(after.rows, other, v)
      {
        assert StartsInOrder(s.rows, other) && NextStartsLater(s.rows, other, v);
      }
    }
  }

  lemma {:induction false} CommitStartsInOrderIff<P>(s: State<P>, c: CallId, audited: P -> bool)
    requires Inv(s, audited) && AllStartsInOrder(s.rows) && c in s.calls && s.calls[c].phase.Inserted?
    ensures AllStartsInOrder(Step(s, Commit(c), audited).rows) <==> InOrderAt(s, Commit(c))
  {
    var after := Step(s, Commit(c), audited).rows;
    var call, v := s.calls[c], s.calls[c].phase.version;
    assert HoldsRow(s, c, call.id, v);
    AppendKeepsChains(s.rows, call.id, v, call.payload, call.now);
    if InOrderAt(s, Commit(c)) {
      forall other: string, w: nat
        ensures NextStartsLater(after, other, w)
      {
        assert StartsInOrder(s.rows, other) && NextStartsLater(s.rows, other, w);
        if other == call.id && Key(other, w) in after && Key(other, w + 1) in after {
          OnlyOneOpen(after, other, v + 1, w + 1);
        }
      }
    } else {
      assert !NextStartsLater(after, call.id, v);
      assert !StartsInOrder(after, call.id);
    }
  }

  lemma {:induction false} StepStartsInOrderIff<P>(s: State<P>, a: Action<P>, audited: P -> bool)
    requires Inv(s, audited) && AllStartsInOrder(s.rows)
    ensures AllStartsInOrder(Step(s, a, audited).rows) <==> InOrderAt(s, a)
  {
    if a.Create? {
      CreateStartsInOrder(s, a.id, a.payload, a.now, audited);
    } else if a.Commit? && a.call in s.calls && s.calls[a.call].phase.Inserted? {
      CommitStartsInOrderIff(s, a.call, audited);
    } else {
      assert Step(s, a, audited).rows == s.rows;
    }
  }

  lemma {:induction false} DisorderStays<P>(s: State<P>, a: Action<P>, audited: P -> bool)
    requires Inv(s, audited) && !AllStartsInOrder(s.rows)
    ensures !AllStartsInOrder(Step(s, a, audited).rows)
  {
    var id: string :| !StartsInOrder(s.rows, id);
    var v: nat :| !NextStartsLater(s.rows, id, v);
    ClosedRowsStay(s, a, audited, Key(id, v));
    ClosedRowsStay(s, a, audited, Key(id, v + 1));
    assert !NextStartsLater(Step(s, a, audited).rows, id, v);
    assert !StartsInOrder(Step(s, a, audited).rows, id);
  }

  lemma {:induction false} RunStartsInOrderIff<P>(actions: seq<Action<P>>, audited: P -> bool)
    ensures AllStartsInOrder(Run(Empty(), actions, audited).rows) <==> CommitsInOrder(actions, audited)
    decreases |actions|
  {
    if actions != [] {
      var front, last := actions[..|actions| - 1], actions[|actions| - 1];
      var s := Run(Empty(), front, audited);
      RunStartsInOrderIff(front, audited);
      RunKeepsInv(Empty(), front, audited);
      if AllStartsInOrder(s.rows) { StepStartsInOrderIff(s, last, audited); } else { DisorderStays(s, last, audited); }
    } else {
      forall id: string, v: nat
        ensures NextStartsLater(Empty<P>().rows, id, v)
      {
      }
    }
  }

  /** Over a whole run, every entity's intervals partition time exactly when every commit was in order. */
  lemma {:induction false} RunPartitionsTimeIff<P>(actions: seq<Action<P>>, audited: P -> bool)
    ensures var rows := Run(Empty(), actions, audited).rows;
      (forall id: string :: Key(id, 1) in rows ==> PartitionsTime(rows, id)) <==> CommitsInOrder(actions, audited)
  {
    var rows := Run(Empty(), actions, audited).rows;
    RunKeepsInv(Empty(), actions, audited);
    RunStartsInOrderIff(actions, audited);
    forall id: string
      ensures Key(id, 1) in rows ==> (PartitionsTime(rows, id) <==> StartsInOrder(rows, id))
      ensures Key(id, 1) !in rows ==> StartsInOrder(rows, id)
    {
      if Key(id, 1) in rows {
        PartitionIffStartsInOrder(rows, id);
      } else {
        forall v: nat
          ensures NextStartsLater(rows, id, v)
        {
          if Key(id, v + 1) in rows { ContiguousBelow(rows, id, v + 1, 1); }
        }
      }
    }
  }

  lemma {:induction false} RunConcat<P>(s: State<P>, first: seq<Action<P>>, second: seq<Action<P>>, audited: P -> bool)
    ensures Run(s, first + second, audited) == Run(Run(s, first, audited), second, audited)
    decreases |second|
  {
    if second == [] {
      assert first + second == first;
    } else {
      RunConcat(s, first, second[..|second| - 1], audited);
      assert (first + second)[..|first + second| - 1] == first + second[..|second| - 1];
    }
  }

  function AppendSteps<P>(c: CallId): seq<Action<P>> { [Find(c), Close(c), Insert(c), Commit(c)] }

  lemma {:induction false} RunSplits<P>(s: State<P>, actions: seq<Action<P>>, audited: P -> bool)
    requires actions != []
    ensures Run(s, actions, audited) == Run(Step(s, actions[0], audited), actions[1..], audited)
    decreases |actions|
  {
    if |actions| == 1 {
      assert actions[..0] == [];
    } else {
      var front := actions[..|actions| - 1];
      RunSplits(s, front, audited);
      assert front[1..] == actions[1..][..|actions| - 2];
    }
  }

  lemma {:induction false} RunFour<P>(s: State<P>, c: CallId, audited: P -> bool)
    ensures Run(s, AppendSteps(c), audited)
      == Step(Step(Step(Step(s, Find(c), audited), Close(c), audited), Insert(c), audited), Commit(c), audited)
  {
    var steps: seq<Action<P>> := AppendSteps(c);
    var s1 := Step(s, Find(c), audited);
    var s2 := Step(s1, Close(c), audited);
    RunSplits(s, steps, audited);
    assert steps[1..] == [Close(c), Insert(c), Commit(c)];
    RunSplits(s1, steps[1..], audited);
    assert steps[1..][1..] == [Insert(c), Commit(c)];
    RunSplits(s2, steps[1..][1..], audited);
    assert steps[1..][1..][1..] == [Commit(c)];
    RunSplits(Step(s2, Insert(c), audited), steps[1..][1..][1..], audited);
  }

  ghost predicate Unraced<P>(s: State<P>, c: CallId, id: string, v: nat) {
    c in s.calls && s.calls[c].id == id && IsOpen(s.rows, id, v) && forall d: CallId :: d != c ==> !HoldsRow(s, d, id, v)
  }

  lemma {:induction false} UnracedStep<P>(s: State<P>, c: CallId, id: string, v: nat, audited: P -> bool)
    requires WellFormed(s.rows) && Unraced(s, c, id, v)
    ensures s.calls[c].phase == Begun ==> Step(s, Find(c), audited) == WithPhase(s, c, Found(v))
    ensures s.calls[c].phase == Found(v) ==> Step(s, Close(c), audited) == WithPhase(s, c, Closed(v))
    ensures s.calls[c].phase == Closed(v) ==> Step(s, Insert(c), audited) == WithPhase(s, c, Inserted(v))
  {
    OnlyOneOpen(s.rows, id, v, OpenVersion(s.rows, id).value);
    assert WellFormedAt(s.rows, Key(id, v));
    assert forall d :: d in s.calls && s.calls[d].id == id && s.calls[d].phase == Inserted(v) ==> HoldsRow(s, d, id, v);
  }

  lemma {:induction false} StillUnraced<P>(s: State<P>, c: CallId, id: string, v: nat, phase: Phase)
    requires Unraced(s, c, id, v)
    ensures Unraced(WithPhase(s, c, phase), c, id, v)
  {
    forall d: CallId | d != c
      ensures !HoldsRow(WithPhase(s, c, phase), d, id, v)
    {
      assert !HoldsRow(s, d, id, v);
    }
  }

  lemma {:induction false} UnracedSteps<P>(s: State<P>, c: CallId, id: string, v: nat, audited: P -> bool)
    requires WellFormed(s.rows) && Unraced(s, c, id, v) && s.calls[c].phase == Begun
    ensures Step(Step(Step(s, Find(c), audited), Close(c), audited), Insert(c), audited) == WithPhase(s, c, Inserted(v))
  {
    var found, closed := WithPhase(s, c, Found(v)), WithPhase(s, c, Closed(v));
    UnracedStep(s, c, id, v, audited);
    StillUnraced(s, c, id, v, Found(v));
    UnracedStep(found, c, id, v, audited);
    assert WithPhase(found, c, Closed(v)) == closed;
    StillUnraced(s, c, id, v, Closed(v));
    UnracedStep(closed, c, id, v, audited);
    assert WithPhase(closed, c, Inserted(v)) == WithPhase(s, c, Inserted(v));
  }

  /** No spurious conflicts: a call nobody races appends exactly one version and its event. */
  lemma {:induction false} UncontendedAppendSucceeds<P>(s: State<P>, c: CallId, id: string, v: nat, audited: P -> bool)
    requires WellFormed(s.rows) && Unraced(s, c, id, v) && s.calls[c].phase == Begun
    ensures Appended(s, c, v, audited, Run(s, AppendSteps(c), audited))
  {
    RunFour(s, c, audited);
    UnracedSteps(s, c, id, v, audited);
    CommitEffect(WithPhase(s, c, Inserted(v)), c, audited);
    assert s.calls[c := s.calls[c].(phase := Inserted(v))][c := s.calls[c].(phase := Committed(v))]
        == s.calls[c := s.calls[c].(phase := Committed(v))];
  }

  ghost predicate Appended<P>(s: State<P>, c: CallId, v: nat, audited: P -> bool, end: State<P>)
    requires c in s.calls && Key(s.calls[c].id, v) in s.rows
  {
    var call := s.calls[c];
    && end.rows == AppendRow(s.rows, call.id, v, call.payload, call.now)
    && end.calls == s.calls[c := call.(phase := Committed(v))]
    && end.events == if audited(call.payload) then s.events + multiset{Key(call.id, v + 1)} else s.events
  }

  lemma {:induction false} CommitEffect<P>(s: State<P>, c: CallId, audited: P -> bool)
    requires c in s.calls && s.calls[c].phase.Inserted? && Key(s.calls[c].id, s.calls[c].phase.version) in s.rows
    ensures Appended(s, c, s.calls[c].phase.version, audited, Step(s, Commit(c), audited))
  {
  }

  predicate ReadsClock<P>(a: Action<P>) { a.Create? || a.Begin? }

  /** The clock readings, in the order in which they are taken. */
  ghost predicate ClockNeverGoesBack<P>(actions: seq<Action<P>>) {
    forall i, j :: 0 <= i < j < |actions| && ReadsClock(actions[i]) && ReadsClock(actions[j]) ==>
      actions[i].now <= actions[j].now
  }

  /**
   A clock that never runs backwards is not enough. The first call reads the clock (5) and
   stalls; the second reads 6 and commits; the first then finds the new row, which starts at 6,
   and closes it at 5.
   */
  lemma {:induction false} StaleClockBreaksPartition(id: string, p: int)
    returns (actions: seq<Action<int>>)
    ensures ClockNeverGoesBack(actions)
    ensures var rows := Run(Empty(), actions, (_: int) => true).rows;
      Key(id, 1) in rows && !PartitionsTime(rows, id)
  {
    var audited := (_: int) => true;
    var start := [Create(id, p, 0), Begin(1, id, p, 5), Begin(2, id, p, 6)];
    actions := start + AppendSteps(2) + AppendSteps(1);
    StaleScheduleClock(id, p);
    StaleScheduleRows(id, p);
    var rows := Run(Empty(), actions, audited).rows;
    RunKeepsInv(Empty(), actions, audited);
    assert !NextStartsLater(rows, id, 2);
    PartitionIffStartsInOrder(rows, id);
  }

  lemma {:induction false} StaleScheduleRows(id: string, p: int)
    ensures var rows := Run(Empty(), [Create(id, p, 0), Begin(1, id, p, 5), Begin(2, id, p, 6)]
                                     + AppendSteps(2) + AppendSteps(1), (_: int) => true).rows;
      && Key(id, 1) in rows && Key(id, 2) in rows && Key(id, 3) in rows
      && rows[Key(id, 2)].validIn == 6 && rows[Key(id, 3)].validIn == 5
  {
    var audited := (_: int) => true;
    var start := [Create(id, p, 0), Begin(1, id, p, 5), Begin(2, id, p, 6)];
    var middle := SecondCommitsFirst(id, p);
    RunConcat(Empty(), start + AppendSteps(2), AppendSteps(1), audited);
    UncontendedAppendSucceeds(middle, 1, id, 2, audited);
  }

  lemma {:induction false} SecondCommitsFirst(id: string, p: int) returns (middle: State<int>)
    ensures middle == Run(Empty(), [Create(id, p, 0), Begin(1, id, p, 5), Begin(2, id, p, 6)] + AppendSteps(2),
                          (_: int) => true)
    ensures WellFormed(middle.rows) && middle.rows.Keys == {Key(id, 1), Key(id, 2)}
    ensures middle.rows[Key(id, 2)] == Row(6, None, p)
    ensures middle.calls == map[1 := Call(id, p, 5, Begun), 2 := Call(id, p, 6, Committed(1))]
  {
    var audited := (_: int) => true;
    var begun := TwoReadTheClock(id, p);
    middle := Run(begun, AppendSteps(2), audited);
    RunConcat(Empty(), [Create(id, p, 0), Begin(1, id, p, 5), Begin(2, id, p, 6)], AppendSteps(2), audited);
    UncontendedAppendSucceeds(begun, 2, id, 1, audited);
    AppendKeepsChains(begun.rows, id, 1, p, 6);
  }

  lemma {:induction false} StaleScheduleClock(id: string, p: int)
    ensures ClockNeverGoesBack([Create(id, p, 0), Begin(1, id, p, 5), Begin(2, id, p, 6)] + AppendSteps(2) + AppendSteps(1))
  {
    var start := [Create(id, p, 0), Begin(1, id, p, 5), Begin(2, id, p, 6)];
    var actions := start + AppendSteps(2) + AppendSteps(1);
    assert forall i :: 3 <= i < |actions| ==> !ReadsClock(actions[i]);
    assert actions[0] == start[0] && actions[1] == start[1] && actions[2] == start[2];
  }

  lemma {:induction false} TwoReadTheClock(id: string, p: int) returns (begun: State<int>)
    ensures begun == Run(Empty(), [Create(id, p, 0), Begin(1, id, p, 5), Begin(2, id, p, 6)], (_: int) => true)
    ensures begun.rows == map[Key(id, 1) := Row(0, None, p)] && WellFormed(begun.rows)
    ensures begun.calls == map[1 := Call(id, p, 5, Begun), 2 := Call(id, p, 6, Begun)]
  {
    var audited := (_: int) => true;
    var start := [Create(id, p, 0), Begin(1, id, p, 5), Begin(2, id, p, 6)];
    begun := Run(Empty(), start, audited);
    RunKeepsInv(Empty(), start, audited);
    RunSplits(Empty(), start, audited);
    var s1 := Step(Empty(), start[0], audited);
    assert start[1..] == [start[1], start[2]];
    RunSplits(s1, start[1..], audited);
    assert start[1..][1..] == [start[2]];
    RunSplits(Step(s1, start[1], audited), start[1..][1..], audited);
  }
}
