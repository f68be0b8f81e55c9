/** When the intervals of every entity do partition time: one caller at a time per entity, and a clock that never goes back. */
module StoreClock {
  import opened Wrappers
  import opened VersionStore
  import opened StoreTransactions

  /** A call of this entity is under way. */
  predicate Busy<P>(s: State<P>, c: CallId, id: string) {
    c in s.calls && s.calls[c].id == id && !Finished(s.calls[c].phase)
  }

  ghost predicate StartsAlone<P>(s: State<P>, a: Action<P>) {
    a.Create? || a.Begin? ==> forall c :: !Busy(s, c, a.id)
  }

  /** No call on an entity begins while another one on it is under way. */
  ghost predicate NeverOverlap<P>(actions: seq<Action<P>>, audited: P -> bool) {
    actions == [] || (NeverOverlap(actions[..|actions| - 1], audited)
                      && StartsAlone(Run(Empty(), actions[..|actions| - 1], audited), actions[|actions| - 1]))
  }

  ghost predicate ReadBy<P>(actions: seq<Action<P>>, t: int) {
    forall i :: 0 <= i < |actions| && ReadsClock(actions[i]) ==> actions[i].now <= t
  }

  /** No row starts after `t`, and a call under way has its entity to itself and read the clock after all its rows. */
  ghost predicate Punctual<P>(s: State<P>, t: int) {
    && (forall k :: k in s.rows ==> s.rows[k].validIn <= t)
    && (forall c, id {:trigger Busy(s, c, id)} :: Busy(s, c, id) ==> s.calls[c].now <= t)
    && (forall c, k {:trigger Busy(s, c, k.id)} :: k in s.rows && Busy(s, c, k.id) ==> s.rows[k].validIn <= s.calls[c].now)
    && (forall c, d, id {:trigger Busy(s, c, id), Busy(s, d, id)} :: Busy(s, c, id) && Busy(s, d, id) ==> c == d)
  }

  /** Fewer calls under way on the same rows. */
  lemma {:induction false} QuieterIsPunctual<P>(s: State<P>, after: State<P>, t: int)
    requires Punctual(s, t) && after.rows == s.rows
    requires forall c, id {:trigger Busy(after, c, id)} :: Busy(after, c, id) ==> Busy(s, c, id) && after.calls[c].now == s.calls[c].now
    ensures Punctual(after, t)
  {
  }

  lemma {:induction false} CreateIsPunctual<P>(s: State<P>, a: Action<P>, audited: P -> bool, t: int)
    requires Punctual(s, t) && a.Create? && StartsAlone(s, a) && a.now == t
    ensures Punctual(Step(s, a, audited), t)
  {
    var after := Step(s, a, audited);
    assert forall c, id {:trigger Busy(after, c, id)} :: Busy(after, c, id) ==> Busy(s, c, id);
  }

  lemma {:induction false} BeginIsPunctual<P>(s: State<P>, a: Action<P>, audited: P -> bool, t: int)
    requires Punctual(s, t) && a.Begin? && StartsAlone(s, a) && a.now == t
    ensures Punctual(Step(s, a, audited), t)
  {
    var after := Step(s, a, audited);
    assert forall c, id {:trigger Busy(after, c, id)} :: Busy(after, c, id) ==> Busy(s, c, id) || (c == a.call && id == a.id);
  }

  /** A commit ends the only call under way on its entity. */
  lemma {:induction false} CommitIsPunctual<P>(s: State<P>, c: CallId, audited: P -> bool, t: int)
    requires Punctual(s, t) && c in s.calls && s.calls[c].phase.Inserted?
    ensures Punctual(Step(s, Commit(c), audited), t)
  {
    var after, call := Step(s, Commit(c), audited), s.calls[c];
    assert Busy(s, c, call.id);
    if Key(call.id, call.phase.version) in s.rows {
      forall d, id {:trigger Busy(after, d, id)} | Busy(after, d, id)
        ensures Busy(s, d, id) && id != call.id && after.calls[d].now == s.calls[d].now
      {
        assert Busy(s, d, id);
      }
      CommittedRows(s, after, c);
    }
  }

  predicate StartsAsBefore<P>(before: Rows<P>, after: Rows<P>, k: Key)
    requires k in after
  {
    k in before && after[k].validIn == before[k].validIn
  }

  predicate StartsAtCall<P>(after: Rows<P>, k: Key, call: Call<P>)
    requires k in after
  {
    k.id == call.id && after[k].validIn == call.now
  }

  lemma {:induction false} CommittedRows<P>(s: State<P>, after: State<P>, c: CallId)
    requires c in s.calls && s.calls[c].phase.Inserted? && Key(s.calls[c].id, s.calls[c].phase.version) in s.rows
    requires var call := s.calls[c]; after.rows == AppendRow(s.rows, call.id, call.phase.version, call.payload, call.now)
    ensures forall k :: k in after.rows ==> StartsAsBefore(s.rows, after.rows, k) || StartsAtCall(after.rows, k, s.calls[c])
  {
  }

  lemma {:induction false} StepIsPunctual<P>(s: State<P>, a: Action<P>, audited: P -> bool, t: int)
    requires Punctual(s, t) && StartsAlone(s, a) && (ReadsClock(a) ==> a.now == t)
    ensures Punctual(Step(s, a, audited), t)
  {
    if a.Create? {
      CreateIsPunctual(s, a, audited, t);
    } else if a.Begin? {
      BeginIsPunctual(s, a, audited, t);
    } else if a.Commit? && a.call in s.calls && s.calls[a.call].phase.Inserted? {
      CommitIsPunctual(s, a.call, audited, t);
    } else {
      QuieterIsPunctual(s, Step(s, a, audited), t);
    }
  }

  lemma {:induction false} PunctualCommitsInOrder<P>(s: State<P>, a: Action<P>, t: int)
    requires Punctual(s, t)
    ensures InOrderAt(s, a)
  {
    if a.Commit? && a.call in s.calls && s.calls[a.call].phase.Inserted? {
      assert Busy(s, a.call, s.calls[a.call].id);
      var k := Key(s.calls[a.call].id, s.calls[a.call].phase.version);
      assert k in s.rows ==> Busy(s, a.call, k.id);
    }
  }

  lemma {:induction false} RunIsPunctual<P>(actions: seq<Action<P>>, audited: P -> bool, t: int)
    requires ClockNeverGoesBack(actions) && NeverOverlap(actions, audited) && ReadBy(actions, t)
    ensures Punctual(Run(Empty(), actions, audited), t) && CommitsInOrder(actions, audited)
    decreases |actions|
  {
    if actions != [] {
      var front, last := actions[..|actions| - 1], actions[|actions| - 1];
      var reading := if ReadsClock(last) then last.now else t;
      RunIsPunctual(front, audited, reading);
      var s := Run(Empty(), front, audited);
      StepIsPunctual(s, last, audited, reading);
      PunctualCommitsInOrder(s, last, reading);
      LaterIsPunctual(Step(s, last, audited), reading, t);
    }
  }

  lemma {:induction false} LaterIsPunctual<P>(s: State<P>, t: int, later: int)
    requires Punctual(s, t) && t <= later
    ensures Punctual(s, later)
  {
  }

  /**
   With a clock that never goes back and calls on one entity that do not overlap, the intervals
   of every entity partition time from its creation. Calls on different entities may interleave.
   */
  lemma {:induction false} OneAtATimePartitionsTime<P>(actions: seq<Action<P>>, audited: P -> bool)
    requires ClockNeverGoesBack(actions) && NeverOverlap(actions, audited)
    ensures var rows := Run(Empty(), actions, audited).rows;
      forall id: string :: Key(id, 1) in rows ==> PartitionsTime(rows, id)
  {
    RunIsPunctual(actions, audited, OPEN_OUT);
    RunPartitionsTimeIff(actions, audited);
  }
}
