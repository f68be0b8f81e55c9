/** The stored rows of payments: every version is what its log says and extends its predecessor's log. */
module PaymentRows {
  import opened Wrappers
  import opened VersionStore
  import opened PaymentLog
  import PL = PaymentLifecycle

  /** One more log entry on the same payment. */
  predicate Extends(before: PL.Payment, after: PL.Payment) {
    && |after.lifecycleEvents| == |before.lifecycleEvents| + 1
    && after.lifecycleEvents[..|before.lifecycleEvents|] == before.lifecycleEvents
  }

  ghost predicate LogAt(rows: Rows<PL.Payment>, k: Key)
    requires k in rows
  {
    && AgreesWithLog(rows[k].payload, k.version)
    && (k.version > 1 && Key(k.id, k.version - 1) in rows ==>
          Extends(rows[Key(k.id, k.version - 1)].payload, rows[k].payload))
  }

  ghost predicate LogsReplay(rows: Rows<PL.Payment>) {
    forall k {:trigger LogAt(rows, k)} :: k in rows ==> LogAt(rows, k)
  }

  lemma {:induction false} InsertKeepsLogs(rows: Rows<PL.Payment>, id: string, content: PL.Payment, now: Clock)
    requires WellFormed(rows) && LogsReplay(rows) && Key(id, 1) !in rows && AgreesWithLog(content, 1)
    ensures LogsReplay(rows[Key(id, 1) := Row(now, None, content)])
  {
    var after := rows[Key(id, 1) := Row(now, None, content)];
    forall k | k in after
      ensures LogAt(after, k)
    {
      if k in rows { assert LogAt(rows, k) && WellFormedAt(rows, k); }
    }
  }

  lemma {:induction false} AppendKeepsLogs(rows: Rows<PL.Payment>, id: string, v: nat, content: PL.Payment, now: Clock)
    requires WellFormed(rows) && LogsReplay(rows) && IsOpen(rows, id, v)
    requires AgreesWithLog(content, v + 1) && Extends(rows[Key(id, v)].payload, content)
    ensures LogsReplay(AppendRow(rows, id, v, content, now))
  {
    var after := AppendRow(rows, id, v, content, now);
    AppendKeepsChains(rows, id, v, content, now);
    forall k | k in after
      ensures LogAt(after, k)
    {
      if k in rows {
        assert LogAt(rows, k) && WellFormedAt(rows, k) && WellFormedAt(rows, Key(id, v));
        assert after[k].payload == rows[k].payload;
      }
    }
  }

  /** Entry v of the newest log is the last entry of version v. */
  lemma {:induction false} RowsShareTheLog(rows: Rows<PL.Payment>, id: string, n: nat, v: nat)
    requires WellFormed(rows) && LogsReplay(rows) && Key(id, n) in rows && Key(id, v) in rows && v <= n
    ensures var log := rows[Key(id, n)].payload.lifecycleEvents;
      |log| == n + 1 && rows[Key(id, v)].payload.lifecycleEvents == log[..v + 1]
    decreases n - v
  {
    assert LogAt(rows, Key(id, n)) && LogAt(rows, Key(id, v)) && WellFormedAt(rows, Key(id, v));
    if v < n {
      ContiguousBelow(rows, id, n, v + 1);
      RowsShareTheLog(rows, id, n, v + 1);
      assert LogAt(rows, Key(id, v + 1));
      var log := rows[Key(id, n)].payload.lifecycleEvents;
      assert log[..v + 2][..v + 1] == log[..v + 1];
    }
  }
}
