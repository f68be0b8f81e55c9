/**
 The append-only version store shared by instruction-service and payment-service.
 Every entity is a chain of rows 1..n; each mutation closes row n and inserts row n+1.
 The payload type is a parameter, because both repositories run the same statements.
 */
module VersionStore {
  import opened Wrappers

  /** Microseconds of the "open" marker 9999-12-31T23:59:59Z since the epoch. */
  const OPEN_OUT: int := 253402300799000000

  /** A clock reading; the clock stays before the open marker. */
  type Clock = t: int | t < OPEN_OUT

  datatype Key = Key(id: string, version: nat)

  /** `validOut == None` is the current row. */
  datatype Row<+P> = Row(validIn: Clock, validOut: Option<Clock>, payload: P)

  type Rows<P> = map<Key, Row<P>>

  ghost predicate IsOpen<P>(rows: Rows<P>, id: string, v: nat) {
    Key(id, v) in rows && rows[Key(id, v)].validOut.None?
  }

  /** The version of the entity's open row, if it has one. */
  ghost function OpenVersion<P>(rows: Rows<P>, id: string): (r: Option<nat>)
    ensures match r
      case None => forall v: nat :: !IsOpen(rows, id, v)
      case Some(v) => IsOpen(rows, id, v)
  {
    if exists v: nat :: IsOpen(rows, id, v) then var v: nat :| IsOpen(rows, id, v); Some(v) else None
  }

  ghost predicate WellFormedAt<P>(rows: Rows<P>, k: Key)
    requires k in rows
  {
    var next := Key(k.id, k.version + 1);
    && k.version >= 1
    && (k.version > 1 ==> Key(k.id, k.version - 1) in rows)
    && (match rows[k].validOut
        case None => next !in rows
        case Some(t) => next in rows && rows[next].validIn == t)
  }

  /** Stated row by row: what `VersionsAreOneToN` turns into "exactly 1..n, only n open". */
  ghost predicate WellFormed<P>(rows: Rows<P>) {
    forall k {:trigger WellFormedAt(rows, k)} :: k in rows ==> WellFormedAt(rows, k)
  }

  /** The two writes of append_version against the row `v` it has found open. */
  function AppendRow<P>(rows: Rows<P>, id: string, v: nat, payload: P, now: Clock): Rows<P>
    requires Key(id, v) in rows
  {
    rows[Key(id, v) := rows[Key(id, v)].(validOut := Some(now))]
        [Key(id, v + 1) := Row(now, None, payload)]
  }

  // ----- Shape of the chain -------------------------------------------------

  lemma {:induction false} ContiguousBelow<P>(rows: Rows<P>, id: string, v: nat, w: nat)
    requires WellFormed(rows) && Key(id, v) in rows && 1 <= w <= v
    ensures Key(id, w) in rows
    ensures w < v ==> rows[Key(id, w)].validOut.Some?
    decreases v - w
  {
    if w < v {
      ContiguousBelow(rows, id, v, w + 1);
      assert WellFormedAt(rows, Key(id, w + 1));
      assert WellFormedAt(rows, Key(id, w));
    }
  }

  lemma {:induction false} OnlyOneOpen<P>(rows: Rows<P>, id: string, v: nat, w: nat)
    requires WellFormed(rows) && IsOpen(rows, id, v) && Key(id, w) in rows
    ensures w <= v
    ensures IsOpen(rows, id, w) ==> w == v
  {
    assert WellFormedAt(rows, Key(id, v)) && WellFormedAt(rows, Key(id, w));
    if w < v { ContiguousBelow(rows, id, v, w); }
    if v < w { ContiguousBelow(rows, id, w, v); }
  }

  ghost function KeysAbove<P>(rows: Rows<P>, id: string, v: nat): set<Key> {
    set k | k in rows && k.id == id && k.version > v
  }

  lemma {:induction false} KeysAboveShrink<P>(rows: Rows<P>, id: string, v: nat)
    requires Key(id, v + 1) in rows
    ensures KeysAbove(rows, id, v + 1) < KeysAbove(rows, id, v)
  {
    assert Key(id, v + 1) in KeysAbove(rows, id, v);
  }

  lemma {:induction false} ClimbToOpen<P>(rows: Rows<P>, id: string, v: nat) returns (n: nat)
    requires WellFormed(rows) && Key(id, v) in rows
    ensures v <= n && IsOpen(rows, id, n)
    decreases KeysAbove(rows, id, v)
  {
    assert WellFormedAt(rows, Key(id, v));
    if rows[Key(id, v)].validOut.None? {
      n := v;
    } else {
      KeysAboveShrink(rows, id, v);
      n := ClimbToOpen(rows, id, v + 1);
    }
  }

  /** An entity with any row at all has versions exactly 1..n, and only row n is open. */
  lemma {:induction false} VersionsAreOneToN<P>(rows: Rows<P>, id: string, v: nat) returns (n: nat)
    requires WellFormed(rows) && Key(id, v) in rows
    ensures forall w: nat :: Key(id, w) in rows <==> 1 <= w <= n
    ensures forall w: nat :: IsOpen(rows, id, w) <==> w == n && n >= 1
  {
    n := ClimbToOpen(rows, id, v);
    forall w: nat
      ensures Key(id, w) in rows <==> 1 <= w <= n
      ensures IsOpen(rows, id, w) <==> w == n && n >= 1
    {
      assert WellFormedAt(rows, Key(id, n));
      if Key(id, w) in rows {
        assert WellFormedAt(rows, Key(id, w));
        OnlyOneOpen(rows, id, n, w);
      } else if 1 <= w <= n {
        ContiguousBelow(rows, id, n, w);
      }
    }
  }

  /** Appending keeps every chain, moves the open row of `id` and touches nothing else. */
  lemma {:induction false} AppendKeepsChains<P>(rows: Rows<P>, id: string, v: nat, payload: P, now: Clock)
    requires WellFormed(rows) && IsOpen(rows, id, v)
    ensures var after := AppendRow(rows, id, v, payload, now);
      && WellFormed(after)
      && IsOpen(after, id, v + 1) && after[Key(id, v + 1)] == Row(now, None, payload)
      && after.Keys == rows.Keys + {Key(id, v + 1)} && Key(id, v + 1) !in rows
      && (forall k :: k in rows && rows[k].validOut.Some? ==> after[k] == rows[k])
      && (forall k :: k in rows && k.id != id ==> after[k] == rows[k])
      && after[Key(id, v)] == rows[Key(id, v)].(validOut := Some(now))
  {
    var after := AppendRow(rows, id, v, payload, now);
    assert WellFormedAt(rows, Key(id, v));
    forall k | k in after
      ensures WellFormedAt(after, k)
    {
      if k in rows { assert WellFormedAt(rows, k); }
      var next := Key(k.id, k.version + 1);
      if next in rows { assert WellFormedAt(rows, next); }
    }
  }

  lemma {:induction false} InsertKeepsChains<P>(rows: Rows<P>, id: string, payload: P, now: Clock)
    requires WellFormed(rows) && Key(id, 1) !in rows
    ensures var after := rows[Key(id, 1) := Row(now, None, payload)];
      WellFormed(after) && IsOpen(after, id, 1)
  {
    var after := rows[Key(id, 1) := Row(now, None, payload)];
    forall k | k in after
      ensures WellFormedAt(after, k)
    {
      if k in rows {
        assert WellFormedAt(rows, k);
      } else {
        assert Key(id, 2) !in rows by { if Key(id, 2) in rows { ContiguousBelow(rows, id, 2, 1); } }
      }
    }
  }

  // ----- Validity intervals ----------------------------------------------------

  predicate Covers<P>(row: Row<P>, t: int) {
    row.validIn <= t && (row.validOut.None? || t < row.validOut.value)
  }

  ghost predicate CoveredBy<P>(rows: Rows<P>, id: string, v: nat, t: int) {
    Key(id, v) in rows && Covers(rows[Key(id, v)], t)
  }

  /** From its creation on, each instant belongs to exactly one row of the entity. */
  ghost predicate PartitionsTime<P>(rows: Rows<P>, id: string)
    requires Key(id, 1) in rows
  {
    && (forall t: int, v: nat :: t < rows[Key(id, 1)].validIn ==> !CoveredBy(rows, id, v, t))
    && (forall t: int :: t >= rows[Key(id, 1)].validIn ==> CoveredOnce(rows, id, t))
  }

  ghost predicate CoveredOnce<P>(rows: Rows<P>, id: string, t: int) {
    exists v: nat :: CoveredBy(rows, id, v, t) && forall w: nat :: CoveredBy(rows, id, w, t) ==> w == v
  }

  /** No row starts before its predecessor did. */
  ghost predicate StartsInOrder<P>(rows: Rows<P>, id: string) {
    forall v: nat :: NextStartsLater(rows, id, v)
  }

  ghost predicate NextStartsLater<P>(rows: Rows<P>, id: string, v: nat) {
    Key(id, v) in rows && Key(id, v + 1) in rows ==> rows[Key(id, v)].validIn <= rows[Key(id, v + 1)].validIn
  }

  lemma {:induction false} LaterRowCovers<P>(rows: Rows<P>, id: string, v: nat, t: int) returns (w: nat)
    requires WellFormed(rows) && Key(id, v) in rows && rows[Key(id, v)].validIn <= t
    ensures v <= w && CoveredBy(rows, id, w, t)
    decreases KeysAbove(rows, id, v)
  {
    assert WellFormedAt(rows, Key(id, v));
    if Covers(rows[Key(id, v)], t) {
      w := v;
    } else {
      KeysAboveShrink(rows, id, v);
      w := LaterRowCovers(rows, id, v + 1, t);
    }
  }

  lemma {:induction false} RowBetweenCovers<P>(rows: Rows<P>, id: string, x: nat, y: nat, t: int) returns (w: nat)
    requires WellFormed(rows) && 1 <= x <= y && Key(id, x) in rows && Key(id, y) in rows
    requires rows[Key(id, x)].validIn <= t < rows[Key(id, y)].validIn
    ensures x <= w < y && CoveredBy(rows, id, w, t)
    decreases y - x
  {
    assert WellFormedAt(rows, Key(id, x));
    ContiguousBelow(rows, id, y, x);
    if Covers(rows[Key(id, x)], t) {
      w := x;
    } else {
      w := RowBetweenCovers(rows, id, x + 1, y, t);
    }
  }

  lemma {:induction false} StartsGrow<P>(rows: Rows<P>, id: string, v: nat, w: nat)
    requires WellFormed(rows) && StartsInOrder(rows, id)
    requires 1 <= v <= w && Key(id, w) in rows
    ensures Key(id, v) in rows && rows[Key(id, v)].validIn <= rows[Key(id, w)].validIn
    decreases w - v
  {
    ContiguousBelow(rows, id, w, v);
    if v < w {
      StartsGrow(rows, id, v + 1, w);
      assert NextStartsLater(rows, id, v);
    }
  }

  lemma {:induction false} OrderedStartsPartition<P>(rows: Rows<P>, id: string)
    requires WellFormed(rows) && Key(id, 1) in rows && StartsInOrder(rows, id)
    ensures PartitionsTime(rows, id)
  {
    forall t: int | t < rows[Key(id, 1)].validIn, v: nat | CoveredBy(rows, id, v, t)
      ensures false
    {
      assert WellFormedAt(rows, Key(id, v));
      StartsGrow(rows, id, 1, v);
    }
    forall t: int | t >= rows[Key(id, 1)].validIn
      ensures CoveredOnce(rows, id, t)
    {
      var v := LaterRowCovers(rows, id, 1, t);
      forall w: nat | CoveredBy(rows, id, w, t)
        ensures w == v
      {
        assert WellFormedAt(rows, Key(id, v)) && WellFormedAt(rows, Key(id, w));
        if v < w { ContiguousBelow(rows, id, w, v); StartsGrow(rows, id, v + 1, w); }
        if w < v { ContiguousBelow(rows, id, v, w); StartsGrow(rows, id, w + 1, v); }
      }
    }
  }

  /**
   The intervals [in, out) partition time exactly when the clock readings of the chain never
   go backwards. append_version reads the clock before it looks for the open row, so the
   store alone does not guarantee this: see `StoreTransactions.StaleClockBreaksPartition`.
   */
  lemma {:induction false} PartitionIffStartsInOrder<P>(rows: Rows<P>, id: string)
    requires WellFormed(rows) && Key(id, 1) in rows
    ensures PartitionsTime(rows, id) <==> StartsInOrder(rows, id)
  {
    if StartsInOrder(rows, id) {
      OrderedStartsPartition(rows, id);
    } else {
      var v: nat :| !NextStartsLater(rows, id, v);
      var t := rows[Key(id, v + 1)].validIn;
      assert WellFormedAt(rows, Key(id, v));
      var above := LaterRowCovers(rows, id, v + 1, t);
      if rows[Key(id, 1)].validIn <= t {
        var below := RowBetweenCovers(rows, id, 1, v, t);
        assert !CoveredOnce(rows, id, t);
      }
    }
  }

  /** The test a writer could make: the clock has reached the start of the row it closes. */
  lemma {:induction false} AppendKeepsPartitionIff<P>(rows: Rows<P>, id: string, v: nat, payload: P, now: Clock)
    requires WellFormed(rows) && IsOpen(rows, id, v) && Key(id, 1) in rows
    requires PartitionsTime(rows, id)
    ensures PartitionsTime(AppendRow(rows, id, v, payload, now), id) <==> rows[Key(id, v)].validIn <= now
  {
    var after := AppendRow(rows, id, v, payload, now);
    AppendKeepsChains(rows, id, v, payload, now);
    PartitionIffStartsInOrder(rows, id);
    PartitionIffStartsInOrder(after, id);
    assert WellFormedAt(rows, Key(id, v));
    assert Key(id, v) in after && Key(id, v + 1) in after;
    if rows[Key(id, v)].validIn <= now {
      forall w: nat
        ensures NextStartsLater(after, id, w)
      {
        assert NextStartsLater(rows, id, w);
        if Key(id, w + 1) in rows { assert WellFormedAt(rows, Key(id, w + 1)); }
      }
    } else {
      assert !NextStartsLater(after, id, v);
    }
  }
}
