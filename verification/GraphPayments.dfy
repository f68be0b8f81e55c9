/** Lifecycle and consumption edges of payments, against the rows that both services store. */
module GraphPayments {
  import opened Wrappers
  import opened Facts
  import opened Graph
  import opened GraphChain
  import opened GraphConsumption
  import opened VersionStore
  import GraphLifecycle
  import PaymentLog
  import PaymentRows
  import IL = InstructionLifecycle
  import PL = PaymentLifecycle

  // ----- Lifecycle edges ----------------------------------------------------------------------

  /** The edge of the log entry that version v was written with. */
  function EntryEdge(id: string, v: nat, e: PL.PaymentEvent): Option<LifecycleEdge> {
    if e.action == PL.UPDATE then None
    else Some(LifecycleEdge(e.actor, PAYMENT_ACTION_TO_EDGE[PaymentActionName(e.action)], NodeKey(Label.Payment, id, v)))
  }

  /** Whichever field the rules take the user from, it is the actor of the row's last log entry. */
  lemma {:induction false} RowUser(id: string, v: nat, p: PL.Payment, open: bool)
    requires PaymentLog.AgreesWithLog(p, v) && p.lifecycleEvents[v].actor != "" && p.lifecycleEvents[v].action != PL.UPDATE
    ensures PaymentActor(FactOfPayment(id, v, p, open)) == Some(p.lifecycleEvents[v].actor)
  {
    var log := p.lifecycleEvents[1..];
    assert log[|log| - 1] == p.lifecycleEvents[v];
    if p.lifecycleEvents[v].action == PL.CREATE { CreationIsFirst(log); }
  }

  lemma {:induction false} RowEdge(id: string, v: nat, p: PL.Payment, open: bool)
    requires PaymentLog.AgreesWithLog(p, v) && p.lifecycleEvents[v].actor != ""
    ensures EdgeOf(FactOfPayment(id, v, p, open)) == EntryEdge(id, v, p.lifecycleEvents[v])
  {
    NamesHaveEdges(p.lifecycleEvents[v].action);
    if p.lifecycleEvents[v].action != PL.UPDATE { RowUser(id, v, p, open); }
  }

  lemma {:induction false} NamesHaveEdges(action: PL.PaymentAction)
    ensures PaymentActionName(action) in PAYMENT_ACTION_TO_EDGE <==> action != PL.UPDATE
  {
  }

  /** No step of the lifecycle creates what exists, so only the first entry is a CREATE. */
  lemma {:induction false} CreationIsFirst(log: seq<PL.PaymentEvent>)
    requires log != [] && PaymentLog.Replay(log).Some? && log[|log| - 1].action == PL.CREATE
    ensures |log| == 1
  {
  }

  /** All versions of the payment have been delivered, each at least once. */
  ghost predicate Covers(facts: seq<Fact>, rows: Rows<PL.Payment>, id: string) {
    forall v: nat :: Key(id, v) in rows ==> exists open :: FactOfPayment(id, v, rows[Key(id, v)].payload, open) in facts
  }

  /** Whoever acts has a name. */
  predicate AllNamed(log: seq<PL.PaymentEvent>) {
    forall k :: 0 <= k < |log| ==> log[k].actor != ""
  }

  /**
   Once all facts of a payment have been processed, in any order and with any repetitions, its
   lifecycle edges are exactly the non-UPDATE entries of its stored log, each from the user who
   made the entry to the version written with it.
   */
  lemma {:induction false} PaymentEdgesAreTheLog(facts: seq<Fact>, rows: Rows<PL.Payment>, id: string, n: nat, edge: LifecycleEdge)
    requires WellFormed(rows) && PaymentRows.LogsReplay(rows) && IsOpen(rows, id, n)
    requires PaymentsDrawnFrom(facts, rows) && Covers(facts, rows, id)
    requires AllNamed(rows[Key(id, n)].payload.lifecycleEvents)
    requires edge.version.kind == Label.Payment && edge.version.id == id
    ensures |rows[Key(id, n)].payload.lifecycleEvents| == n + 1
    ensures edge in Project(facts).lifecycle <==>
      exists v: nat :: 1 <= v <= n && EntryEdge(id, v, rows[Key(id, n)].payload.lifecycleEvents[v]) == Some(edge)
  {
    var log := rows[Key(id, n)].payload.lifecycleEvents;
    assert PaymentRows.LogAt(rows, Key(id, n));
    GraphLifecycle.LifecycleExactly(facts, edge);
    if edge in Project(facts).lifecycle {
      var f :| f in facts && EdgeOf(f) == Some(edge);
      assert edge.version == f.Key() && f.PaymentFact?;
      EdgeOfRow(rows, id, n, f.version, f.open);
      assert EntryEdge(id, f.version, log[f.version]) == Some(edge);
    }
    if v: nat :| 1 <= v <= n && EntryEdge(id, v, log[v]) == Some(edge) {
      ContiguousBelow(rows, id, n, v);
      var open :| FactOfPayment(id, v, rows[Key(id, v)].payload, open) in facts;
      EdgeOfRow(rows, id, n, v, open);
    }
  }

  lemma {:induction false} EdgeOfRow(rows: Rows<PL.Payment>, id: string, n: nat, v: nat, open: bool)
    requires WellFormed(rows) && PaymentRows.LogsReplay(rows) && IsOpen(rows, id, n) && Key(id, v) in rows
    requires AllNamed(rows[Key(id, n)].payload.lifecycleEvents)
    ensures 1 <= v <= n && |rows[Key(id, n)].payload.lifecycleEvents| == n + 1
    ensures EdgeOf(FactOfPayment(id, v, rows[Key(id, v)].payload, open))
      == EntryEdge(id, v, rows[Key(id, n)].payload.lifecycleEvents[v])
  {
    assert WellFormedAt(rows, Key(id, v)) && PaymentRows.LogAt(rows, Key(id, v));
    var last := VersionsAreOneToN(rows, id, v);
    OnlyOneOpen(rows, id, n, last);
    PaymentRows.RowsShareTheLog(rows, id, n, v);
    RowEdge(id, v, rows[Key(id, v)].payload, open);
  }

  /** Which edge from which user a payment row asks for, whatever the row contains. */
  predicate AsksFor(p: PL.Payment, edgeType: string, u: string) {
    p.lifecycleEvents != [] &&
    var e := p.lifecycleEvents[|p.lifecycleEvents| - 1];
    || (edgeType == "CREATED_PV" && e.action == PL.CREATE && u != "" && p.createdBy == u)
    || (edgeType == "SUBMITTED_PV" && e.action == PL.SUBMIT && GraphLifecycle.Acts(u, p.submittedBy, e.actor, p.createdBy))
    || (edgeType == "APPROVED_PV" && e.action == PL.APPROVE && GraphLifecycle.Acts(u, p.approvedBy, e.actor, p.createdBy))
    || (edgeType == "REJECTED_PV" && e.action == PL.REJECT && GraphLifecycle.Acts(u, p.rejectedBy, e.actor, p.createdBy))
    || (edgeType == "CANCELLED_PV" && e.action == PL.CANCEL && GraphLifecycle.Acts(u, p.cancelledBy, e.actor, p.createdBy))
  }

  lemma {:induction false} RowAsksFor(id: string, v: nat, p: PL.Payment, open: bool, edgeType: string, u: string)
    ensures EdgeOf(FactOfPayment(id, v, p, open)) == Some(LifecycleEdge(u, edgeType, NodeKey(Label.Payment, id, v)))
      <==> AsksFor(p, edgeType, u)
  {
  }

  /** The same at the level of facts, whose actions may also carry the `_PAYMENT` ending. */
  predicate FactAsksFor(f: Fact, edgeType: string, u: string)
    requires f.PaymentFact?
  {
    || (edgeType == "CREATED_PV" && f.action in {"CREATE", "CREATE_PAYMENT"} && u != "" && f.payment.createdBy == Some(u))
    || (edgeType == "SUBMITTED_PV" && f.action in {"SUBMIT", "SUBMIT_PAYMENT"} && NamedOrActor(u, f.payment.submittedBy, f.actor))
    || (edgeType == "APPROVED_PV" && f.action in {"APPROVE", "APPROVE_PAYMENT"} && NamedOrActor(u, f.payment.approvedBy, f.actor))
    || (edgeType == "REJECTED_PV" && f.action in {"REJECT", "REJECT_PAYMENT"} && NamedOrActor(u, f.payment.rejectedBy, f.actor))
    || (edgeType == "CANCELLED_PV" && f.action in {"CANCEL", "CANCEL_PAYMENT"} && NamedOrActor(u, f.payment.cancelledBy, f.actor))
  }

  predicate NamedOrActor(u: string, named: Option<string>, actor: Option<string>) {
    u != "" && (named == Some(u) || ((named == None || named == Some("")) && actor == Some(u)))
  }

  lemma {:induction false} PaymentFactAsksFor(f: Fact, edgeType: string, u: string)
    requires f.PaymentFact?
    ensures EdgeOf(f) == Some(LifecycleEdge(u, edgeType, f.Key())) <==> FactAsksFor(f, edgeType, u)
  {
  }

  /** What the row of a served call shows of it. */
  predicate Shows(p: PL.Payment, edgeType: string, u: string) {
    p.lifecycleEvents != [] &&
    var e := p.lifecycleEvents[|p.lifecycleEvents| - 1];
    || (edgeType == "CREATED_PV" && e.action == PL.CREATE && p.status == PL.DRAFT && p.createdBy == u)
    || (edgeType == "SUBMITTED_PV" && e.action == PL.SUBMIT && p.status == PL.SUBMITTED && p.submittedBy == Some(u))
    || (edgeType == "APPROVED_PV" && e.action == PL.APPROVE && p.status == PL.APPROVED && p.approvedBy == Some(u))
    || (edgeType == "REJECTED_PV" && e.action == PL.REJECT && p.status == PL.REJECTED && p.rejectedBy == Some(u))
    || (edgeType == "CANCELLED_PV" && e.action == PL.CANCEL && p.status == PL.CANCELLED && p.cancelledBy == Some(u))
  }

  lemma {:induction false} LoggedRowShows(p: PL.Payment, v: nat, edgeType: string, u: string)
    requires PaymentLog.AgreesWithLog(p, v) && AllNamed(p.lifecycleEvents)
    ensures AsksFor(p, edgeType, u) <==> Shows(p, edgeType, u)
  {
    var log := p.lifecycleEvents[1..];
    assert log[|log| - 1] == p.lifecycleEvents[v];
    assert PaymentLog.LastActor(log, p.lifecycleEvents[v].action) == Some(p.lifecycleEvents[v].actor);
  }

  /** Row by row: an edge of the payment is in the graph exactly when the stored row shows that act of that user. */
  lemma {:induction false} PaymentEdgesFollowRows(facts: seq<Fact>, rows: Rows<PL.Payment>, id: string, v: nat, edgeType: string, u: string)
    requires WellFormed(rows) && PaymentRows.LogsReplay(rows) && PaymentsDrawnFrom(facts, rows) && Covers(facts, rows, id)
    requires Key(id, v) in rows ==> AllNamed(rows[Key(id, v)].payload.lifecycleEvents)
    ensures LifecycleEdge(u, edgeType, NodeKey(Label.Payment, id, v)) in Project(facts).lifecycle <==>
      Key(id, v) in rows && Shows(rows[Key(id, v)].payload, edgeType, u)
  {
    var edge := LifecycleEdge(u, edgeType, NodeKey(Label.Payment, id, v));
    GraphLifecycle.LifecycleExactly(facts, edge);
    if edge in Project(facts).lifecycle {
      var f :| f in facts && EdgeOf(f) == Some(edge);
      assert edge.version == f.Key() && f.PaymentFact?;
      RowShowsEdge(rows, id, v, f.open, edgeType, u);
    }
    if Key(id, v) in rows && Shows(rows[Key(id, v)].payload, edgeType, u) {
      var open :| FactOfPayment(id, v, rows[Key(id, v)].payload, open) in facts;
      RowShowsEdge(rows, id, v, open, edgeType, u);
    }
  }

  lemma {:induction false} RowShowsEdge(rows: Rows<PL.Payment>, id: string, v: nat, open: bool, edgeType: string, u: string)
    requires PaymentRows.LogsReplay(rows) && Key(id, v) in rows && AllNamed(rows[Key(id, v)].payload.lifecycleEvents)
    ensures EdgeOf(FactOfPayment(id, v, rows[Key(id, v)].payload, open))
        == Some(LifecycleEdge(u, edgeType, NodeKey(Label.Payment, id, v)))
      <==> Shows(rows[Key(id, v)].payload, edgeType, u)
  {
    assert PaymentRows.LogAt(rows, Key(id, v));
    RowAsksFor(id, v, rows[Key(id, v)].payload, open, edgeType, u);
    LoggedRowShows(rows[Key(id, v)].payload, v, edgeType, u);
  }

  // ----- Consumption ----------------------------------------------------------------------------

  /** Version v of the payment is its submit of a SINGLE_USE payment against instruction i. */
  predicate SubmitRow(p: PL.Payment, i: string) {
    && p.lifecycleEvents != [] && p.lifecycleEvents[|p.lifecycleEvents| - 1].action == PL.SUBMIT
    && p.instructionType == IL.SINGLE_USE && p.instructionId == i
  }

  /** The instruction's version gives it back from payment p. */
  predicate ReleaseRow(i: IL.Instruction, p: string) {
    && i.lifecycleEvents != [] && i.lifecycleEvents[|i.lifecycleEvents| - 1].action == IL.RELEASE_USE
    && i.lifecycleEvents[|i.lifecycleEvents| - 1].paymentReference == Some(p)
  }

  ghost predicate HasSubmitRow(payments: Rows<PL.Payment>, p: string, i: string) {
    exists v: nat :: Key(p, v) in payments && SubmitRow(payments[Key(p, v)].payload, i)
  }

  ghost predicate HasReleaseRow(instructions: Rows<IL.Instruction>, p: string, i: string) {
    exists v: nat :: Key(i, v) in instructions && ReleaseRow(instructions[Key(i, v)].payload, p)
  }

  /** Every version of the payment has been delivered as it was inserted, open. */
  predicate DeliveredOpen(facts: seq<Fact>, payments: Rows<PL.Payment>, p: string) {
    forall k :: k in payments && k.id == p ==> FactOfPayment(p, k.version, payments[k].payload, true) in facts
  }

  lemma {:induction false} SubmitsIff(f: Fact, p: PL.Payment, id: string, v: nat, i: string)
    requires f == FactOfPayment(id, v, p, f.open) && i != ""
    ensures Submits(f, id, i) <==> SubmitRow(p, i)
  {
  }

  lemma {:induction false} ReleasesIff(f: Fact, row: IL.Instruction, v: nat, p: string, i: string)
    requires f == FactOfInstruction(i, v, row, f.open) && p != ""
    ensures Releases(f, p, i) <==> ReleaseRow(row, p)
  {
    assert forall a: IL.LifecycleAction :: ActionName(a) == "RELEASE_USE" <==> a == IL.RELEASE_USE;
  }

  lemma {:induction false} AnySubmitIff(facts: seq<Fact>, payments: Rows<PL.Payment>, p: string, i: string)
    requires PaymentsDrawnFrom(facts, payments) && DeliveredOpen(facts, payments, p) && i != ""
    ensures AnySubmit(facts, p, i) <==> HasSubmitRow(payments, p, i)
  {
    if AnySubmit(facts, p, i) {
      var k :| 0 <= k < |facts| && OpenSubmit(facts[k], p, i);
      assert facts[k] in facts;
      SubmitsIff(facts[k], payments[Key(p, facts[k].version)].payload, p, facts[k].version, i);
    }
    if HasSubmitRow(payments, p, i) {
      var v: nat :| Key(p, v) in payments && SubmitRow(payments[Key(p, v)].payload, i);
      var f := FactOfPayment(p, v, payments[Key(p, v)].payload, true);
      SubmitsIff(f, payments[Key(p, v)].payload, p, v, i);
      var k :| 0 <= k < |facts| && facts[k] == f;
      assert OpenSubmit(facts[k], p, i);
    }
  }

  lemma {:induction false} AnyReleaseIff(facts: seq<Fact>, instructions: Rows<IL.Instruction>, p: string, i: string)
    requires DrawnFrom(facts, instructions) && GraphLifecycle.Covers(facts, instructions, i) && p != ""
    ensures AnyRelease(facts, p, i) <==> HasReleaseRow(instructions, p, i)
  {
    if AnyRelease(facts, p, i) {
      var k :| 0 <= k < |facts| && Releases(facts[k], p, i);
      assert facts[k] in facts;
      ReleasesIff(facts[k], instructions[Key(i, facts[k].version)].payload, facts[k].version, p, i);
    }
    if HasReleaseRow(instructions, p, i) {
      var v: nat :| Key(i, v) in instructions && ReleaseRow(instructions[Key(i, v)].payload, p);
      var open :| FactOfInstruction(i, v, instructions[Key(i, v)].payload, open) in facts;
      var f := FactOfInstruction(i, v, instructions[Key(i, v)].payload, open);
      ReleasesIff(f, instructions[Key(i, v)].payload, v, p, i);
      var k :| 0 <= k < |facts| && facts[k] == f;
      assert Releases(facts[k], p, i);
    }
  }

  /**
   Once both streams have drained, the payment's versions in order and submits ahead of releases,
   CONSUMED and CONSUMED_BY hold exactly when the store has a SUBMIT version of the payment against
   the instruction and no RELEASE_USE version of the instruction names the payment.
   */
  lemma {:induction false} ConsumptionMatchesStores(facts: seq<Fact>, payments: Rows<PL.Payment>, instructions: Rows<IL.Instruction>,
                                                    p: string, i: string)
    requires DrawnFrom(facts, instructions) && PaymentsDrawnFrom(facts, payments)
    requires DeliveredOpen(facts, payments, p) && GraphLifecycle.Covers(facts, instructions, i)
    requires PaymentInOrder(facts, p) && SubmitsBeforeReleases(facts, p, i) && p != "" && i != ""
    ensures LinksAre(Project(facts), p, i, HasSubmitRow(payments, p, i) && !HasReleaseRow(instructions, p, i))
  {
    forall f | f in facts ensures Usable(f.RootLabel(), f.Status()) {}
    OrderlyConsumption(facts, p, i);
    AnySubmitIff(facts, payments, p, i);
    AnyReleaseIff(facts, instructions, p, i);
  }
}
