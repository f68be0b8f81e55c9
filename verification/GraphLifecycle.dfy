/** Lifecycle edges after any sequence of deliveries, against the service's own operation log. */
module GraphLifecycle {
  import opened Wrappers
  import opened Facts
  import opened Graph
  import opened VersionStore
  import GraphChain
  import IL = InstructionLifecycle
  import IS = InstructionService

  /** The edges are exactly those the delivered facts ask for. */
  lemma {:induction false} LifecycleExactly(facts: seq<Fact>, e: LifecycleEdge)
    ensures e in Project(facts).lifecycle <==> exists f :: f in facts && EdgeOf(f) == Some(e)
    decreases |facts|
  {
    if facts != [] {
      var front, last := facts[..|facts| - 1], facts[|facts| - 1];
      LifecycleExactly(front, e);
      LifecycleStep(Project(front), front, last, e);
      assert facts == front + [last];
    }
  }

  lemma {:induction false} LifecycleStep(g: Graph, front: seq<Fact>, last: Fact, e: LifecycleEdge)
    requires e in g.lifecycle <==> exists f :: f in front && EdgeOf(f) == Some(e)
    ensures e in ApplyFact(g, last).lifecycle <==> exists f :: f in front + [last] && EdgeOf(f) == Some(e)
  {
    GraphChain.ApplyFactChain(g, last);
    assert forall f :: f in front + [last] <==> f in front || f == last;
  }

  // ----- The operation log -------------------------------------------------------------

  /** One successful call of the service. */
  datatype Entry = Entry(key: Key, action: IL.LifecycleAction, who: string)

  ghost function EntryOf(db: IS.Database, excluded: set<string>, c: IS.Call): Option<Entry> {
    var r := IS.Serve(db, excluded, c.id, c.request, c.who, c.allowed, c.now).1;
    if r.Success? then Some(Entry(Key(c.id, r.value.version), IS.ActionFor(c.request), c.who)) else None
  }

  /** What was done, by whom, and which version it wrote, call by call. */
  ghost function OperationLog(calls: seq<IS.Call>, excluded: set<string>): set<Entry> {
    if calls == [] then {}
    else
      var front := calls[..|calls| - 1];
      var entry := EntryOf(IS.ServeAll(front, excluded), excluded, calls[|calls| - 1]);
      OperationLog(front, excluded) + if entry.Some? then {entry.value} else {}
  }

  function EntryEdge(e: Entry): Option<LifecycleEdge> {
    if e.action == IL.UPDATE then None
    else Some(LifecycleEdge(e.who, INSTRUCTION_ACTION_TO_EDGE[ActionName(e.action)],
                            NodeKey(Label.Instruction, e.key.id, e.key.version)))
  }

  ghost predicate EntryMatchesRow(rows: Rows<IL.Instruction>, e: Entry) {
    && e.key in rows
    && forall open :: EdgeOf(FactOfInstruction(e.key.id, e.key.version, rows[e.key].payload, open)) == EntryEdge(e)
  }

  /** Log entries and stored rows are in one-to-one correspondence. */
  ghost predicate LogMatchesRows(rows: Rows<IL.Instruction>, log: set<Entry>) {
    && (forall e {:trigger EntryMatchesRow(rows, e)} :: e in log ==> EntryMatchesRow(rows, e))
    && (forall k :: k in rows ==> exists e :: e in log && e.key == k)
    && (forall d, e :: d in log && e in log && d.key == e.key ==> d == e)
  }

  /** No stored content changes; a successful call adds the row its entry names. */
  ghost predicate AddsItsRow(rows: Rows<IL.Instruction>, after: Rows<IL.Instruction>, entry: Option<Entry>) {
    && (forall k :: k in rows ==> k in after && after[k].payload == rows[k].payload)
    && (match entry
        case None => after.Keys == rows.Keys
        case Some(e) => after.Keys == rows.Keys + {e.key} && e.key !in rows && EntryMatchesRow(after, e))
  }

  lemma {:induction false} CreateAddsItsRow(db: IS.Database, excluded: set<string>, c: IS.Call)
    requires c.who != "" && c.request.Create?
    ensures AddsItsRow(db.rows, IS.Serve(db, excluded, c.id, c.request, c.who, c.allowed, c.now).0.rows,
                       EntryOf(db, excluded, c))
  {
    if c.allowed && Key(c.id, 1) !in db.rows {
      forall open { CreationEdge(c.id, c.request.route, c.who, c.now, open); }
    }
  }

  lemma {:induction false} CallAddsItsRow(db: IS.Database, excluded: set<string>, c: IS.Call)
    requires IS.Inv(db, excluded) && c.who != ""
    ensures AddsItsRow(db.rows, IS.Serve(db, excluded, c.id, c.request, c.who, c.allowed, c.now).0.rows,
                       EntryOf(db, excluded, c))
  {
    match c.request
    case Create(route) => CreateAddsItsRow(db, excluded, c);
    case Operate(op) =>
      var v := OpenVersion(db.rows, c.id);
      if v.Some? && c.allowed && IL.Permits(db.rows[Key(c.id, v.value)].payload, op) {
        OperateAddsItsRow(db, excluded, c, v.value, op, IL.Apply(db.rows[Key(c.id, v.value)].payload, op, c.who, c.now));
      }
  }

  lemma {:induction false} OperateAddsItsRow(db: IS.Database, excluded: set<string>, c: IS.Call, v: nat, op: IL.Operation,
                                             content: IL.Instruction)
    requires IS.Inv(db, excluded) && c.who != "" && c.allowed && c.request == IS.Operate(op)
    requires OpenVersion(db.rows, c.id) == Some(v) && IL.Permits(db.rows[Key(c.id, v)].payload, op)
    requires content == IL.Apply(db.rows[Key(c.id, v)].payload, op, c.who, c.now)
    ensures AddsItsRow(db.rows, IS.Serve(db, excluded, c.id, c.request, c.who, c.allowed, c.now).0.rows,
                       EntryOf(db, excluded, c))
  {
    IS.OperateAppends(db, excluded, c.id, v, op, c.who, c.now, content);
    OperationAddsItsRow(db.rows, c.id, v, op, c.who, c.now, content);
  }

  lemma {:induction false} OperationAddsItsRow(rows: Rows<IL.Instruction>, id: string, v: nat, op: IL.Operation,
                                               who: string, now: Clock, content: IL.Instruction)
    requires WellFormed(rows) && IsOpen(rows, id, v) && who != ""
    requires content == IL.Apply(rows[Key(id, v)].payload, op, who, now)
    ensures AddsItsRow(rows, AppendRow(rows, id, v, content, now), Some(Entry(Key(id, v + 1), IL.ActionOf(op), who)))
  {
    AppendKeepsChains(rows, id, v, content, now);
    forall open { OperationEdge(id, v + 1, rows[Key(id, v)].payload, op, who, now, open); }
  }

  lemma {:induction false} GrowLog(rows: Rows<IL.Instruction>, log: set<Entry>, after: Rows<IL.Instruction>, entry: Option<Entry>)
    requires LogMatchesRows(rows, log) && AddsItsRow(rows, after, entry)
    ensures LogMatchesRows(after, log + if entry.Some? then {entry.value} else {})
  {
    var grown := log + if entry.Some? then {entry.value} else {};
    forall e | e in grown
      ensures EntryMatchesRow(after, e)
    {
      if e in log { assert EntryMatchesRow(rows, e); }
    }
    forall k | k in after
      ensures exists e :: e in grown && e.key == k
    {
      if k in rows {
        var e :| e in log && e.key == k;
        assert e in grown;
      } else {
        assert entry.value in grown;
      }
    }
    forall d, e | d in grown && e in grown && d.key == e.key
      ensures d == e
    {
      if d in log { assert EntryMatchesRow(rows, d); }
      if e in log { assert EntryMatchesRow(rows, e); }
    }
  }

  lemma {:induction false} LogMatchesStore(calls: seq<IS.Call>, excluded: set<string>)
    requires forall c :: c in calls ==> c.who != ""
    ensures LogMatchesRows(IS.ServeAll(calls, excluded).rows, OperationLog(calls, excluded))
    decreases |calls|
  {
    if calls != [] {
      var front, c := calls[..|calls| - 1], calls[|calls| - 1];
      LogMatchesStore(front, excluded);
      IS.EveryHistoryReplays(front, excluded);
      var db := IS.ServeAll(front, excluded);
      CallAddsItsRow(db, excluded, c);
      GrowLog(db.rows, OperationLog(front, excluded), IS.ServeAll(calls, excluded).rows, EntryOf(db, excluded, c));
    }
  }

  /** All versions of the instruction have been delivered, each at least once. */
  ghost predicate Covers(facts: seq<Fact>, rows: Rows<IL.Instruction>, id: string) {
    forall v: nat :: Key(id, v) in rows ==>
      exists open :: FactOfInstruction(id, v, rows[Key(id, v)].payload, open) in facts
  }

  /**
   From the calls to the graph: whatever calls the service has served, once all facts of an
   instruction have been processed, in any order and with any repetitions, its lifecycle edges
   are exactly the successful non-UPDATE operations, each from the user who performed it to the
   version it wrote.
   */
  lemma {:induction false} EdgesAreTheOperationLog(calls: seq<IS.Call>, excluded: set<string>, facts: seq<Fact>, id: string,
                                                   edge: LifecycleEdge)
    requires forall c :: c in calls ==> c.who != ""
    requires GraphChain.DrawnFrom(facts, IS.ServeAll(calls, excluded).rows)
    requires Covers(facts, IS.ServeAll(calls, excluded).rows, id)
    requires edge.version.kind == Label.Instruction && edge.version.id == id
    ensures edge in Project(facts).lifecycle <==>
      exists e :: e in OperationLog(calls, excluded) && e.key.id == id && EntryEdge(e) == Some(edge)
  {
    var rows, log := IS.ServeAll(calls, excluded).rows, OperationLog(calls, excluded);
    LogMatchesStore(calls, excluded);
    LifecycleExactly(facts, edge);
    if edge in Project(facts).lifecycle {
      var f :| f in facts && EdgeOf(f) == Some(edge);
      assert edge.version == f.Key() && f.InstructionFact?;
      var e :| e in log && e.key == Key(f.id, f.version);
      assert EntryMatchesRow(rows, e);
    }
    if e :| e in log && e.key.id == id && EntryEdge(e) == Some(edge) {
      assert EntryMatchesRow(rows, e);
      var open :| FactOfInstruction(id, e.key.version, rows[e.key].payload, open) in facts;
    }
  }

  // ----- Against the stored rows, in their own words -----------------------------------------------

  /** The named user, or else the event's actor, or else the creator. */
  predicate Acts(u: string, named: Option<string>, actor: string, creator: string) {
    u != "" && (named == Some(u) || ((named == None || named == Some("")) && (actor == u || (actor == "" && creator == u))))
  }

  /** Which edge from which user a row asks for, whatever the row contains. */
  predicate AsksFor(i: IL.Instruction, edgeType: string, u: string) {
    i.lifecycleEvents != [] &&
    var e := i.lifecycleEvents[|i.lifecycleEvents| - 1];
    || (edgeType == "CREATED_IV" && e.action == IL.CREATE && u != "" && i.createdBy == u)
    || (edgeType == "SUBMITTED_IV" && e.action == IL.SUBMIT && Acts(u, None, e.actor, i.createdBy))
    || (edgeType == "APPROVED_IV" && e.action == IL.APPROVE && Acts(u, i.approvedBy, e.actor, i.createdBy))
    || (edgeType == "REJECTED_IV" && e.action == IL.REJECT && Acts(u, i.rejectedBy, e.actor, i.createdBy))
    || (edgeType == "CANCELLED_IV" && e.action == IL.CANCEL && Acts(u, None, e.actor, i.createdBy))
    || (edgeType == "SUSPENDED_IV" && e.action == IL.SUSPEND && Acts(u, None, e.actor, i.createdBy))
    || (edgeType == "REACTIVATED_IV" && e.action == IL.REACTIVATE && Acts(u, None, e.actor, i.createdBy))
    || (edgeType == "USED_IV" && e.action == IL.USE && Acts(u, None, e.actor, i.createdBy))
    || (edgeType == "RELEASED_IV" && e.action == IL.RELEASE_USE && Acts(u, None, e.actor, i.createdBy))
  }

  lemma {:induction false} RowAsksFor(id: string, v: nat, i: IL.Instruction, open: bool, edgeType: string, u: string)
    ensures EdgeOf(FactOfInstruction(id, v, i, open)) == Some(LifecycleEdge(u, edgeType, NodeKey(Label.Instruction, id, v)))
      <==> AsksFor(i, edgeType, u)
  {
  }

  /** What the row of a served operation shows of it. */
  predicate Shows(i: IL.Instruction, edgeType: string, u: string) {
    i.lifecycleEvents != [] &&
    var e := i.lifecycleEvents[|i.lifecycleEvents| - 1];
    || (edgeType == "CREATED_IV" && e.action == IL.CREATE && i.status == IL.DRAFT && i.createdBy == u)
    || (edgeType == "SUBMITTED_IV" && e.action == IL.SUBMIT && i.status == IL.SUBMITTED && e.actor == u)
    || (edgeType == "APPROVED_IV" && e.action == IL.APPROVE && i.status == IL.APPROVED && i.approvedBy == Some(u))
    || (edgeType == "REJECTED_IV" && e.action == IL.REJECT && i.status == IL.REJECTED && i.rejectedBy == Some(u))
    || (edgeType == "CANCELLED_IV" && e.action == IL.CANCEL && i.status == IL.CANCELLED && e.actor == u)
    || (edgeType == "SUSPENDED_IV" && e.action == IL.SUSPEND && i.status == IL.SUSPENDED && i.suspendedBy == Some(u))
    || (edgeType == "REACTIVATED_IV" && e.action == IL.REACTIVATE && i.status == IL.APPROVED && e.actor == u)
    || (edgeType == "USED_IV" && e.action == IL.USE && i.status in {IL.USED, IL.APPROVED} && e.actor == u)
    || (edgeType == "RELEASED_IV" && e.action == IL.RELEASE_USE && i.status == IL.APPROVED && i.usedBy == None && e.actor == u)
  }

  predicate AllNamed(log: seq<IL.LifecycleEvent>) {
    forall k :: 0 <= k < |log| ==> log[k].actor != ""
  }

  /** For a row that is what its log says, the two are the same. */
  lemma {:induction false} LoggedRowShows(i: IL.Instruction, v: nat, edgeType: string, u: string)
    requires IL.AgreesWithLog(i, v) && IL.StampsAgree(i) && AllNamed(i.lifecycleEvents)
    ensures AsksFor(i, edgeType, u) <==> Shows(i, edgeType, u)
  {
    var log := i.lifecycleEvents;
    assert IL.Last(log, log[|log| - 1].action) == Some(log[|log| - 1]);
  }

  /**
   Row by row: once all facts of an instruction have been processed, in any order and with any
   repetitions, a lifecycle edge is in the graph exactly when the stored row shows that act of that
   user: approved by, rejected by, suspended by, and so on for each of the nine.
   */
  lemma {:induction false} EdgesFollowRows(facts: seq<Fact>, rows: Rows<IL.Instruction>, id: string, v: nat, edgeType: string, u: string)
    requires WellFormed(rows) && IS.LogsReplay(rows) && GraphChain.DrawnFrom(facts, rows) && Covers(facts, rows, id)
    requires Key(id, v) in rows ==> AllNamed(rows[Key(id, v)].payload.lifecycleEvents)
    ensures LifecycleEdge(u, edgeType, NodeKey(Label.Instruction, id, v)) in Project(facts).lifecycle <==>
      Key(id, v) in rows && Shows(rows[Key(id, v)].payload, edgeType, u)
  {
    var edge := LifecycleEdge(u, edgeType, NodeKey(Label.Instruction, id, v));
    LifecycleExactly(facts, edge);
    if edge in Project(facts).lifecycle {
      var f :| f in facts && EdgeOf(f) == Some(edge);
      assert edge.version == f.Key() && f.InstructionFact?;
      RowShowsEdge(rows, id, v, f.open, edgeType, u);
    }
    if Key(id, v) in rows && Shows(rows[Key(id, v)].payload, edgeType, u) {
      var open :| FactOfInstruction(id, v, rows[Key(id, v)].payload, open) in facts;
      RowShowsEdge(rows, id, v, open, edgeType, u);
    }
  }

  lemma {:induction false} RowShowsEdge(rows: Rows<IL.Instruction>, id: string, v: nat, open: bool, edgeType: string, u: string)
    requires IS.LogsReplay(rows) && Key(id, v) in rows && AllNamed(rows[Key(id, v)].payload.lifecycleEvents)
    ensures EdgeOf(FactOfInstruction(id, v, rows[Key(id, v)].payload, open))
        == Some(LifecycleEdge(u, edgeType, NodeKey(Label.Instruction, id, v)))
      <==> Shows(rows[Key(id, v)].payload, edgeType, u)
  {
    assert IS.LogAt(rows, Key(id, v));
    RowAsksFor(id, v, rows[Key(id, v)].payload, open, edgeType, u);
    LoggedRowShows(rows[Key(id, v)].payload, v, edgeType, u);
  }
}
