/** CONFLICTS_WITH against a brute-force comparison of the current versions. */
module GraphConflicts {
  import opened Wrappers
  import opened Facts
  import opened Graph
  import opened GraphChain
  import VS = VersionStore
  import IL = InstructionLifecycle
  import IS = InstructionService

  function InstructionRoot(id: string): RootKey { RootKey(Label.Instruction, id) }

  function InstructionKey(id: string, v: nat): NodeKey { NodeKey(Label.Instruction, id, v) }

  /** The conflict part of a fact transaction. */
  lemma {:induction false} ApplyFactConflicts(g: Graph, f: Fact)
    ensures ApplyFact(g, f).conflicts ==
      if f.InstructionFact? then WithConflicts(Moved(g, f), f).conflicts else g.conflicts
  {
  }

  // ----- Shape: symmetric and irreflexive, for any deliveries at all ------------------

  lemma {:induction false} ConflictsAreSymmetric(facts: seq<Fact>, a: string, b: string)
    ensures (a, b) in Project(facts).conflicts ==> a != b && (b, a) in Project(facts).conflicts
    decreases |facts|
  {
    if facts != [] {
      var front, last := facts[..|facts| - 1], facts[|facts| - 1];
      ConflictsAreSymmetric(front, a, b);
      ConflictsAreSymmetric(front, b, a);
      ApplyFactConflicts(Project(front), last);
    }
  }

  // ----- Content of the version nodes --------------------------------------------------

  predicate NodeMatchesRow(g: Graph, rows: VS.Rows<IL.Instruction>, id: string, v: nat) {
    InstructionKey(id, v) in g.nodes && g.nodes[InstructionKey(id, v)].Filled? ==>
      VS.Key(id, v) in rows && g.nodes[InstructionKey(id, v)] == NodeOf(FactOfInstruction(id, v, rows[VS.Key(id, v)].payload, true))
  }

  lemma {:induction false} NodesMatchRows(facts: seq<Fact>, rows: VS.Rows<IL.Instruction>, id: string, v: nat)
    requires DrawnFrom(facts, rows)
    ensures NodeMatchesRow(Project(facts), rows, id, v)
    decreases |facts|
  {
    if facts != [] {
      var front, last := facts[..|facts| - 1], facts[|facts| - 1];
      NodesMatchRows(front, rows, id, v);
      NodesStep(Project(front), last, rows, id, v);
    }
  }

  /** A delivered version's node shows the stored row's status and terms. */
  lemma {:induction false} NodeShowsRow(facts: seq<Fact>, rows: VS.Rows<IL.Instruction>, id: string, v: nat, open: bool)
    requires DrawnFrom(facts, rows) && VS.Key(id, v) in rows
    requires FactOfInstruction(id, v, rows[VS.Key(id, v)].payload, open) in facts
    ensures InstructionKey(id, v) in Project(facts).nodes
    ensures var node, row := Project(facts).nodes[InstructionKey(id, v)], rows[VS.Key(id, v)].payload;
      && node.Filled? && node.creditorAccount == row.route.creditorAccount && node.currency == row.route.currency
      && node.status.Some? && ShowsStatus(node.status.value, row.status)
  {
    NodesMatchRows(facts, rows, id, v);
    LastOfDelivered(facts, FactOfInstruction(id, v, rows[VS.Key(id, v)].payload, open));
    NodeIsLastFact(facts, InstructionKey(id, v));
    StatusIsShown(rows[VS.Key(id, v)].payload.status);
  }

  lemma {:induction false} NodesStep(g: Graph, f: Fact, rows: VS.Rows<IL.Instruction>, id: string, v: nat)
    requires NodeMatchesRow(g, rows, id, v) && DrawnFrom([f], rows)
    ensures NodeMatchesRow(ApplyFact(g, f), rows, id, v)
  {
    assert f in [f];
    NodeStep(g, f, InstructionKey(id, v));
  }

  /** The instruction's CURRENT version is `v`. */
  ghost predicate CurrentAt(g: Graph, id: string, v: nat) {
    && (forall e :: (InstructionRoot(id), e) in g.current <==> e == InstructionKey(id, v))
    && InstructionKey(id, v) in g.nodes && g.nodes[InstructionKey(id, v)].Filled?
  }

  ghost predicate NoCurrent(g: Graph, id: string) {
    forall e :: (InstructionRoot(id), e) !in g.current
  }

  lemma {:induction false} CurrentIsSomewhere(facts: seq<Fact>, id: string)
    requires AllUsable(facts)
    ensures match NewestOpen(facts, InstructionRoot(id))
      case None => NoCurrent(Project(facts), id)
      case Some(n) => CurrentAt(Project(facts), id, n.version)
  {
    CurrentConverges(facts, InstructionRoot(id));
    NewestOpenIsMaximal(facts, InstructionRoot(id));
  }

  predicate ActiveRow(i: IL.Instruction) { i.status == IL.APPROVED || i.status == IL.SUBMITTED }

  predicate SameAccount(i: IL.Instruction, j: IL.Instruction) {
    i.route.creditorAccount == j.route.creditorAccount && i.route.currency == j.route.currency
  }

  lemma {:induction false} ActiveNames(i: IL.Instruction, id: string, v: nat)
    ensures ActiveStatus(NodeOf(FactOfInstruction(id, v, i, true))) <==> ActiveRow(i)
  {
  }

  // ----- Completeness: any order, any duplicates ------------------------------------------

  ghost predicate LinkedIfShared(g: Graph, rows: VS.Rows<IL.Instruction>, a: string, v: nat, b: string, w: nat)
    requires VS.Key(a, v) in rows && VS.Key(b, w) in rows
  {
    var i, j := rows[VS.Key(a, v)].payload, rows[VS.Key(b, w)].payload;
    ActiveRow(i) && ActiveRow(j) && SameAccount(i, j) && i.route.creditorAccount != "" && i.route.currency != "" ==>
      (a, b) in g.conflicts && (b, a) in g.conflicts
  }

  /** The fact that makes `v` current runs the conflict query with that version's own account. */
  lemma {:induction false} QueryLinks(g: Graph, rows: VS.Rows<IL.Instruction>, f: Fact, b: string, w: nat)
    requires f.InstructionFact? && f.id != b && VS.Key(f.id, f.version) in rows && VS.Key(b, w) in rows
    requires f == FactOfInstruction(f.id, f.version, rows[VS.Key(f.id, f.version)].payload, f.open)
    requires CurrentAt(g, f.id, f.version) && CurrentAt(g, b, w)
    requires NodeMatchesRow(g, rows, f.id, f.version) && NodeMatchesRow(g, rows, b, w)
    ensures LinkedIfShared(WithConflicts(g, f), rows, f.id, f.version, b, w)
    ensures LinkedIfShared(WithConflicts(g, f), rows, b, w, f.id, f.version)
  {
    var i, j := rows[VS.Key(f.id, f.version)].payload, rows[VS.Key(b, w)].payload;
    ActiveNames(i, f.id, f.version);
    ActiveNames(j, b, w);
    if ActiveRow(i) && ActiveRow(j) && SameAccount(i, j) && i.route.creditorAccount != "" && i.route.currency != "" {
      assert (InstructionRoot(f.id), InstructionKey(f.id, f.version)) in g.current;
      assert (InstructionRoot(b), InstructionKey(b, w)) in g.current;
      assert HasActiveCurrent(g, f.id);
      assert b in Rivals(g, f);
    }
  }

  /**
   Whenever two current versions are active and share a creditor account and currency, the
   instructions are linked, whatever the order of delivery and however often facts repeat.
   */
  lemma {:induction false} ConflictsAreComplete(facts: seq<Fact>, rows: VS.Rows<IL.Instruction>, a: string, v: nat, b: string, w: nat)
    requires AllUsable(facts) && DrawnFrom(facts, rows) && a != b
    requires CurrentAt(Project(facts), a, v) && CurrentAt(Project(facts), b, w)
    ensures VS.Key(a, v) in rows && VS.Key(b, w) in rows
    ensures LinkedIfShared(Project(facts), rows, a, v, b, w)
    decreases |facts|
  {
    NodesMatchRows(facts, rows, a, v);
    NodesMatchRows(facts, rows, b, w);
    if facts != [] {
      var front, last := facts[..|facts| - 1], facts[|facts| - 1];
      CurrentIsSomewhere(front, a);
      CurrentIsSomewhere(front, b);
      ApplyFactChain(Project(front), last);
      if !LinkedIfShared(Project(facts), rows, a, v, b, w) {
        CompleteStep(Project(front), last, rows, a, v, b, w);
        ConflictsAreComplete(front, rows, a, v, b, w);
      }
    }
  }

  lemma {:induction false} CompleteStep(g: Graph, f: Fact, rows: VS.Rows<IL.Instruction>, a: string, v: nat, b: string, w: nat)
    requires a != b && DrawnFrom([f], rows) && VS.Key(a, v) in rows && VS.Key(b, w) in rows
    requires CurrentAt(Moved(g, f), a, v) && CurrentAt(Moved(g, f), b, w)
    requires NodeMatchesRow(Moved(g, f), rows, a, v) && NodeMatchesRow(Moved(g, f), rows, b, w)
    requires (NoCurrent(g, a) || exists u :: CurrentAt(g, a, u)) && (NoCurrent(g, b) || exists u :: CurrentAt(g, b, u))
    ensures LinkedIfShared(ApplyFact(g, f), rows, a, v, b, w)
            || (CurrentAt(g, a, v) && CurrentAt(g, b, w)
                && (LinkedIfShared(g, rows, a, v, b, w) ==> LinkedIfShared(ApplyFact(g, f), rows, a, v, b, w)))
  {
    assert f in [f];
    ApplyFactConflicts(g, f);
    if f.Key() == InstructionKey(a, v) && Advances(Chained(g, f), f) {
      QueryLinks(Moved(g, f), rows, f, b, w);
    } else if f.Key() == InstructionKey(b, w) && Advances(Chained(g, f), f) {
      QueryLinks(Moved(g, f), rows, f, a, v);
    } else {
      SettledBefore(g, f, a, v);
      SettledBefore(g, f, b, w);
    }
  }

  /** A fact that does not make `v` current leaves it current if it was. */
  lemma {:induction false} SettledBefore(g: Graph, f: Fact, a: string, v: nat)
    requires CurrentAt(Moved(g, f), a, v)
    requires f.Key() != InstructionKey(a, v) || !Advances(Chained(g, f), f)
    requires NoCurrent(g, a) || exists u :: CurrentAt(g, a, u)
    ensures CurrentAt(g, a, v)
  {
    assert (InstructionRoot(a), InstructionKey(a, v)) in Moved(g, f).current;
    assert (InstructionRoot(a), InstructionKey(a, v)) in g.current;
  }

  // ----- Exactly which links there are, for arbitrary deliveries ----------------------------

  /** The last delivered fact of a version. */
  function LastOf(facts: seq<Fact>, k: NodeKey): Option<Fact> {
    if facts == [] then None
    else if facts[|facts| - 1].Key() == k then Some(facts[|facts| - 1])
    else LastOf(facts[..|facts| - 1], k)
  }

  lemma {:induction false} NodeIsLastFact(facts: seq<Fact>, k: NodeKey)
    ensures var g := Project(facts);
      match LastOf(facts, k)
      case None => k in g.nodes ==> g.nodes[k].Bare?
      case Some(f) => k in g.nodes && g.nodes[k] == NodeOf(f)
    decreases |facts|
  {
    if facts != [] {
      var front, last := facts[..|facts| - 1], facts[|facts| - 1];
      NodeIsLastFact(front, k);
      NodeStep(Project(front), last, k);
    }
  }

  lemma {:induction false} NodeStep(g: Graph, f: Fact, k: NodeKey)
    ensures var after := ApplyFact(g, f);
      && (k == f.Key() ==> k in after.nodes && after.nodes[k] == NodeOf(f))
      && (k != f.Key() && k in g.nodes ==> k in after.nodes && after.nodes[k] == g.nodes[k])
      && (k != f.Key() && k !in g.nodes && k in after.nodes ==> after.nodes[k].Bare?)
  {
    ApplyFactChain(g, f);
  }

  lemma {:induction false} LastOfDelivered(facts: seq<Fact>, f: Fact)
    requires f in facts
    ensures LastOf(facts, f.Key()).Some?
  {
    if facts[|facts| - 1].Key() != f.Key() {
      assert f in facts[..|facts| - 1];
      LastOfDelivered(facts[..|facts| - 1], f);
    }
  }

  /** What the deliveries so far say of the instruction's current version: None if it has none. */
  function CurrentNode(facts: seq<Fact>, id: string): Option<VersionNode> {
    var newest := NewestOpen(facts, InstructionRoot(id));
    if newest.None? then None
    else
      var last := LastOf(facts, newest.value.Key());
      if last.None? then None else Some(NodeOf(last.value))
  }

  lemma {:induction false} CurrentNodeIs(facts: seq<Fact>, id: string)
    requires AllUsable(facts)
    ensures var newest, g := NewestOpen(facts, InstructionRoot(id)), Project(facts);
      if newest.None? then CurrentNode(facts, id).None? && NoCurrent(g, id)
      else CurrentAt(g, id, newest.value.version) && CurrentNode(facts, id) == Some(g.nodes[InstructionKey(id, newest.value.version)])
  {
    CurrentIsSomewhere(facts, id);
    NewestOpenIsMaximal(facts, InstructionRoot(id));
    var newest := NewestOpen(facts, InstructionRoot(id));
    if newest.Some? {
      LastOfDelivered(facts, newest.value);
      NodeIsLastFact(facts, newest.value.Key());
    }
  }

  predicate ActiveNode(node: Option<VersionNode>) {
    node.Some? && node.value.Filled? && node.value.status in {Some("SUBMITTED"), Some("APPROVED")}
  }

  predicate CarriesTerms(f: Fact, node: Option<VersionNode>) {
    && f.InstructionFact? && node.Some? && node.value.Filled?
    && node.value.creditorAccount == f.instruction.creditorAccount && node.value.currency == f.instruction.currency
  }

  /**
   Delivery k is of `a` and its rival query finds `b`: both current versions are active at that
   moment, and the terms of `b` equal those of the delivered fact (not necessarily those of `a`).
   */
  predicate Finds(facts: seq<Fact>, k: nat, a: string, b: string) {
    && k < |facts| && facts[k].InstructionFact? && facts[k].id == a
    && facts[k].instruction.creditorAccount != "" && facts[k].instruction.currency != ""
    && ActiveNode(CurrentNode(facts[..k + 1], a))
    && ActiveNode(CurrentNode(facts[..k + 1], b)) && CarriesTerms(facts[k], CurrentNode(facts[..k + 1], b))
  }

  ghost predicate EverFinds(facts: seq<Fact>, a: string, b: string) {
    exists k: nat :: k < |facts| && Finds(facts, k, a, b)
  }

  lemma {:induction false} EverFindsGrows(facts: seq<Fact>, a: string, b: string)
    requires facts != []
    ensures EverFinds(facts, a, b) <==>
      EverFinds(facts[..|facts| - 1], a, b) || Finds(facts, |facts| - 1, a, b)
  {
    var front := facts[..|facts| - 1];
    forall k: nat | k < |front|
      ensures Finds(front, k, a, b) <==> Finds(facts, k, a, b)
    {
      assert front[..k + 1] == facts[..k + 1];
    }
  }

  /** The query of one transaction, given where the two CURRENT edges are. */
  lemma {:induction false} QueryFinds(g: Graph, f: Fact, a: string, b: string, node: Option<VersionNode>, rival: Option<VersionNode>)
    requires f.InstructionFact? && f.id == a && a != b
    requires NodeOfCurrent(g, a, node) && NodeOfCurrent(g, b, rival)
    ensures HasActiveCurrent(g, a) <==> ActiveNode(node)
    ensures b in Rivals(g, f) <==> ActiveNode(rival) && CarriesTerms(f, rival)
  {
    if node.Some? {
      var v: nat :| CurrentAt(g, a, v) && g.nodes[InstructionKey(a, v)] == node.value;
      assert (InstructionRoot(a), InstructionKey(a, v)) in g.current;
      assert forall e | e in g.current && e.0 == InstructionRoot(a) :: (InstructionRoot(a), e.1) in g.current;
    } else {
      assert forall e | e in g.current && e.0 == InstructionRoot(a) :: (InstructionRoot(a), e.1) in g.current;
    }
    RivalIs(g, f, b, rival);
  }

  lemma {:induction false} RivalIs(g: Graph, f: Fact, b: string, rival: Option<VersionNode>)
    requires f.InstructionFact? && f.id != b && NodeOfCurrent(g, b, rival)
    ensures b in Rivals(g, f) <==> ActiveNode(rival) && CarriesTerms(f, rival)
  {
    assert forall e | e in g.current && e.0 == InstructionRoot(b) :: (InstructionRoot(b), e.1) in g.current;
    if rival.Some? {
      var w: nat :| CurrentAt(g, b, w) && g.nodes[InstructionKey(b, w)] == rival.value;
      assert (InstructionRoot(b), InstructionKey(b, w)) in g.current;
    }
  }

  /** The instruction's CURRENT version node. */
  ghost predicate NodeOfCurrent(g: Graph, id: string, node: Option<VersionNode>) {
    if node.None? then NoCurrent(g, id)
    else exists v: nat :: CurrentAt(g, id, v) && g.nodes[InstructionKey(id, v)] == node.value
  }

  /**
   For any deliveries, in any order and with any repetitions: two instructions are linked exactly
   when some delivery of one of them found the other.
   */
  lemma {:induction false} LinkedExactly(facts: seq<Fact>, a: string, b: string)
    requires AllUsable(facts) && a != b
    ensures (a, b) in Project(facts).conflicts <==> EverFinds(facts, a, b) || EverFinds(facts, b, a)
    decreases |facts|
  {
    if facts != [] {
      var front, last := facts[..|facts| - 1], facts[|facts| - 1];
      LinkedExactly(front, a, b);
      EverFindsGrows(facts, a, b);
      EverFindsGrows(facts, b, a);
      LastDeliveryLinks(facts, a, b);
    }
  }

  lemma {:induction false} LastDeliveryLinks(facts: seq<Fact>, a: string, b: string)
    requires AllUsable(facts) && a != b && facts != []
    ensures var last := |facts| - 1;
      (a, b) in Project(facts).conflicts <==>
        (a, b) in Project(facts[..last]).conflicts || Finds(facts, last, a, b) || Finds(facts, last, b, a)
  {
    var front, f := facts[..|facts| - 1], facts[|facts| - 1];
    assert facts[..|facts|] == facts;
    ApplyFactConflicts(Project(front), f);
    if f.InstructionFact? && f.id == a {
      CurrentNodesAtQuery(facts, a);
      CurrentNodesAtQuery(facts, b);
      QueryFinds(Moved(Project(front), f), f, a, b, CurrentNode(facts, a), CurrentNode(facts, b));
    } else if f.InstructionFact? && f.id == b {
      CurrentNodesAtQuery(facts, a);
      CurrentNodesAtQuery(facts, b);
      QueryFinds(Moved(Project(front), f), f, b, a, CurrentNode(facts, b), CurrentNode(facts, a));
    }
  }

  lemma {:induction false} CurrentNodesAtQuery(facts: seq<Fact>, id: string)
    requires AllUsable(facts) && facts != []
    ensures NodeOfCurrent(Moved(Project(facts[..|facts| - 1]), facts[|facts| - 1]), id, CurrentNode(facts, id))
  {
    CurrentNodeIs(facts, id);
    ApplyFactChain(Project(facts[..|facts| - 1]), facts[|facts| - 1]);
  }

  // ----- Which links are real clashes, for facts of the store ------------------------------------

  /** Once submitted, an instruction's route no longer changes: UPDATE is for drafts only. */
  lemma {:induction false} RouteForward(rows: VS.Rows<IL.Instruction>, id: string, v: nat, w: nat)
    requires VS.WellFormed(rows) && IS.LogsReplay(rows)
    requires VS.Key(id, v) in rows && VS.Key(id, w) in rows && v <= w
    requires rows[VS.Key(id, v)].payload.status != IL.DRAFT
    ensures rows[VS.Key(id, w)].payload.status != IL.DRAFT
    ensures rows[VS.Key(id, w)].payload.route == rows[VS.Key(id, v)].payload.route
    decreases w - v
  {
    if v < w {
      assert VS.WellFormedAt(rows, VS.Key(id, v));
      VS.ContiguousBelow(rows, id, w, v + 1);
      assert IS.LogAt(rows, VS.Key(id, v + 1));
      var before := rows[VS.Key(id, v)].payload;
      var op, who, now :| IL.Permits(before, op) && rows[VS.Key(id, v + 1)].payload == IL.Apply(before, op, who, now);
      IL.RouteFinalAfterDraft(before, op, who, now);
      RouteForward(rows, id, v + 1, w);
    }
  }

  /** Two rows past DRAFT that share a proper account and currency. */
  predicate Clash(rows: VS.Rows<IL.Instruction>, a: string, v: nat, b: string, w: nat) {
    && VS.Key(a, v) in rows && VS.Key(b, w) in rows
    && rows[VS.Key(a, v)].payload.status != IL.DRAFT && rows[VS.Key(b, w)].payload.status != IL.DRAFT
    && SameAccount(rows[VS.Key(a, v)].payload, rows[VS.Key(b, w)].payload)
    && rows[VS.Key(a, v)].payload.route.creditorAccount != "" && rows[VS.Key(a, v)].payload.route.currency != ""
  }

  /** A link is real when the current versions of both instructions are past DRAFT and share their terms. */
  ghost predicate LinkIsSound(g: Graph, rows: VS.Rows<IL.Instruction>, a: string, b: string) {
    (a, b) in g.conflicts ==> exists v: nat, w: nat :: CurrentAt(g, a, v) && CurrentAt(g, b, w) && Clash(rows, a, v, b, w)
  }

  /** The query finds `b` with terms that the current version of `a` does not have. */
  predicate Forges(facts: seq<Fact>, k: nat, a: string, b: string) {
    Finds(facts, k, a, b) && !CarriesTerms(facts[k], CurrentNode(facts[..k + 1], a))
  }

  ghost predicate EverForges(facts: seq<Fact>, a: string, b: string) {
    exists k: nat :: k < |facts| && Forges(facts, k, a, b)
  }

  /** An instruction whose current version was active has kept its route since, and still has a current version. */
  lemma {:induction false} ActiveKeepsRoute(facts: seq<Fact>, rows: VS.Rows<IL.Instruction>, k: nat, id: string)
    returns (u: nat, v: nat)
    requires VS.WellFormed(rows) && IS.LogsReplay(rows) && DrawnFrom(facts, rows) && AllUsable(facts)
    requires k < |facts| && ActiveNode(CurrentNode(facts[..k + 1], id))
    ensures VS.Key(id, u) in rows && VS.Key(id, v) in rows && CurrentAt(Project(facts), id, v)
    ensures rows[VS.Key(id, u)].payload.status != IL.DRAFT && rows[VS.Key(id, v)].payload.status != IL.DRAFT
    ensures rows[VS.Key(id, u)].payload.route == rows[VS.Key(id, v)].payload.route
    ensures CurrentNode(facts[..k + 1], id) == Some(NodeOf(FactOfInstruction(id, u, rows[VS.Key(id, u)].payload, true)))
    ensures NewestOpen(facts[..k + 1], InstructionRoot(id)).Some? && NewestOpen(facts[..k + 1], InstructionRoot(id)).value.version == u
  {
    var seen, root := facts[..k + 1], InstructionRoot(id);
    assert forall f :: f in seen ==> f in facts;
    CurrentNodeIs(seen, id);
    u := NewestOpen(seen, root).value.version;
    NodesMatchRows(seen, rows, id, u);
    ActiveNames(rows[VS.Key(id, u)].payload, id, u);
    NewestOpenIsMaximal(seen, root);
    NewestOpenIsMaximal(facts, root);
    assert IsOpenOf(NewestOpen(seen, root).value, root);
    v := NewestOpen(facts, root).value.version;
    CurrentNodeIs(facts, id);
    NodesMatchRows(facts, rows, id, v);
    RouteForward(rows, id, u, v);
  }

  /** What a hit says of the two rows that are current in the end. */
  lemma {:induction false} FindMeans(facts: seq<Fact>, rows: VS.Rows<IL.Instruction>, k: nat, a: string, b: string)
    returns (v: nat, w: nat)
    requires VS.WellFormed(rows) && IS.LogsReplay(rows) && DrawnFrom(facts, rows) && AllUsable(facts)
    requires Finds(facts, k, a, b)
    ensures CurrentAt(Project(facts), a, v) && CurrentAt(Project(facts), b, w)
    ensures VS.Key(a, v) in rows && VS.Key(b, w) in rows
    ensures Clash(rows, a, v, b, w) <==> SameAccount(rows[VS.Key(a, v)].payload, rows[VS.Key(b, w)].payload)
    ensures Clash(rows, b, w, a, v) <==> Clash(rows, a, v, b, w)
    ensures Clash(rows, a, v, b, w) <==> !Forges(facts, k, a, b)
  {
    var u, x;
    u, v := ActiveKeepsRoute(facts, rows, k, a);
    x, w := ActiveKeepsRoute(facts, rows, k, b);
  }

  lemma {:induction false} CurrentIsOne(g: Graph, id: string, v: nat, w: nat)
    requires CurrentAt(g, id, v) && CurrentAt(g, id, w)
    ensures v == w
  {
    assert (InstructionRoot(id), InstructionKey(id, v)) in g.current;
  }

  /**
   Exactly when a link is real, for any order and any repetitions of the store's facts: when no
   delivery of either instruction found the other with terms its own current version does not have.
   */
  lemma {:induction false} LinkIsSoundIff(facts: seq<Fact>, rows: VS.Rows<IL.Instruction>, a: string, b: string)
    requires VS.WellFormed(rows) && IS.LogsReplay(rows) && DrawnFrom(facts, rows) && AllUsable(facts) && a != b
    ensures LinkIsSound(Project(facts), rows, a, b) <==> !EverForges(facts, a, b) && !EverForges(facts, b, a)
  {
    LinkedExactly(facts, a, b);
    var g := Project(facts);
    forall k: nat | k < |facts| && Forges(facts, k, a, b)
      ensures !LinkIsSound(g, rows, a, b)
    {
      ForgeryIsUnsound(facts, rows, k, a, b);
    }
    forall k: nat | k < |facts| && Forges(facts, k, b, a)
      ensures !LinkIsSound(g, rows, a, b)
    {
      ForgeryIsUnsound(facts, rows, k, b, a);
    }
    if !EverForges(facts, a, b) && !EverForges(facts, b, a) && (a, b) in g.conflicts {
      if EverFinds(facts, a, b) {
        var k: nat :| k < |facts| && Finds(facts, k, a, b);
        var v, w := FindMeans(facts, rows, k, a, b);
        assert CurrentAt(g, a, v) && CurrentAt(g, b, w) && Clash(rows, a, v, b, w);
      } else {
        var k: nat :| k < |facts| && Finds(facts, k, b, a);
        var w, v := FindMeans(facts, rows, k, b, a);
        assert CurrentAt(g, a, v) && CurrentAt(g, b, w) && Clash(rows, a, v, b, w);
      }
    }
  }

  lemma {:induction false} ForgeryIsUnsound(facts: seq<Fact>, rows: VS.Rows<IL.Instruction>, k: nat, a: string, b: string)
    requires VS.WellFormed(rows) && IS.LogsReplay(rows) && DrawnFrom(facts, rows) && AllUsable(facts) && a != b
    requires Forges(facts, k, a, b)
    ensures !LinkIsSound(Project(facts), rows, a, b) && !LinkIsSound(Project(facts), rows, b, a)
  {
    var g := Project(facts);
    var v, w := FindMeans(facts, rows, k, a, b);
    LinkedExactly(facts, a, b);
    LinkedExactly(facts, b, a);
    forall x: nat, y: nat | CurrentAt(g, a, x) && CurrentAt(g, b, y)
      ensures x == v && y == w
    {
      CurrentIsOne(g, a, x, v);
      CurrentIsOne(g, b, y, w);
    }
  }

  ghost predicate AllLinksSound(g: Graph, rows: VS.Rows<IL.Instruction>) {
    forall a: string, b: string {:trigger LinkIsSound(g, rows, a, b)} :: a != b ==> LinkIsSound(g, rows, a, b)
  }

  ghost predicate NoneForges(facts: seq<Fact>) {
    forall a: string, b: string {:trigger EverForges(facts, a, b)} :: a != b ==> !EverForges(facts, a, b)
  }

  /** Every link the graph holds is a real clash exactly when no delivery forges one. */
  lemma {:induction false} AllLinksSoundIff(facts: seq<Fact>, rows: VS.Rows<IL.Instruction>)
    requires VS.WellFormed(rows) && IS.LogsReplay(rows) && DrawnFrom(facts, rows) && AllUsable(facts)
    ensures AllLinksSound(Project(facts), rows) <==> NoneForges(facts)
  {
    if NoneForges(facts) {
      forall a: string, b: string | a != b
        ensures LinkIsSound(Project(facts), rows, a, b)
      {
        LinkIsSoundIff(facts, rows, a, b);
      }
    }
    if AllLinksSound(Project(facts), rows) {
      forall a: string, b: string | a != b
        ensures !EverForges(facts, a, b)
      {
        LinkIsSoundIff(facts, rows, a, b);
      }
    }
  }

  /** Two active current versions are linked exactly when they share account and currency, or a delivery forged the link. */
  lemma {:induction false} ActiveLinkedIff(facts: seq<Fact>, rows: VS.Rows<IL.Instruction>, a: string, v: nat, b: string, w: nat)
    requires VS.WellFormed(rows) && IS.LogsReplay(rows) && DrawnFrom(facts, rows) && AllUsable(facts) && a != b
    requires CurrentAt(Project(facts), a, v) && CurrentAt(Project(facts), b, w)
    requires VS.Key(a, v) in rows && VS.Key(b, w) in rows
    requires ActiveRow(rows[VS.Key(a, v)].payload) && ActiveRow(rows[VS.Key(b, w)].payload)
    ensures (a, b) in Project(facts).conflicts <==>
      Clash(rows, a, v, b, w) || EverForges(facts, a, b) || EverForges(facts, b, a)
  {
    LinkIsSoundIff(facts, rows, a, b);
    LinkedExactly(facts, a, b);
    ConflictsAreComplete(facts, rows, a, v, b, w);
    var g := Project(facts);
    if (a, b) in g.conflicts && !EverForges(facts, a, b) && !EverForges(facts, b, a) {
      var x: nat, y: nat :| CurrentAt(g, a, x) && CurrentAt(g, b, y) && Clash(rows, a, x, b, y);
      CurrentIsOne(g, a, x, v);
      CurrentIsOne(g, b, y, w);
    }
  }

  // ----- In order per instruction, interleaved at will across instructions -----------------------

  predicate SameInstruction(f: Fact, g: Fact) { f.InstructionFact? && g.InstructionFact? && f.id == g.id }

  /** A later delivery of an instruction is never of an earlier version; repetitions are allowed. */
  predicate InOrder(facts: seq<Fact>) {
    forall i, j :: 0 <= i < j < |facts| && SameInstruction(facts[i], facts[j]) ==> facts[i].version <= facts[j].version
  }

  /** In order, a fact is at or past its instruction's current version. */
  lemma {:induction false} CurrentIsNotAhead(facts: seq<Fact>, k: nat, a: string)
    requires InOrder(facts) && k < |facts| && facts[k].InstructionFact? && facts[k].id == a
    ensures var newest := NewestOpen(facts[..k + 1], InstructionRoot(a));
      newest.Some? ==> newest.value.version <= facts[k].version
  {
    var seen, newest := facts[..k + 1], NewestOpen(facts[..k + 1], InstructionRoot(a));
    NewestOpenIsMaximal(seen, InstructionRoot(a));
    if newest.Some? {
      var i :| 0 <= i < |seen| && seen[i] == newest.value;
      assert SameInstruction(facts[i], facts[k]);
    }
  }

  /** An active version's terms are final, so a fact at or past it carries the same. */
  lemma {:induction false} LaterFactCarriesTerms(f: Fact, rows: VS.Rows<IL.Instruction>, a: string, u: nat)
    requires VS.WellFormed(rows) && IS.LogsReplay(rows) && DrawnFrom([f], rows) && f.InstructionFact? && f.id == a
    requires VS.Key(a, u) in rows && u <= f.version && rows[VS.Key(a, u)].payload.status != IL.DRAFT
    ensures CarriesTerms(f, Some(NodeOf(FactOfInstruction(a, u, rows[VS.Key(a, u)].payload, true))))
  {
    assert f in [f];
    RouteForward(rows, a, u, f.version);
  }

  lemma {:induction false} InOrderNeverForges(facts: seq<Fact>, rows: VS.Rows<IL.Instruction>, a: string, b: string)
    requires VS.WellFormed(rows) && IS.LogsReplay(rows) && DrawnFrom(facts, rows) && AllUsable(facts) && InOrder(facts)
    ensures !EverForges(facts, a, b)
  {
    forall k: nat | k < |facts| && Finds(facts, k, a, b)
      ensures !Forges(facts, k, a, b)
    {
      var u, v := ActiveKeepsRoute(facts, rows, k, a);
      CurrentIsNotAhead(facts, k, a);
      LaterFactCarriesTerms(facts[k], rows, a, u);
    }
  }

  /** In order, every link is real. */
  lemma {:induction false} LinksAreSound(facts: seq<Fact>, rows: VS.Rows<IL.Instruction>, a: string, b: string)
    requires VS.WellFormed(rows) && IS.LogsReplay(rows) && DrawnFrom(facts, rows)
    requires AllUsable(facts) && InOrder(facts) && a != b
    ensures LinkIsSound(Project(facts), rows, a, b)
  {
    InOrderNeverForges(facts, rows, a, b);
    InOrderNeverForges(facts, rows, b, a);
    LinkIsSoundIff(facts, rows, a, b);
  }

  /**
   With each instruction's facts delivered in order (repeats allowed) and interleaved at will,
   two instructions whose current versions are both SUBMITTED or APPROVED are linked exactly
   when they share creditor account and currency.
   */
  lemma {:induction false} ConflictsMatchBruteForce(facts: seq<Fact>, rows: VS.Rows<IL.Instruction>,
                                                    a: string, v: nat, b: string, w: nat)
    requires VS.WellFormed(rows) && IS.LogsReplay(rows) && DrawnFrom(facts, rows)
    requires AllUsable(facts) && InOrder(facts) && a != b
    requires CurrentAt(Project(facts), a, v) && CurrentAt(Project(facts), b, w)
    requires VS.Key(a, v) in rows && VS.Key(b, w) in rows
    requires ActiveRow(rows[VS.Key(a, v)].payload) && ActiveRow(rows[VS.Key(b, w)].payload)
    ensures (a, b) in Project(facts).conflicts <==>
      && SameAccount(rows[VS.Key(a, v)].payload, rows[VS.Key(b, w)].payload)
      && rows[VS.Key(a, v)].payload.route.creditorAccount != "" && rows[VS.Key(a, v)].payload.route.currency != ""
  {
    InOrderNeverForges(facts, rows, a, b);
    InOrderNeverForges(facts, rows, b, a);
    ActiveLinkedIff(facts, rows, a, v, b, w);
  }

  /**
   Order matters for soundness: a replayed draft with an old account runs the query with that
   account while a later version is current, and links instructions that share nothing.
   */
  lemma {:induction false} ReplayedDraftForgesLink(a: string, b: string, who: string)
    returns (facts: seq<Fact>)
    requires a != b
    ensures AllUsable(facts) && (a, b) in Project(facts).conflicts
    ensures CurrentAt(Project(facts), a, 3) && Project(facts).nodes[InstructionKey(a, 3)].creditorAccount == "new"
    ensures CurrentAt(Project(facts), b, 2) && Project(facts).nodes[InstructionKey(b, 2)].creditorAccount == "old"
  {
    var f := FactWith(a, 3, "SUBMIT", "SUBMITTED", "new", who);
    var h := FactWith(b, 2, "SUBMIT", "SUBMITTED", "old", who);
    var stale := FactWith(a, 1, "CREATE", "DRAFT", "old", who);
    NodeOfFactWith(a, 3, "SUBMIT", "new", who);
    NodeOfFactWith(b, 2, "SUBMIT", "old", who);
    AllThreeUsable(f, h, stale);
    ForgeInSteps(f, h, stale);
    facts := [f, h, stale];
  }

  function FactWith(id: string, version: nat, action: string, status: string, account: string, who: string): Fact {
    InstructionFact(id, version, true, action, Some(who), InstructionSnapshot(status, "USD", account, Some(who), None, None, None, None))
  }

  lemma {:induction false} NodeOfFactWith(id: string, version: nat, action: string, account: string, who: string)
    ensures var node := NodeOf(FactWith(id, version, action, "SUBMITTED", account, who));
      ActiveStatus(node) && node.creditorAccount == account
  {
  }

  lemma {:induction false} AllThreeUsable(f: Fact, h: Fact, stale: Fact)
    requires Usable(f.RootLabel(), f.Status()) && Usable(h.RootLabel(), h.Status()) && Usable(stale.RootLabel(), stale.Status())
    ensures AllUsable([f, h, stale])
  {
  }

  lemma {:induction false} ForgeInSteps(f: Fact, h: Fact, stale: Fact)
    requires f.InstructionFact? && h.InstructionFact? && stale.InstructionFact? && f.open && h.open
    requires f.id == stale.id != h.id && stale.version + 1 < f.version
    requires ActiveStatus(NodeOf(f)) && ActiveStatus(NodeOf(h))
    requires stale.instruction.creditorAccount == h.instruction.creditorAccount != ""
    requires stale.instruction.currency == h.instruction.currency != ""
    ensures var g := Project([f, h, stale]);
      && (f.id, h.id) in g.conflicts && CurrentAt(g, f.id, f.version) && CurrentAt(g, h.id, h.version)
      && g.nodes[f.Key()] == NodeOf(f) && g.nodes[h.Key()] == NodeOf(h)
  {
    ProjectThree(f, h, stale);
    var g := TwoCurrent(f, h);
    StaleQuery(g, stale, f.id, f.version, h.id, h.version);
  }

  lemma {:induction false} OtherFactKeepsCurrent(g: Graph, f: Fact, a: string, v: nat)
    requires (!f.InstructionFact? || f.id != a) && CurrentAt(g, a, v)
    ensures CurrentAt(ApplyFact(g, f), a, v)
  {
    ApplyFactChain(g, f);
    assert forall e :: (InstructionRoot(a), e) in Moved(g, f).current <==> (InstructionRoot(a), e) in g.current;
  }

  lemma {:induction false} TwoCurrent(f: Fact, h: Fact) returns (g: Graph)
    requires f.InstructionFact? && h.InstructionFact? && f.open && h.open && f.id != h.id
    ensures g == ApplyFact(ApplyFact(EMPTY, f), h)
    ensures CurrentAt(g, f.id, f.version) && g.nodes[f.Key()] == NodeOf(f)
    ensures CurrentAt(g, h.id, h.version) && g.nodes[h.Key()] == NodeOf(h)
  {
    FirstFactIsCurrent(EMPTY, f);
    g := AlsoCurrent(ApplyFact(EMPTY, f), f, h);
  }

  lemma {:induction false} AlsoCurrent(g1: Graph, f: Fact, h: Fact) returns (g: Graph)
    requires f.InstructionFact? && h.InstructionFact? && h.open && f.id != h.id
    requires CurrentAt(g1, f.id, f.version) && g1.nodes[f.Key()] == NodeOf(f) && NoCurrent(g1, h.id)
    ensures g == ApplyFact(g1, h)
    ensures CurrentAt(g, f.id, f.version) && g.nodes[f.Key()] == NodeOf(f)
    ensures CurrentAt(g, h.id, h.version) && g.nodes[h.Key()] == NodeOf(h)
  {
    g := ApplyFact(g1, h);
    FirstFactIsCurrent(g1, h);
    OtherFactKeepsCurrent(g1, h, f.id, f.version);
    OtherFactKeepsNode(g1, h, f.id, f.version);
  }

  lemma {:induction false} ProjectThree(f: Fact, h: Fact, stale: Fact)
    ensures Project([f, h, stale]) == ApplyFact(ApplyFact(ApplyFact(EMPTY, f), h), stale)
  {
    assert [f, h, stale][..2] == [f, h] && [f, h][..1] == [f] && [f][..0] == [];
    assert Project([f]) == ApplyFact(Project([]), f);
    assert Project([f, h]) == ApplyFact(Project([f]), h);
  }

  lemma {:induction false} FirstFactIsCurrent(g: Graph, f: Fact)
    requires f.InstructionFact? && f.open && NoCurrent(g, f.id)
    ensures CurrentAt(ApplyFact(g, f), f.id, f.version) && ApplyFact(g, f).nodes[f.Key()] == NodeOf(f)
    ensures forall c :: c != f.id && NoCurrent(g, c) ==> NoCurrent(ApplyFact(g, f), c)
  {
    ApplyFactChain(g, f);
    assert forall e | e in Chained(g, f).current :: e == (e.0, e.1);
  }

  lemma {:induction false} OtherFactKeepsNode(g: Graph, f: Fact, a: string, v: nat)
    requires f.InstructionFact? && f.id != a && InstructionKey(a, v) in g.nodes
    ensures InstructionKey(a, v) in ApplyFact(g, f).nodes
    ensures ApplyFact(g, f).nodes[InstructionKey(a, v)] == g.nodes[InstructionKey(a, v)]
  {
    ApplyFactChain(g, f);
  }

  lemma {:induction false} StaleQuery(g: Graph, stale: Fact, a: string, v: nat, b: string, w: nat)
    requires stale.InstructionFact? && stale.id == a && a != b && stale.version + 1 < v
    requires CurrentAt(g, a, v) && ActiveStatus(g.nodes[InstructionKey(a, v)])
    requires CurrentAt(g, b, w) && ActiveStatus(g.nodes[InstructionKey(b, w)])
    requires stale.instruction.creditorAccount == g.nodes[InstructionKey(b, w)].creditorAccount != ""
    requires stale.instruction.currency == g.nodes[InstructionKey(b, w)].currency != ""
    ensures var after := ApplyFact(g, stale);
      && (a, b) in after.conflicts && CurrentAt(after, a, v) && CurrentAt(after, b, w)
      && after.nodes[InstructionKey(a, v)] == g.nodes[InstructionKey(a, v)]
      && after.nodes[InstructionKey(b, w)] == g.nodes[InstructionKey(b, w)]
  {
    StaleKeepsCurrent(g, stale, a, v, b, w);
    ApplyFactConflicts(g, stale);
    ApplyFactChain(g, stale);
    var moved := Moved(g, stale);
    assert (InstructionRoot(b), InstructionKey(b, w)) in moved.current;
    assert (InstructionRoot(a), InstructionKey(a, v)) in moved.current;
    assert b in Rivals(moved, stale);
    assert HasActiveCurrent(moved, a);
  }

  lemma {:induction false} StaleKeepsCurrent(g: Graph, stale: Fact, a: string, v: nat, b: string, w: nat)
    requires stale.InstructionFact? && stale.id == a && a != b && stale.version + 1 < v
    requires CurrentAt(g, a, v) && ActiveStatus(g.nodes[InstructionKey(a, v)]) && CurrentAt(g, b, w)
    ensures var moved := Moved(g, stale);
      && moved.current == g.current
      && moved.nodes[InstructionKey(a, v)] == g.nodes[InstructionKey(a, v)]
      && moved.nodes[InstructionKey(b, w)] == g.nodes[InstructionKey(b, w)]
  {
    assert (InstructionRoot(a), InstructionKey(a, v)) in Chained(g, stale).current;
    assert forall e | e in Chained(g, stale).current :: e.0 == InstructionRoot(a) ==> e == (InstructionRoot(a), e.1);
    assert !Advances(Chained(g, stale), stale);
  }
}
