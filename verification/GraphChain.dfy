/** CURRENT and SUPERSEDES after any sequence of deliveries. */
module GraphChain {
  import opened Wrappers
  import opened Facts
  import opened Graph
  import VS = VersionStore
  import IL = InstructionLifecycle
  import PL = PaymentLifecycle

  /** Of the delivered facts of one root: the last one that is open and of maximal version. */
  function NewestOpen(facts: seq<Fact>, root: RootKey): Option<Fact> {
    if facts == [] then None
    else
      var before, f := NewestOpen(facts[..|facts| - 1], root), facts[|facts| - 1];
      if RootOf(f.Key()) == root && f.open && (before.None? || f.version >= before.value.version) then Some(f) else before
  }

  predicate IsOpenOf(f: Fact, root: RootKey) { f.open && RootOf(f.Key()) == root }

  lemma {:induction false} NewestOpenIsMaximal(facts: seq<Fact>, root: RootKey)
    ensures match NewestOpen(facts, root)
      case None => forall f :: f in facts ==> !IsOpenOf(f, root)
      case Some(n) => n in facts && IsOpenOf(n, root) && forall f :: f in facts && IsOpenOf(f, root) ==> f.version <= n.version
  {
    if facts != [] {
      NewestOpenIsMaximal(facts[..|facts| - 1], root);
      assert facts == facts[..|facts| - 1] + [facts[|facts| - 1]];
    }
  }

  /** Every delivered fact carries a status. */
  predicate AllUsable(facts: seq<Fact>) {
    forall f :: f in facts ==> Usable(f.RootLabel(), f.Status())
  }

  ghost predicate CurrentIs(g: Graph, root: RootKey, newest: Option<Fact>) {
    && (forall e :: (root, e) in g.current <==> newest.Some? && e == newest.value.Key())
    && (newest.Some? ==>
          && RootOf(newest.value.Key()) == root
          && newest.value.Key() in g.nodes && !Lacks(root.kind, g.nodes[newest.value.Key()])
          && root in g.roots && g.roots[root] == Some(PropsOf(newest.value)))
  }

  function Chained(g: Graph, f: Fact): Graph { LinkPrevious(MergeVersion(g, f), f) }

  function Moved(g: Graph, f: Fact): Graph { if Advances(Chained(g, f), f) then MoveCurrent(Chained(g, f), f) else Chained(g, f) }

  ghost predicate SameChain(g: Graph, after: Graph) {
    && after.nodes == g.nodes && after.supersedes == g.supersedes && after.current == g.current
    && (forall root :: root in g.roots ==> root in after.roots && after.roots[root] == g.roots[root])
  }

  /** The later statements of an instruction transaction leave chain and CURRENT alone. */
  lemma {:induction false} InstructionTailKeepsChain(g: Graph, f: Fact)
    requires f.InstructionFact?
    ensures SameChain(g, WithRelease(WithLifecycle(WithConflicts(g, f), f), f))
    ensures WithRelease(WithLifecycle(WithConflicts(g, f), f), f).lifecycle == WithLifecycle(g, f).lifecycle
  {
  }

  lemma {:induction false} PaymentTailKeepsChain(g: Graph, f: Fact)
    requires f.PaymentFact?
    ensures SameChain(g, WithLifecycle(WithConsumption(g, f), f)) && SameChain(g, WithLifecycle(g, f))
    ensures WithLifecycle(WithConsumption(g, f), f).lifecycle == WithLifecycle(g, f).lifecycle
  {
  }

  /** The chain part of a fact transaction, whatever else it writes. */
  lemma {:induction false} ApplyFactChain(g: Graph, f: Fact)
    ensures SameChain(Moved(g, f), ApplyFact(g, f))
    ensures ApplyFact(g, f).lifecycle == if EdgeOf(f).Some? then g.lifecycle + {EdgeOf(f).value} else g.lifecycle
  {
    if f.InstructionFact? { InstructionTailKeepsChain(Moved(g, f), f); } else { PaymentTailKeepsChain(Moved(g, f), f); }
  }

  /** The WHERE clause, given the one edge it can meet. */
  lemma {:induction false} AdvancesExactlyWhen(g: Graph, f: Fact, root: RootKey, before: Option<Fact>)
    requires CurrentIs(g, root, before) && Usable(f.RootLabel(), f.Status()) && RootOf(f.Key()) == root
    ensures Advances(Chained(g, f), f) <==> f.open && (before.None? || f.version >= before.value.version)
  {
    var linked := Chained(g, f);
    if before.Some? {
      assert (root, before.value.Key()) in linked.current;
      assert before.value.Key() in linked.nodes && !Lacks(root.kind, linked.nodes[before.value.Key()]);
    }
    assert forall e | e in linked.current :: e.0 == root ==> (root, e.1) == e;
  }

  lemma {:induction false} MovedCurrent(g: Graph, f: Fact, root: RootKey, before: Option<Fact>)
    requires CurrentIs(g, root, before) && Usable(f.RootLabel(), f.Status())
    ensures CurrentIs(Moved(g, f), root,
              if IsOpenOf(f, root) && (before.None? || f.version >= before.value.version) then Some(f) else before)
  {
    if RootOf(f.Key()) == root {
      AdvancesExactlyWhen(g, f, root, before);
    } else {
      assert forall e :: (root, e) in Moved(g, f).current <==> (root, e) in g.current;
    }
  }

  lemma {:induction false} StepCurrent(g: Graph, f: Fact, root: RootKey, before: Option<Fact>)
    requires CurrentIs(g, root, before) && Usable(f.RootLabel(), f.Status())
    ensures CurrentIs(ApplyFact(g, f), root,
              if IsOpenOf(f, root) && (before.None? || f.version >= before.value.version) then Some(f) else before)
  {
    ApplyFactChain(g, f);
    MovedCurrent(g, f, root, before);
  }

  /**
   For any order, duplication or replay of facts with a status, each root has at most one
   CURRENT edge; it points at the highest open version delivered, and the `current_*`
   properties are that version's.
   */
  lemma {:induction false} CurrentConverges(facts: seq<Fact>, root: RootKey)
    requires AllUsable(facts)
    ensures CurrentIs(Project(facts), root, NewestOpen(facts, root))
    decreases |facts|
  {
    if facts != [] {
      CurrentConverges(facts[..|facts| - 1], root);
      StepCurrent(Project(facts[..|facts| - 1]), facts[|facts| - 1], root, NewestOpen(facts[..|facts| - 1], root));
    }
  }

  /** CURRENT never moves back. */
  lemma {:induction false} CurrentNeverRegresses(facts: seq<Fact>, more: seq<Fact>, root: RootKey, e: NodeKey, later: NodeKey)
    requires AllUsable(facts + more)
    requires (root, e) in Project(facts).current && (root, later) in Project(facts + more).current
    ensures e.version <= later.version
  {
    assert forall f :: f in facts ==> f in facts + more;
    CurrentConverges(facts, root);
    CurrentConverges(facts + more, root);
    NewestOpenIsMaximal(facts, root);
    NewestOpenIsMaximal(facts + more, root);
  }

  // ----- SUPERSEDES -----------------------------------------------------------------------

  predicate SupersededBy(facts: seq<Fact>, a: NodeKey, b: NodeKey) {
    a.version > 1 && b == a.(version := a.version - 1) && exists f :: f in facts && f.Key() == a
  }

  lemma {:induction false} ApplyFactSupersedes(g: Graph, f: Fact)
    ensures ApplyFact(g, f).supersedes ==
      if f.version <= 1 then g.supersedes else g.supersedes + {(f.Key(), f.Key().(version := f.version - 1))}
  {
    ApplyFactChain(g, f);
  }

  /** The edges are exactly k to k - 1 for each delivered version k above 1. */
  lemma {:induction false} SupersedesExactly(facts: seq<Fact>, a: NodeKey, b: NodeKey)
    ensures (a, b) in Project(facts).supersedes <==> SupersededBy(facts, a, b)
    decreases |facts|
  {
    if facts != [] {
      var front, last := facts[..|facts| - 1], facts[|facts| - 1];
      SupersedesExactly(front, a, b);
      SupersedesStep(Project(front), front, last, a, b);
      assert facts == front + [last];
    }
  }

  lemma {:induction false} SupersedesStep(g: Graph, front: seq<Fact>, last: Fact, a: NodeKey, b: NodeKey)
    requires (a, b) in g.supersedes <==> SupersededBy(front, a, b)
    ensures (a, b) in ApplyFact(g, last).supersedes <==> SupersededBy(front + [last], a, b)
  {
    ApplyFactSupersedes(g, last);
    assert forall f :: f in front + [last] <==> f in front || f == last;
  }

  /** A walk along SUPERSEDES that cannot be continued. */
  predicate MaximalWalk(g: Graph, path: seq<NodeKey>) {
    && path != []
    && (forall i :: 0 <= i < |path| - 1 ==> (path[i], path[i + 1]) in g.supersedes)
    && (forall e | e in g.supersedes :: e.0 != path[|path| - 1])
  }

  /**
   Once versions 1..n have all been delivered, n of them open, in any order, every maximal
   walk from CURRENT visits n, n - 1, .., 1.
   */
  lemma {:induction false} WalkVisitsEveryVersion(facts: seq<Fact>, root: RootKey, n: nat, path: seq<NodeKey>)
    requires AllUsable(facts)
    requires forall v: nat :: (exists f :: f in facts && f.Key() == NodeKey(root.kind, root.id, v)) <==> 1 <= v <= n
    requires exists f :: f in facts && f.Key() == NodeKey(root.kind, root.id, n) && f.open
    requires MaximalWalk(Project(facts), path) && (root, path[0]) in Project(facts).current
    ensures |path| == n && forall i :: 0 <= i < n ==> path[i] == NodeKey(root.kind, root.id, n - i)
  {
    CurrentConverges(facts, root);
    NewestOpenIsMaximal(facts, root);
    var top :| top in facts && top.Key() == NodeKey(root.kind, root.id, n) && top.open;
    assert IsOpenOf(top, root);
    var newest := NewestOpen(facts, root).value;
    assert newest.Key() == NodeKey(root.kind, root.id, newest.version);
    WalkDescends(facts, root, n, path, |path| - 1);
    var end := path[|path| - 1];
    SupersedesExactly(facts, end, end.(version := if end.version > 1 then end.version - 1 else 0));
  }

  lemma {:induction false} WalkDescends(facts: seq<Fact>, root: RootKey, n: nat, path: seq<NodeKey>, k: nat)
    requires forall v: nat :: (exists f :: f in facts && f.Key() == NodeKey(root.kind, root.id, v)) <==> 1 <= v <= n
    requires k < |path| && path[0] == NodeKey(root.kind, root.id, n) && n >= 1
    requires forall i :: 0 <= i < |path| - 1 ==> (path[i], path[i + 1]) in Project(facts).supersedes
    ensures k < n && forall i :: 0 <= i <= k ==> i < n && path[i] == NodeKey(root.kind, root.id, n - i)
  {
    if k > 0 {
      WalkDescends(facts, root, n, path, k - 1);
      SupersedesExactly(facts, path[k - 1], path[k]);
    }
  }

  // ----- Which version nodes there are --------------------------------------------------------------

  /** A delivered fact is of version `k`, or of the version after it. */
  predicate Named(facts: seq<Fact>, k: NodeKey) {
    exists f | f in facts :: f.Key() == k || (f.version > 1 && f.Key() == k.(version := k.version + 1))
  }

  lemma {:induction false} MovedNodes(g: Graph, f: Fact)
    ensures ApplyFact(g, f).nodes == Chained(g, f).nodes
  {
    ApplyFactChain(g, f);
  }

  lemma {:induction false} ChainedNode(g: Graph, f: Fact, k: NodeKey)
    ensures var nodes := Chained(g, f).nodes;
      && (f.Key() == k ==> k in nodes && nodes[k].Filled?)
      && (f.Key() != k && k in g.nodes ==> k in nodes && nodes[k] == g.nodes[k])
      && (f.Key() != k && k !in g.nodes ==>
            (k in nodes <==> f.version > 1 && f.Key() == k.(version := k.version + 1)) && (k in nodes ==> nodes[k].Bare?))
  {
  }

  predicate NodeIs(g: Graph, k: NodeKey, named: bool, delivered: bool) {
    (k in g.nodes <==> named) && (k in g.nodes ==> (g.nodes[k].Bare? <==> !delivered))
  }

  lemma {:induction false} NodeIsAfter(g: Graph, f: Fact, k: NodeKey, named: bool, delivered: bool)
    requires NodeIs(g, k, named, delivered) && (delivered ==> named)
    ensures NodeIs(ApplyFact(g, f), k, named || f.Key() == k || (f.version > 1 && f.Key() == k.(version := k.version + 1)),
                   delivered || f.Key() == k)
  {
    MovedNodes(g, f);
    ChainedNode(g, f, k);
  }

  /** A version has a node exactly when it or its successor was delivered; the node is bare until its own fact comes. */
  lemma {:induction false} NodesAreNamed(facts: seq<Fact>, k: NodeKey)
    ensures NodeIs(Project(facts), k, Named(facts, k), exists f :: f in facts && f.Key() == k)
    decreases |facts|
  {
    if facts != [] {
      var front, last := facts[..|facts| - 1], facts[|facts| - 1];
      NodesAreNamed(front, k);
      NodeIsAfter(Project(front), last, k, Named(front, k), exists f :: f in front && f.Key() == k);
      assert facts == front + [last];
      NamedByLast(front, last, k);
    }
  }

  lemma {:induction false} NamedByLast(front: seq<Fact>, last: Fact, k: NodeKey)
    ensures Named(front + [last], k) <==>
      Named(front, k) || last.Key() == k || (last.version > 1 && last.Key() == k.(version := k.version + 1))
    ensures (exists f :: f in front + [last] && f.Key() == k) <==> last.Key() == k || exists f :: f in front && f.Key() == k
  {
    assert forall f :: f in front + [last] <==> f in front || f == last;
  }

  // ----- The rule for CURRENT, whatever the statuses ------------------------------------------------

  /** A fact whose status the query accepts: present, and for instructions not empty. */
  predicate HasStatus(f: Fact) {
    if f.InstructionFact? then f.instruction.status != "" else f.payment.status.Some?
  }

  predicate ShowsNoStatus(g: Graph, k: NodeKey) {
    k !in g.nodes || g.nodes[k].Bare? || g.nodes[k].status == None || (k.kind == Label.Instruction && g.nodes[k].status == Some(""))
  }

  /**
   With one CURRENT edge, to version k, an open fact becomes current exactly when it has a status
   and either is no older or the current version shows none; without one, always.
   */
  lemma {:induction false} AdvancesByStatusAndVersion(g: Graph, f: Fact, k: Option<NodeKey>)
    requires forall e :: e in g.current && e.0 == RootOf(f.Key()) <==> k.Some? && e == (RootOf(f.Key()), k.value)
    requires k.Some? ==> k.value.kind == f.RootLabel()
    ensures Advances(g, f) <==>
      f.open && (k.None? || (HasStatus(f) && (f.version >= k.value.version || ShowsNoStatus(g, k.value))))
  {
    if k.Some? { assert (RootOf(f.Key()), k.value) in g.current; }
    assert forall e | e in g.current :: e.0 == RootOf(f.Key()) ==> k.Some? && e.1 == k.value;
  }

  // ----- Against the store --------------------------------------------------------------------

  /** The text a node or root shows is the stored status and no other. */
  predicate ShowsStatus(text: string, status: IL.Status) {
    && (text == "DRAFT" <==> status == IL.DRAFT) && (text == "SUBMITTED" <==> status == IL.SUBMITTED)
    && (text == "APPROVED" <==> status == IL.APPROVED) && (text == "SUSPENDED" <==> status == IL.SUSPENDED)
    && (text == "REJECTED" <==> status == IL.REJECTED) && (text == "USED" <==> status == IL.USED)
    && (text == "CANCELLED" <==> status == IL.CANCELLED)
  }

  predicate ShowsPaymentStatus(text: string, status: PL.PaymentStatus) {
    && (text == "DRAFT" <==> status == PL.DRAFT) && (text == "SUBMITTED" <==> status == PL.SUBMITTED)
    && (text == "APPROVED" <==> status == PL.APPROVED) && (text == "REJECTED" <==> status == PL.REJECTED)
    && (text == "CANCELLED" <==> status == PL.CANCELLED)
  }

  lemma {:induction false} StatusIsShown(status: IL.Status)
    ensures ShowsStatus(StatusName(status), status)
  {
  }

  lemma {:induction false} PaymentStatusIsShown(status: PL.PaymentStatus)
    ensures ShowsPaymentStatus(PaymentStatusName(status), status)
  {
  }

  /** Every instruction fact is some stored row's, delivered open or closed. */
  predicate DrawnFrom(facts: seq<Fact>, rows: VS.Rows<IL.Instruction>) {
    forall f :: f in facts && f.InstructionFact? ==>
      VS.Key(f.id, f.version) in rows
      && f == FactOfInstruction(f.id, f.version, rows[VS.Key(f.id, f.version)].payload, f.open)
  }

  /** Once the open row's fact has arrived, the root shows the store's current version, status and holder. */
  lemma {:induction false} CurrentMatchesStore(facts: seq<Fact>, rows: VS.Rows<IL.Instruction>, id: string, n: nat)
    requires VS.WellFormed(rows) && VS.IsOpen(rows, id, n)
    requires DrawnFrom(facts, rows) && AllUsable(facts)
    requires FactOfInstruction(id, n, rows[VS.Key(id, n)].payload, true) in facts
    ensures var g, root, row := Project(facts), RootKey(Label.Instruction, id), rows[VS.Key(id, n)].payload;
      && (forall e :: (root, e) in g.current <==> e == NodeKey(Label.Instruction, id, n))
      && root in g.roots
      && g.roots[root] == Some(CurrentProps(Some(StatusName(row.status)), n,
                                            if row.status == IL.USED then row.usedBy else None))
      && ShowsStatus(g.roots[root].value.status.value, row.status)
  {
    StatusIsShown(rows[VS.Key(id, n)].payload.status);
    var root := RootKey(Label.Instruction, id);
    CurrentConverges(facts, root);
    OpenRowIsNewest(facts, rows, id, n);
    PropsOfStoredRow(id, n, rows[VS.Key(id, n)].payload);
  }

  lemma {:induction false} PropsOfStoredRow(id: string, n: nat, row: IL.Instruction)
    ensures PropsOf(FactOfInstruction(id, n, row, true))
      == CurrentProps(Some(StatusName(row.status)), n, if row.status == IL.USED then row.usedBy else None)
  {
    assert StatusName(row.status) == "USED" <==> row.status == IL.USED;
  }

  lemma {:induction false} OpenRowIsNewest(facts: seq<Fact>, rows: VS.Rows<IL.Instruction>, id: string, n: nat)
    requires VS.WellFormed(rows) && VS.IsOpen(rows, id, n) && DrawnFrom(facts, rows)
    requires FactOfInstruction(id, n, rows[VS.Key(id, n)].payload, true) in facts
    ensures NewestOpen(facts, RootKey(Label.Instruction, id))
      == Some(FactOfInstruction(id, n, rows[VS.Key(id, n)].payload, true))
  {
    var root, top := RootKey(Label.Instruction, id), FactOfInstruction(id, n, rows[VS.Key(id, n)].payload, true);
    NewestOpenIsMaximal(facts, root);
    assert IsOpenOf(top, root);
    var newest := NewestOpen(facts, root).value;
    VS.OnlyOneOpen(rows, id, n, newest.version);
  }

  /** Every payment fact is some stored row's, delivered open or closed. */
  predicate PaymentsDrawnFrom(facts: seq<Fact>, rows: VS.Rows<PL.Payment>) {
    forall f :: f in facts && f.PaymentFact? ==>
      VS.Key(f.id, f.version) in rows
      && f == FactOfPayment(f.id, f.version, rows[VS.Key(f.id, f.version)].payload, f.open)
  }

  /** The same for payments: once the open row's fact has arrived, the root shows the store's version and status. */
  lemma {:induction false} PaymentCurrentMatchesStore(facts: seq<Fact>, rows: VS.Rows<PL.Payment>, id: string, n: nat)
    requires VS.WellFormed(rows) && VS.IsOpen(rows, id, n)
    requires PaymentsDrawnFrom(facts, rows) && AllUsable(facts)
    requires FactOfPayment(id, n, rows[VS.Key(id, n)].payload, true) in facts
    ensures var g, root, row := Project(facts), RootKey(Label.Payment, id), rows[VS.Key(id, n)].payload;
      && (forall e :: (root, e) in g.current <==> e == NodeKey(Label.Payment, id, n))
      && root in g.roots && g.roots[root] == Some(CurrentProps(Some(PaymentStatusName(row.status)), n, None))
      && ShowsPaymentStatus(g.roots[root].value.status.value, row.status)
  {
    PaymentStatusIsShown(rows[VS.Key(id, n)].payload.status);
    var root := RootKey(Label.Payment, id);
    CurrentConverges(facts, root);
    OpenPaymentIsNewest(facts, rows, id, n);
  }

  lemma {:induction false} OpenPaymentIsNewest(facts: seq<Fact>, rows: VS.Rows<PL.Payment>, id: string, n: nat)
    requires VS.WellFormed(rows) && VS.IsOpen(rows, id, n) && PaymentsDrawnFrom(facts, rows)
    requires FactOfPayment(id, n, rows[VS.Key(id, n)].payload, true) in facts
    ensures NewestOpen(facts, RootKey(Label.Payment, id)) == Some(FactOfPayment(id, n, rows[VS.Key(id, n)].payload, true))
  {
    var root, top := RootKey(Label.Payment, id), FactOfPayment(id, n, rows[VS.Key(id, n)].payload, true);
    NewestOpenIsMaximal(facts, root);
    assert IsOpenOf(top, root);
    var newest := NewestOpen(facts, root).value;
    VS.OnlyOneOpen(rows, id, n, newest.version);
  }
}
