/**
 The graph the indexer maintains, and the effect of one fact transaction on it. A query's
 WHERE clause after the CURRENT lookup drops the row when the fact does not become current, so
 everything later in the same query is skipped too.
 */
module Graph {
  import opened Wrappers
  import opened Facts

  datatype RootKey = RootKey(kind: Label, id: string)

  /** A version node: `Bare` when it was only merged as somebody's predecessor. */
  datatype VersionNode = Bare | Filled(status: Option<string>, creditorAccount: string, currency: string)

  /** The `current_*` properties of a root; None until CURRENT is first set. */
  datatype CurrentProps = CurrentProps(status: Option<string>, versionNumber: nat, usedBy: Option<string>)

  datatype Graph = Graph(
    roots: map<RootKey, Option<CurrentProps>>,
    nodes: map<NodeKey, VersionNode>,
    supersedes: set<(NodeKey, NodeKey)>,
    current: set<(RootKey, NodeKey)>,
    lifecycle: set<LifecycleEdge>,
    conflicts: set<(string, string)>,
    consumed: set<(string, string)>,     // payment, instruction
    consumedBy: set<(string, string)>)   // instruction, payment

  const EMPTY := Graph(map[], map[], {}, {}, {}, {}, {}, {})

  function RootOf(k: NodeKey): RootKey { RootKey(k.kind, k.id) }

  function NodeOf(f: Fact): VersionNode {
    if f.InstructionFact? then Filled(f.Status(), f.instruction.creditorAccount, f.instruction.currency)
    else Filled(f.Status(), "", "")
  }

  /** A status the CURRENT rule accepts; only instruction facts turn a missing status into "". */
  predicate Usable(kind: Label, status: Option<string>) {
    status.Some? && (kind == Label.Instruction ==> status.value != "")
  }

  predicate Lacks(kind: Label, node: VersionNode) {
    node.Bare? || !Usable(kind, node.status)
  }

  // ----- The version chain ------------------------------------------------------------

  function MergeVersion(g: Graph, f: Fact): Graph {
    g.(roots := if RootOf(f.Key()) in g.roots then g.roots else g.roots[RootOf(f.Key()) := None],
       nodes := g.nodes[f.Key() := NodeOf(f)])
  }

  function LinkPrevious(g: Graph, f: Fact): Graph {
    if f.version <= 1 then g
    else
      var previous := f.Key().(version := f.version - 1);
      g.(nodes := if previous in g.nodes then g.nodes else g.nodes[previous := Bare],
         supersedes := g.supersedes + {(f.Key(), previous)})
  }

  /** The row survives the WHERE clause: an open version that does not regress behind an existing one. */
  predicate Advances(g: Graph, f: Fact) {
    && f.open
    && ((forall e | e in g.current :: e.0 != RootOf(f.Key()))
        || exists e | e in g.current ::
             e.0 == RootOf(f.Key()) && Usable(f.RootLabel(), f.Status())
             && (e.1 !in g.nodes || Lacks(f.RootLabel(), g.nodes[e.1]) || f.version >= e.1.version))
  }

  function MoveCurrent(g: Graph, f: Fact): Graph {
    var root := RootOf(f.Key());
    g.(current := (set e | e in g.current && e.0 != root) + {(root, f.Key())},
       roots := g.roots[root := Some(PropsOf(f))])
  }

  function PropsOf(f: Fact): CurrentProps {
    CurrentProps(f.Status(), f.version,
                 if f.InstructionFact? && f.Status() == Some("USED") then f.instruction.usedBy else None)
  }

  function ChainStep(g: Graph, f: Fact): Graph {
    var linked := LinkPrevious(MergeVersion(g, f), f);
    if Advances(linked, f) then MoveCurrent(linked, f) else linked
  }

  function WithLifecycle(g: Graph, f: Fact): Graph {
    if EdgeOf(f).Some? then g.(lifecycle := g.lifecycle + {EdgeOf(f).value}) else g
  }

  // ----- Instruction facts -----------------------------------------------------------------

  predicate ActiveStatus(node: VersionNode) {
    node.Filled? && (node.status == Some("APPROVED") || node.status == Some("SUBMITTED"))
  }

  /** The other instructions whose CURRENT version is active and carries the fact's account and currency. */
  function Rivals(g: Graph, f: Fact): set<string>
    requires f.InstructionFact?
  {
    set e | e in g.current && e.0.kind == Label.Instruction && e.0.id != f.id && e.1.id != f.id
            && e.1 in g.nodes && ActiveStatus(g.nodes[e.1])
            && g.nodes[e.1].creditorAccount == f.instruction.creditorAccount
            && g.nodes[e.1].currency == f.instruction.currency
          :: e.0.id
  }

  predicate HasActiveCurrent(g: Graph, id: string) {
    exists e | e in g.current :: e.0 == RootKey(Label.Instruction, id) && e.1 in g.nodes && ActiveStatus(g.nodes[e.1])
  }

  function WithConflicts(g: Graph, f: Fact): Graph
    requires f.InstructionFact?
  {
    if f.instruction.creditorAccount == "" || f.instruction.currency == "" || !HasActiveCurrent(g, f.id) then g
    else g.(conflicts := g.conflicts + (set r | r in Rivals(g, f) :: (f.id, r)) + (set r | r in Rivals(g, f) :: (r, f.id)))
  }

  function WithRelease(g: Graph, f: Fact): Graph {
    var payment := ReleasedPayment(f);
    if payment.None? || RootKey(Label.Payment, payment.value) !in g.roots then g
    else g.(consumed := g.consumed - {(payment.value, f.id)}, consumedBy := g.consumedBy - {(f.id, payment.value)})
  }

  function ApplyInstructionFact(g: Graph, f: Fact): Graph
    requires f.InstructionFact?
  {
    WithRelease(WithLifecycle(WithConflicts(ChainStep(g, f), f), f), f)
  }

  // ----- Payment facts ------------------------------------------------------------------------

  predicate Consumes(f: Fact) {
    f.PaymentFact? && f.action in {"SUBMIT", "SUBMIT_PAYMENT"} && f.payment.instructionType == "SINGLE_USE"
    && f.payment.instructionId != ""
  }

  /** The tail of the payment query, reached only by a row that survived the WHERE clause. */
  function WithConsumption(g: Graph, f: Fact): Graph
    requires f.PaymentFact?
  {
    var id := f.payment.instructionId;
    var root := RootKey(Label.Instruction, id);
    var rooted := if id == "" || root in g.roots then g else g.(roots := g.roots[root := None]);
    if Consumes(f) then rooted.(consumed := rooted.consumed + {(f.id, id)}, consumedBy := rooted.consumedBy + {(id, f.id)})
    else rooted
  }

  function ApplyPaymentFact(g: Graph, f: Fact): Graph
    requires f.PaymentFact?
  {
    var linked := LinkPrevious(MergeVersion(g, f), f);
    WithLifecycle(if Advances(linked, f) then WithConsumption(MoveCurrent(linked, f), f) else linked, f)
  }

  function ApplyFact(g: Graph, f: Fact): Graph {
    if f.InstructionFact? then ApplyInstructionFact(g, f) else ApplyPaymentFact(g, f)
  }

  /** The graph after a sequence of deliveries, oldest first. */
  function Project(facts: seq<Fact>): Graph {
    if facts == [] then EMPTY else ApplyFact(Project(facts[..|facts| - 1]), facts[|facts| - 1])
  }
}
