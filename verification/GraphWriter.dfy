/** The Neo4j writer: each fact changes the stored graph clause by clause, in one transaction. */
module GraphWriter {
  import opened Wrappers
  import opened Facts
  import opened Graph

  class Neo4jWriter {
    var roots: map<RootKey, Option<CurrentProps>>
    var nodes: map<NodeKey, VersionNode>
    var supersedes: set<(NodeKey, NodeKey)>
    var current: set<(RootKey, NodeKey)>
    var lifecycle: set<LifecycleEdge>
    var conflicts: set<(string, string)>
    var consumed: set<(string, string)>
    var consumedBy: set<(string, string)>

    ghost function Contents(): Graph
      reads this
    {
      Graph(roots, nodes, supersedes, current, lifecycle, conflicts, consumed, consumedBy)
    }

    constructor ()
      ensures Contents() == EMPTY
    {
      roots, nodes, supersedes, current := map[], map[], {}, {};
      lifecycle, conflicts, consumed, consumedBy := {}, {}, {}, {};
    }

    /** MERGE the root and the version node, SET the version's properties. */
    method MergeVersionNode(f: Fact)
      modifies this
      ensures Contents() == MergeVersion(old(Contents()), f)
    {
      if RootOf(f.Key()) !in roots {
        roots := roots[RootOf(f.Key()) := None];
      }
      nodes := nodes[f.Key() := NodeOf(f)];
    }

    /** FOREACH with a previous version: MERGE it and the SUPERSEDES edge to it. */
    method MergeSupersedes(f: Fact)
      modifies this
      ensures Contents() == LinkPrevious(old(Contents()), f)
    {
      if f.version > 1 {
        var previous := f.Key().(version := f.version - 1);
        if previous !in nodes {
          nodes := nodes[previous := Bare];
        }
        supersedes := supersedes + {(f.Key(), previous)};
      }
    }

    /** The rows of OPTIONAL MATCH (root)-[:CURRENT]->(existing) that pass the WHERE clause. */
    method PassesWhere(f: Fact) returns (passes: bool)
      ensures passes == Advances(Contents(), f)
    {
      if !f.open { return false; }
      var matched := false;
      passes := false;
      var left := current;
      while left != {}
        invariant left <= current
        invariant matched <==> exists e | e in current - left :: e.0 == RootOf(f.Key())
        invariant passes <==> exists e | e in current - left ::
            e.0 == RootOf(f.Key()) && Usable(f.RootLabel(), f.Status())
            && (e.1 !in nodes || Lacks(f.RootLabel(), nodes[e.1]) || f.version >= e.1.version)
        decreases left
      {
        var e :| e in left;
        left := left - {e};
        if e.0 == RootOf(f.Key()) {
          matched := true;
          if Usable(f.RootLabel(), f.Status())
             && (e.1 !in nodes || Lacks(f.RootLabel(), nodes[e.1]) || f.version >= e.1.version) {
            passes := true;
          }
        }
      }
      passes := passes || !matched;
    }

    /** DELETE every old CURRENT edge of the root, MERGE the new one, SET the root's current properties. */
    method MarkCurrent(f: Fact)
      modifies this
      ensures Contents() == MoveCurrent(old(Contents()), f)
    {
      var root := RootOf(f.Key());
      var left := current;
      while left != {}
        modifies this`current
        invariant left <= old(current)
        invariant current == set e | e in old(current) && (e in left || e.0 != root)
        decreases left
      {
        var e :| e in left;
        left := left - {e};
        if e.0 == root { current := current - {e}; }
      }
      current := current + {(root, f.Key())};
      roots := roots[root := Some(PropsOf(f))];
    }

    /** The conflict query: every rival found is linked in both directions. */
    method MergeConflicts(f: Fact)
      requires f.InstructionFact?
      modifies this
      ensures Contents() == WithConflicts(old(Contents()), f)
    {
      var g := Graph(roots, nodes, supersedes, current, lifecycle, conflicts, consumed, consumedBy);
      if f.instruction.creditorAccount == "" || f.instruction.currency == "" || !HasActiveCurrent(g, f.id) { return; }
      var rivals := Rivals(g, f);
      var left := rivals;
      while left != {}
        modifies this`conflicts
        invariant left <= rivals
        invariant conflicts == old(conflicts)
          + (set r | r in rivals - left :: (f.id, r)) + (set r | r in rivals - left :: (r, f.id))
        decreases left
      {
        var other :| other in left;
        left := left - {other};
        conflicts := conflicts + {(f.id, other)};
        conflicts := conflicts + {(other, f.id)};
      }
    }

    method WriteLifecycleEdge(f: Fact)
      modifies this
      ensures Contents() == WithLifecycle(old(Contents()), f)
    {
      var edge := EdgeOf(f);
      if edge.Some? { lifecycle := lifecycle + {edge.value}; }
    }

    /** RELEASE_USE: both nodes must match before either link is deleted. */
    method DeleteConsumption(f: Fact)
      modifies this
      ensures Contents() == WithRelease(old(Contents()), f)
    {
      var payment := ReleasedPayment(f);
      if payment.Some? && RootKey(Label.Payment, payment.value) in roots {
        consumed := consumed - {(payment.value, f.id)};
        consumedBy := consumedBy - {(f.id, payment.value)};
      }
    }

    /** The instruction links of a payment, and the consumption of a SINGLE_USE instruction on submit. */
    method MergeConsumption(f: Fact)
      requires f.PaymentFact?
      modifies this
      ensures Contents() == WithConsumption(old(Contents()), f)
    {
      var id := f.payment.instructionId;
      if id != "" && RootKey(Label.Instruction, id) !in roots {
        roots := roots[RootKey(Label.Instruction, id) := None];
      }
      if Consumes(f) {
        consumed := consumed + {(f.id, id)};
        consumedBy := consumedBy + {(id, f.id)};
      }
    }

    method UpsertInstructionFact(f: Fact)
      requires f.InstructionFact?
      modifies this
      ensures Contents() == if f.id == "" then old(Contents()) else ApplyFact(old(Contents()), f)
    {
      if f.id == "" { return; }
      MergeVersionNode(f);
      MergeSupersedes(f);
      var passes := PassesWhere(f);
      if passes { MarkCurrent(f); }
      MergeConflicts(f);
      WriteLifecycleEdge(f);
      DeleteConsumption(f);
    }

    method UpsertPaymentFact(f: Fact)
      requires f.PaymentFact?
      modifies this
      ensures Contents() == if f.id == "" then old(Contents()) else ApplyFact(old(Contents()), f)
    {
      if f.id == "" { return; }
      MergeVersionNode(f);
      MergeSupersedes(f);
      var passes := PassesWhere(f);
      if passes {
        MarkCurrent(f);
        MergeConsumption(f);
      }
      WriteLifecycleEdge(f);
    }

    /** Consuming a topic: the stored graph is the projection of the deliveries so far. */
    method Consume(facts: seq<Fact>)
      requires forall i :: 0 <= i < |facts| ==> facts[i].id != ""
      requires Contents() == EMPTY
      modifies this
      ensures Contents() == Project(facts)
    {
      for i := 0 to |facts|
        invariant Contents() == Project(facts[..i])
      {
        assert facts[..i + 1][..i] == facts[..i];
        if facts[i].InstructionFact? { UpsertInstructionFact(facts[i]); } else { UpsertPaymentFact(facts[i]); }
      }
      assert facts[..|facts|] == facts;
    }
  }
}
