/** CONSUMED and CONSUMED_BY after any sequence of deliveries. */
module GraphConsumption {
  import opened Wrappers
  import opened Facts
  import opened Graph
  import opened GraphChain

  function PaymentRoot(p: string): RootKey { RootKey(Label.Payment, p) }

  /** The fact is a submit of the SINGLE_USE payment `p` against instruction `i`. */
  predicate Submits(f: Fact, p: string, i: string) {
    && f.PaymentFact? && f.id == p && (f.action == "SUBMIT" || f.action == "SUBMIT_PAYMENT")
    && f.payment.instructionType == "SINGLE_USE" && f.payment.instructionId == i && i != ""
  }

  /**
   Delivery k is an open SINGLE_USE submit of `p` against `i`, and nothing newer of `p` had been
   delivered open before it: only then does its transaction reach the consumption statements.
   */
  predicate SubmitsAt(facts: seq<Fact>, k: nat, p: string, i: string)
    requires k < |facts|
  {
    && Submits(facts[k], p, i) && facts[k].open
    && forall j :: 0 <= j < k && IsOpenOf(facts[j], PaymentRoot(p)) ==> facts[j].version <= facts[k].version
  }

  /** The fact is a RELEASE_USE of instruction `i` naming payment `p`. */
  predicate Releases(f: Fact, p: string, i: string) {
    f.InstructionFact? && f.id == i && f.action == "RELEASE_USE" && p != "" && f.instruction.paymentReference == Some(p)
  }

  /** Some effective submit has no release after it. */
  predicate Linked(facts: seq<Fact>, p: string, i: string) {
    exists k | 0 <= k < |facts| ::
      SubmitsAt(facts, k, p, i) && forall m :: k < m < |facts| ==> !Releases(facts[m], p, i)
  }

  lemma {:induction false} LinkedGrows(front: seq<Fact>, last: Fact, p: string, i: string)
    ensures var facts := front + [last];
      Linked(facts, p, i) <==> SubmitsAt(facts, |front|, p, i) || (Linked(front, p, i) && !Releases(last, p, i))
  {
    var facts := front + [last];
    assert forall k :: 0 <= k < |front| ==> facts[k] == front[k];
    assert forall k: nat :: k < |front| ==> (SubmitsAt(facts, k, p, i) <==> SubmitsAt(front, k, p, i));
    if Linked(front, p, i) && !Releases(last, p, i) {
      var k :| 0 <= k < |front| && SubmitsAt(front, k, p, i) && forall m :: k < m < |front| ==> !Releases(front[m], p, i);
      assert SubmitsAt(facts, k, p, i) && forall m :: k < m < |facts| ==> !Releases(facts[m], p, i);
    }
    if Linked(facts, p, i) && !SubmitsAt(facts, |front|, p, i) {
      var k :| 0 <= k < |facts| && SubmitsAt(facts, k, p, i) && forall m :: k < m < |facts| ==> !Releases(facts[m], p, i);
      assert !Releases(facts[|front|], p, i);
      assert forall m :: k < m < |front| ==> !Releases(facts[m], p, i) && facts[m] == front[m];
    }
  }

  ghost predicate LinksAre(g: Graph, p: string, i: string, linked: bool) {
    && ((p, i) in g.consumed <==> linked) && ((i, p) in g.consumedBy <==> linked)
    && (linked ==> PaymentRoot(p) in g.roots)
  }

  lemma {:induction false} InstructionStep(g: Graph, f: Fact, p: string, i: string, linked: bool)
    requires f.InstructionFact? && LinksAre(g, p, i, linked)
    ensures LinksAre(ApplyFact(g, f), p, i, linked && !Releases(f, p, i))
  {
    ApplyFactChain(g, f);
  }

  lemma {:induction false} PaymentStep(g: Graph, f: Fact, p: string, i: string, linked: bool)
    requires f.PaymentFact? && LinksAre(g, p, i, linked)
    ensures LinksAre(ApplyFact(g, f), p, i,
              linked || (Advances(Chained(g, f), f) && Submits(f, p, i)))
  {
    ApplyFactChain(g, f);
    MovedKeepsLinks(g, f);
    PaymentTailLinks(Moved(g, f), f);
  }

  lemma {:induction false} MovedKeepsLinks(g: Graph, f: Fact)
    ensures Moved(g, f).consumed == g.consumed && Moved(g, f).consumedBy == g.consumedBy
    ensures forall root :: root in g.roots ==> root in Moved(g, f).roots
  {
  }

  lemma {:induction false} PaymentTailLinks(g: Graph, f: Fact)
    requires f.PaymentFact?
    ensures var after, id := WithLifecycle(WithConsumption(g, f), f), f.payment.instructionId;
      && after.consumed == (if Submits(f, f.id, id) then g.consumed + {(f.id, id)} else g.consumed)
      && after.consumedBy == (if Submits(f, f.id, id) then g.consumedBy + {(id, f.id)} else g.consumedBy)
    ensures WithLifecycle(g, f).consumed == g.consumed && WithLifecycle(g, f).consumedBy == g.consumedBy
  {
  }

  /** For any order and repetition, consumption edges exist exactly when some effective submit is not followed by a release. */
  lemma {:induction false} ConsumedExactly(facts: seq<Fact>, p: string, i: string)
    requires AllUsable(facts)
    ensures LinksAre(Project(facts), p, i, Linked(facts, p, i))
    decreases |facts|
  {
    if facts != [] {
      var front, last := facts[..|facts| - 1], facts[|facts| - 1];
      assert facts == front + [last];
      ConsumedExactly(front, p, i);
      LinkedGrows(front, last, p, i);
      if last.InstructionFact? {
        InstructionStep(Project(front), last, p, i, Linked(front, p, i));
      } else {
        PaymentStep(Project(front), last, p, i, Linked(front, p, i));
        EffectiveSubmit(front, last, p, i);
      }
    }
  }

  lemma {:induction false} EffectiveSubmit(front: seq<Fact>, last: Fact, p: string, i: string)
    requires AllUsable(front + [last]) && last.PaymentFact?
    ensures SubmitsAt(front + [last], |front|, p, i) <==>
      Advances(Chained(Project(front), last), last) && Submits(last, p, i)
  {
    var facts, root := front + [last], PaymentRoot(p);
    assert forall f :: f in front ==> f in facts;
    assert last in facts;
    assert forall j :: 0 <= j < |front| ==> facts[j] == front[j];
    if last.id == p {
      CurrentConverges(front, root);
      NewestOpenIsMaximal(front, root);
      AdvancesExactlyWhen(Project(front), last, root, NewestOpen(front, root));
    }
  }

  // ----- Which roots there are ----------------------------------------------------------------------

  /** Delivery k is of an open payment version against instruction `i`, with nothing newer of its payment before it. */
  predicate LinksAt(facts: seq<Fact>, k: nat, i: string)
    requires k < |facts|
  {
    && facts[k].PaymentFact? && facts[k].open && facts[k].payment.instructionId == i && i != ""
    && forall j :: 0 <= j < k && IsOpenOf(facts[j], PaymentRoot(facts[k].id)) ==> facts[j].version <= facts[k].version
  }

  predicate EverLinked(facts: seq<Fact>, root: RootKey) {
    root.kind == Label.Instruction && exists k | 0 <= k < |facts| :: LinksAt(facts, k, root.id)
  }

  predicate EverDelivered(facts: seq<Fact>, root: RootKey) { exists f | f in facts :: RootOf(f.Key()) == root }

  lemma {:induction false} LinkedByLast(front: seq<Fact>, last: Fact, root: RootKey)
    requires AllUsable(front + [last])
    ensures EverLinked(front + [last], root) <==> EverLinked(front, root) || LinksNow(front, last, root)
  {
    var facts := front + [last];
    assert forall k :: 0 <= k < |front| ==> facts[k] == front[k];
    assert forall k: nat :: k < |front| ==> (LinksAt(facts, k, root.id) <==> LinksAt(front, k, root.id));
    assert forall f :: f in front ==> f in facts;
    assert last in facts;
    if last.PaymentFact? {
      CurrentConverges(front, PaymentRoot(last.id));
      NewestOpenIsMaximal(front, PaymentRoot(last.id));
      AdvancesExactlyWhen(Project(front), last, PaymentRoot(last.id), NewestOpen(front, PaymentRoot(last.id)));
    }
    assert LinksAt(facts, |front|, root.id) <==> LinksNow(front, last, RootKey(Label.Instruction, root.id));
  }

  ghost predicate LinksNow(front: seq<Fact>, f: Fact, root: RootKey) {
    && root.kind == Label.Instruction && f.PaymentFact? && f.payment.instructionId == root.id != ""
    && Advances(Chained(Project(front), f), f)
  }

  /**
   A root exists exactly when a fact of it was delivered, or, for an instruction, when a payment
   version against it became current.
   */
  lemma {:induction false} RootsAreNamed(facts: seq<Fact>, root: RootKey)
    requires AllUsable(facts)
    ensures root in Project(facts).roots <==> EverDelivered(facts, root) || EverLinked(facts, root)
    decreases |facts|
  {
    if facts != [] {
      var front, last := facts[..|facts| - 1], facts[|facts| - 1];
      assert facts == front + [last];
      RootsAreNamed(front, root);
      LinkedByLast(front, last, root);
      RootsStep(Project(front), last, root);
      assert forall f :: f in facts <==> f in front || f == last;
    }
  }

  lemma {:induction false} RootsStep(g: Graph, f: Fact, root: RootKey)
    ensures root in ApplyFact(g, f).roots <==>
      || root in g.roots || RootOf(f.Key()) == root
      || (root.kind == Label.Instruction && f.PaymentFact? && f.payment.instructionId == root.id != "" && Advances(Chained(g, f), f))
  {
    MovedRoots(g, f);
    var moved := Moved(g, f);
    if f.InstructionFact? { InstructionTailKeepsRoots(moved, f); } else { PaymentTailRoots(moved, f); }
  }

  lemma {:induction false} MovedRoots(g: Graph, f: Fact)
    ensures Moved(g, f).roots.Keys == g.roots.Keys + {RootOf(f.Key())}
  {
  }

  lemma {:induction false} InstructionTailKeepsRoots(g: Graph, f: Fact)
    requires f.InstructionFact?
    ensures WithRelease(WithLifecycle(WithConflicts(g, f), f), f).roots == g.roots
  {
  }

  lemma {:induction false} PaymentTailRoots(g: Graph, f: Fact)
    requires f.PaymentFact?
    ensures WithLifecycle(g, f).roots == g.roots
    ensures var linked := WithLifecycle(WithConsumption(g, f), f).roots;
      linked.Keys == if f.payment.instructionId == "" then g.roots.Keys
                     else g.roots.Keys + {RootKey(Label.Instruction, f.payment.instructionId)}
  {
  }

  // ----- The orderly case ---------------------------------------------------------------

  predicate FactOf(f: Fact, p: string) { f.PaymentFact? && f.id == p }

  predicate OpenSubmit(f: Fact, p: string, i: string) {
    Submits(f, p, i) && f.open
  }

  predicate AnyRelease(facts: seq<Fact>, p: string, i: string) {
    exists m :: 0 <= m < |facts| && Releases(facts[m], p, i)
  }

  predicate AnySubmit(facts: seq<Fact>, p: string, i: string) {
    exists k :: 0 <= k < |facts| && OpenSubmit(facts[k], p, i)
  }

  /** The facts of payment `p` arrive in version order, repeats allowed. */
  predicate PaymentInOrder(facts: seq<Fact>, p: string) {
    forall j, k :: 0 <= j < k < |facts| && FactOf(facts[j], p) && FactOf(facts[k], p) ==> facts[j].version <= facts[k].version
  }

  /** No submit of `p` is processed after a release naming it. */
  predicate SubmitsBeforeReleases(facts: seq<Fact>, p: string, i: string) {
    forall j, k :: 0 <= j < k < |facts| && Releases(facts[j], p, i) ==> !Submits(facts[k], p, i)
  }

  /**
   With in-order topics and submits processed before releases, the drained graph links the
   payment exactly when it was submitted and no RELEASE_USE names it.
   */
  lemma {:induction false} OrderlyConsumption(facts: seq<Fact>, p: string, i: string)
    requires AllUsable(facts) && PaymentInOrder(facts, p) && SubmitsBeforeReleases(facts, p, i)
    ensures LinksAre(Project(facts), p, i, AnySubmit(facts, p, i) && !AnyRelease(facts, p, i))
  {
    ConsumedExactly(facts, p, i);
    if Linked(facts, p, i) { LinkedHasNoRelease(facts, p, i); }
    if AnySubmit(facts, p, i) && !AnyRelease(facts, p, i) {
      var k :| 0 <= k < |facts| && OpenSubmit(facts[k], p, i);
      assert forall j :: 0 <= j < k && IsOpenOf(facts[j], PaymentRoot(p)) ==> FactOf(facts[j], p);
      assert SubmitsAt(facts, k, p, i);
    }
  }

  lemma {:induction false} LinkedHasNoRelease(facts: seq<Fact>, p: string, i: string)
    requires SubmitsBeforeReleases(facts, p, i) && Linked(facts, p, i)
    ensures AnySubmit(facts, p, i) && !AnyRelease(facts, p, i)
  {
    var k :| 0 <= k < |facts| && SubmitsAt(facts, k, p, i) && forall m :: k < m < |facts| ==> !Releases(facts[m], p, i);
    assert OpenSubmit(facts[k], p, i);
    forall m | 0 <= m < |facts|
      ensures !Releases(facts[m], p, i)
    {
    }
  }

  /** A submit that arrives after a newer open version of its payment never creates the edges. */
  lemma {:induction false} LateSubmitNeverLinks(facts: seq<Fact>, p: string, i: string)
    requires AllUsable(facts)
    requires forall k: nat :: k < |facts| && Submits(facts[k], p, i) ==>
      exists j :: 0 <= j < k && IsOpenOf(facts[j], PaymentRoot(p)) && facts[j].version > facts[k].version
    ensures (p, i) !in Project(facts).consumed && (i, p) !in Project(facts).consumedBy
  {
    ConsumedExactly(facts, p, i);
  }
}
