/** When an ended payment's instruction can still be released, and when it is stranded for good. */
module SagaRelease {
  import opened Wrappers
  import opened Saga
  import opened SagaSafety
  import opened SagaTheorems
  import IL = InstructionLifecycle
  import PL = PaymentLifecycle

  // ----- Who a USED instruction is used by -------------------------------------------------

  /** The holder of an instruction is a payment drafted against it as SINGLE_USE. */
  predicate HolderIsItsPayment(s: State, id: string) {
    id in s.instructions && s.instructions[id].content.usedBy.Some? ==>
      SingleUseSnapshot(s, id, s.instructions[id].content.usedBy.value)
  }

  ghost predicate HoldersAreTheirPayments(s: State) {
    forall id: string {:trigger HolderIsItsPayment(s, id)} :: HolderIsItsPayment(s, id)
  }

  lemma {:induction false} SnapshotStays(s: State, a: Action, id: string, p: string)
    requires Inv(s) && SingleUseSnapshot(s, id, p)
    ensures SingleUseSnapshot(Step(s, a, true), id, p)
  {
    InstructionRowAfter(s, a, true, id);
    if a.WritePayment? {
      if CanWritePayment(s, a.call, true) { WrittenKeeps(s, a.call, a.now); }
    } else if !a.InsertPayment? {
      PaymentsUntouched(s, a);
    }
  }

  lemma {:induction false} StepKeepsHolder(s: State, a: Action, id: string)
    requires Inv(s) && HoldersAreTheirPayments(s)
    ensures HolderIsItsPayment(Step(s, a, true), id)
  {
    assert HolderIsItsPayment(s, id);
    if id in s.instructions {
      InstructionRowAfter(s, a, true, id);
      if WritesInstruction(s, a, true, id) {
        var c := s.instructionCalls[a.call];
        assert InstructionCallOk(s, c);
        if c.op.Use? {
          assert SentOk(s, c.request.value);
          SnapshotStays(s, a, id, c.op.paymentReference);
        }
      }
      if s.instructions[id].content.usedBy.Some? { SnapshotStays(s, a, id, s.instructions[id].content.usedBy.value); }
    } else if id in Step(s, a, true).instructions {
      NewInstructionUnused(s, a, id);
    }
  }

  lemma {:induction false} NewInstructionUnused(s: State, a: Action, id: string)
    requires id !in s.instructions && id in Step(s, a, true).instructions
    ensures Step(s, a, true).instructions[id].content.usedBy == None
  {
    if !a.CreateInstruction? && !a.WriteInstruction? { InstructionsUntouched(s, a, true); }
  }

  lemma {:induction false} RunKeepsHolders(s: State, actions: seq<Action>)
    requires Inv(s) && HoldersAreTheirPayments(s)
    ensures HoldersAreTheirPayments(Run(s, actions, true))
    decreases |actions|
  {
    if actions != [] {
      var after := Step(s, actions[0], true);
      StepKeepsInv(s, actions[0]);
      forall id: string ensures HolderIsItsPayment(after, id) { StepKeepsHolder(s, actions[0], id); }
      RunKeepsHolders(after, actions[1..]);
    }
  }

  /** Only a payment of the instruction can hold it. */
  lemma {:induction false} HolderBelongs(s: State, id: string, p: string)
    requires Reachable(s) && HeldBy(s, id, p)
    ensures SingleUseSnapshot(s, id, p)
  {
    var actions :| s == Run(START, actions, true);
    RunKeepsHolders(START, actions);
    assert HolderIsItsPayment(s, id);
  }

  // ----- Stranded ------------------------------------------------------------------------------

  /** A call that has written its payment's end and still has the release to send. */
  predicate StillToRelease(s: State, c: CallId, p: string) {
    && AtStage(s, c, Persisted) && s.paymentCalls[c].paymentId == p && PL.ReleasesOnEnd(s.paymentCalls[c].payment)
  }

  /** Instruction-service has received the release and read the row that is still the open one. */
  predicate ReleaseUnderWay(s: State, c: CallId, id: string, p: string) {
    && c in s.instructionCalls && s.instructionCalls[c].instructionId == id && s.instructionCalls[c].op == IL.ReleaseUse(p)
    && id in s.instructions && s.instructionCalls[c].version == s.instructions[id].version
  }

  /** A call is about to send the release, or the request is on its way, or it is being served. */
  predicate CanStillRelease(s: State, id: string, p: string) {
    || (exists c | c in s.paymentCalls :: StillToRelease(s, c, p))
    || ReleaseRequest(id, p) in s.pending
    || (exists c | c in s.instructionCalls :: ReleaseUnderWay(s, c, id, p))
  }

  /** The payment that holds the instruction has ended, and no release is due, on its way or being served. */
  ghost predicate Stranded(s: State, id: string, p: string) {
    && Inv(s) && IsSingleUse(s, id) && HeldBy(s, id, p) && p in s.payments
    && PL.Terminal(s.payments[p].content.status) && !CanStillRelease(s, id, p)
  }

  /** Of the guards, only a release by the holder accepts a held instruction. */
  lemma {:induction false} OnlyReleaseWrites(s: State, a: Action, id: string, p: string)
    requires Inv(s) && IsSingleUse(s, id) && HeldBy(s, id, p) && WritesInstruction(s, a, true, id)
    ensures ReleaseUnderWay(s, a.call, id, p) && ReleaseRequest(id, p) in s.sent
  {
    assert InstructionCallOk(s, s.instructionCalls[a.call]);
  }

  /** An ended payment is never written again, so no further call comes to owe a release. */
  lemma {:induction false} NoNewRelease(s: State, a: Action, id: string, p: string)
    requires Inv(s) && p in s.payments && PL.Terminal(s.payments[p].content.status) && !CanStillRelease(s, id, p)
    requires id in s.instructions && !WritesInstruction(s, a, true, id)
    ensures !CanStillRelease(Step(s, a, true), id, p)
  {
    var after := Step(s, a, true);
    EndedIsNotWritten(s, a, p);
    forall c | c in after.paymentCalls
      ensures !StillToRelease(after, c, p)
    {
      OwesNothingNew(s, a, p, c);
      if c in s.paymentCalls { assert !StillToRelease(s, c, p); }
    }
    SendsNothingNew(s, a, id, p);
    forall c | c in after.instructionCalls
      ensures !ReleaseUnderWay(after, c, id, p)
    {
      ServesNothingNew(s, a, id, p, c);
      if c in s.instructionCalls { assert !ReleaseUnderWay(s, c, id, p); }
    }
  }

  lemma {:induction false} EndedIsNotWritten(s: State, a: Action, p: string)
    requires Inv(s) && p in s.payments && PL.Terminal(s.payments[p].content.status)
    ensures !WritesPayment(s, a, p)
  {
    forall c | c in s.paymentCalls ensures PaymentCallOk(s, c, s.paymentCalls[c]) {}
  }

  predicate WritesPayment(s: State, a: Action, p: string) {
    a.WritePayment? && CanWritePayment(s, a.call, true) && s.paymentCalls[a.call].paymentId == p
  }

  lemma {:induction false} OwesNothingNew(s: State, a: Action, p: string, c: CallId)
    requires !WritesPayment(s, a, p)
    ensures StillToRelease(Step(s, a, true), c, p) ==> c in s.paymentCalls && StillToRelease(s, c, p)
  {
    if !CallStep(a) || a.call != c {
      OtherCallsUntouched(s, a, c);
    } else if a.CheckInstruction? {
      if AtStage(s, c, Loaded) { CheckPersistsNothing(s, c, a.now); }
    } else if a.WritePayment? {
      WriteOwesNothingElse(s, a, p);
    } else {
      StageOwesNothing(s, a, p);
    }
  }

  lemma {:induction false} CheckPersistsNothing(s: State, call: CallId, now: int)
    requires AtStage(s, call, Loaded)
    ensures !AtStage(CheckedInstruction(s, call, now), call, Persisted)
  {
  }

  lemma {:induction false} WriteOwesNothingElse(s: State, a: Action, p: string)
    requires a.WritePayment? && !WritesPayment(s, a, p)
    ensures StillToRelease(Step(s, a, true), a.call, p) ==> a.call in s.paymentCalls && StillToRelease(s, a.call, p)
  {
  }

  lemma {:induction false} StageOwesNothing(s: State, a: Action, p: string)
    requires CallStep(a) && !a.WritePayment? && !a.CheckInstruction?
    ensures StillToRelease(Step(s, a, true), a.call, p) ==> a.call in s.paymentCalls && StillToRelease(s, a.call, p)
  {
  }

  lemma {:induction false} SendsNothingNew(s: State, a: Action, id: string, p: string)
    requires !CanStillRelease(s, id, p)
    ensures ReleaseRequest(id, p) !in Step(s, a, true).pending
  {
    if a.SendRelease? {
      if AtStage(s, a.call, Persisted) { assert !StillToRelease(s, a.call, p); }
    } else if !a.SendUse? {
      PendingOnlyShrinks(s, a);
    }
  }

  lemma {:induction false} PendingOnlyShrinks(s: State, a: Action)
    requires !a.SendRelease? && !a.SendUse?
    ensures Step(s, a, true).pending <= s.pending
  {
    if a.CheckInstruction? && AtStage(s, a.call, Loaded) { CheckTouchesCallsOnly(s, a.call, a.now); }
  }

  lemma {:induction false} ServesNothingNew(s: State, a: Action, id: string, p: string, c: CallId)
    requires ReleaseRequest(id, p) !in s.pending && id in s.instructions && !WritesInstruction(s, a, true, id)
    ensures ReleaseUnderWay(Step(s, a, true), c, id, p) ==> c in s.instructionCalls && ReleaseUnderWay(s, c, id, p)
  {
    InstructionRowAfter(s, a, true, id);
    if !a.ReadInstruction? && !a.ReceiveRequest? { ServiceCallsOnlyEnd(s, a); }
  }

  lemma {:induction false} ServiceCallsOnlyEnd(s: State, a: Action)
    requires !a.ReadInstruction? && !a.ReceiveRequest?
    ensures var after := Step(s, a, true);
      forall c :: c in after.instructionCalls ==> c in s.instructionCalls && after.instructionCalls[c] == s.instructionCalls[c]
  {
    if a.CheckInstruction? && AtStage(s, a.call, Loaded) { CheckTouchesCallsOnly(s, a.call, a.now); }
  }

  lemma {:induction false} StrandedStep(s: State, a: Action, id: string, p: string)
    requires Stranded(s, id, p)
    ensures Stranded(Step(s, a, true), id, p) && id in Step(s, a, true).instructions
    ensures Step(s, a, true).instructions[id] == s.instructions[id]
  {
    StepKeepsInv(s, a);
    InstructionRowAfter(s, a, true, id);
    PaymentRowAfter(s, a, p);
    if WritesInstruction(s, a, true, id) { OnlyReleaseWrites(s, a, id, p); }
    NoNewRelease(s, a, id, p);
  }

  lemma {:induction false} StrandedRun(s: State, more: seq<Action>, id: string, p: string)
    requires Stranded(s, id, p)
    ensures var end := Run(s, more, true);
      Stranded(end, id, p) && id in end.instructions && end.instructions[id] == s.instructions[id]
    decreases |more|
  {
    if more != [] {
      StrandedStep(s, more[0], id, p);
      StrandedRun(Step(s, more[0], true), more[1..], id, p);
    }
  }

  /** With no release due, on its way or being served, the instruction of an ended payment is never written again. */
  lemma {:induction false} StuckForever(s: State, more: seq<Action>, id: string, p: string)
    requires Reachable(s) && IsSingleUse(s, id) && HeldBy(s, id, p)
    requires p in s.payments && PL.Terminal(s.payments[p].content.status) && !CanStillRelease(s, id, p)
    ensures var end := Run(s, more, true);
      id in end.instructions && end.instructions[id] == s.instructions[id]
  {
    ReachableInv(s);
    StrandedRun(s, more, id, p);
  }

  /**
   No release is ever due after a system cancel, nor for a payment cancelled as a DRAFT after a
   submit that stopped between USE and its own write.
   */
  lemma {:induction false} NoReleaseIsDue(s: State, id: string, p: string)
    requires Reachable(s) && p in s.payments
    requires p in s.systemCancelled || s.payments[p].content.submittedAt.None?
    ensures !CanStillRelease(s, id, p)
  {
    ReachableInv(s);
    NothingIsDue(s, id, p);
  }

  lemma {:induction false} NothingIsDue(s: State, id: string, p: string)
    requires Inv(s) && p in s.payments
    requires p in s.systemCancelled || s.payments[p].content.submittedAt.None?
    ensures !CanStillRelease(s, id, p)
  {
    forall m | m in s.sent ensures SentOk(s, m) {}
    forall c | c in s.paymentCalls ensures !StillToRelease(s, c, p) { assert PaymentCallOk(s, c, s.paymentCalls[c]); }
    forall c | c in s.instructionCalls ensures !ReleaseUnderWay(s, c, id, p) { assert InstructionCallOk(s, s.instructionCalls[c]); }
  }

  // ----- Exactly when ---------------------------------------------------------------------------

  ghost predicate CanBeReleased(s: State, id: string, p: string) {
    exists more :: !HeldBy(Run(s, more, true), id, p)
  }

  /** Serving the request that is on its way gives the instruction back. */
  lemma {:induction false} PendingReleaseCanArrive(s: State, id: string, p: string) returns (more: seq<Action>)
    requires IsSingleUse(s, id) && HeldBy(s, id, p) && ReleaseRequest(id, p) in s.pending
    ensures !HeldBy(Run(s, more, true), id, p)
  {
    var m := ReleaseRequest(id, p);
    more := [DropInstructionCall(0), ReceiveRequest(0, m, ""), WriteInstruction(0, 0)];
    var free := Step(s, DropInstructionCall(0), true);
    var received := Step(free, ReceiveRequest(0, m, ""), true);
    assert received.instructionCalls[0] == InstructionCall(id, s.instructions[id].version, s.instructions[id].content,
                                                           IL.ReleaseUse(p), "", Some(m));
    InstructionRowAfter(received, WriteInstruction(0, 0), true, id);
    RunThree(s, DropInstructionCall(0), ReceiveRequest(0, m, ""), WriteInstruction(0, 0), true);
  }

  lemma {:induction false} ServedReleaseCanFinish(s: State, c: CallId, id: string, p: string)
    requires Inv(s) && IsSingleUse(s, id) && HeldBy(s, id, p) && ReleaseUnderWay(s, c, id, p)
    ensures !HeldBy(Run(s, [WriteInstruction(c, 0)], true), id, p)
  {
    assert InstructionCallOk(s, s.instructionCalls[c]);
    InstructionRowAfter(s, WriteInstruction(c, 0), true, id);
    RunCons(s, WriteInstruction(c, 0), [], true);
    assert [WriteInstruction(c, 0)] == [WriteInstruction(c, 0)] + [];
  }

  lemma {:induction false} DueReleaseCanArrive(s: State, c: CallId, id: string, p: string) returns (more: seq<Action>)
    requires Inv(s) && IsSingleUse(s, id) && HeldBy(s, id, p) && SingleUseSnapshot(s, id, p) && StillToRelease(s, c, p)
    ensures !HeldBy(Run(s, more, true), id, p)
  {
    assert PaymentCallOk(s, c, s.paymentCalls[c]);
    var sent := Step(s, SendRelease(c), true);
    var rest := PendingReleaseCanArrive(sent, id, p);
    RunCons(s, SendRelease(c), rest, true);
    more := [SendRelease(c)] + rest;
  }

  lemma {:induction false} ReleaseCanArrive(s: State, id: string, p: string) returns (more: seq<Action>)
    requires Inv(s) && IsSingleUse(s, id) && HeldBy(s, id, p) && SingleUseSnapshot(s, id, p) && CanStillRelease(s, id, p)
    ensures !HeldBy(Run(s, more, true), id, p)
  {
    if ReleaseRequest(id, p) in s.pending {
      more := PendingReleaseCanArrive(s, id, p);
    } else if c :| c in s.paymentCalls && StillToRelease(s, c, p) {
      more := DueReleaseCanArrive(s, c, id, p);
    } else {
      var c :| c in s.instructionCalls && ReleaseUnderWay(s, c, id, p);
      more := [WriteInstruction(c, 0)];
      ServedReleaseCanFinish(s, c, id, p);
    }
  }

  /**
   The instruction of an ended payment can still be given back exactly while the call that ended
   the payment has yet to send the release, or the request is on its way, or it is being served
   from the row that is still open. Nothing sends it a second time.
   */
  lemma {:induction false} ReleasableIff(s: State, id: string, p: string)
    requires Reachable(s) && IsSingleUse(s, id) && HeldBy(s, id, p)
    requires p in s.payments && PL.Terminal(s.payments[p].content.status)
    ensures CanBeReleased(s, id, p) <==> CanStillRelease(s, id, p)
  {
    ReachableInv(s);
    if CanStillRelease(s, id, p) {
      HolderBelongs(s, id, p);
      var more := ReleaseCanArrive(s, id, p);
      assert !HeldBy(Run(s, more, true), id, p);
    } else {
      forall more ensures HeldBy(Run(s, more, true), id, p) { StuckForever(s, more, id, p); }
    }
  }
}
