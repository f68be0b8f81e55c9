/** At most one approved payment per SINGLE_USE instruction, whatever snapshot the payments carry. */
module SagaApproval {
  import opened Wrappers
  import opened Saga
  import opened SagaSafety
  import opened SagaTheorems
  import IL = InstructionLifecycle
  import PL = PaymentLifecycle

  /** The instruction of a payment that passed the approval check: out of DRAFT, so of a final type, and of the payment's type. */
  predicate TypedBacking(s: State, payment: PL.Payment) {
    && payment.instructionId in s.instructions
    && s.instructions[payment.instructionId].content.status != IL.DRAFT
    && s.instructions[payment.instructionId].content.route.instructionType == payment.instructionType
  }

  predicate ApprovedIsTyped(s: State, p: string) {
    p in s.payments && s.payments[p].content.status == PL.APPROVED ==> TypedBacking(s, s.payments[p].content)
  }

  predicate ReadyToApprove(s: State, c: CallId) {
    c in s.paymentCalls && s.paymentCalls[c].kind == KApprove && s.paymentCalls[c].stage == Ready
  }

  predicate ApproverIsTyped(s: State, c: CallId) {
    ReadyToApprove(s, c) ==> TypedBacking(s, s.paymentCalls[c].payment)
  }

  ghost predicate ApprovalsTyped(s: State) {
    && (forall p: string {:trigger ApprovedIsTyped(s, p)} :: ApprovedIsTyped(s, p))
    && (forall c: CallId {:trigger ApproverIsTyped(s, c)} :: ApproverIsTyped(s, c))
  }

  /** UPDATE is for drafts only, so a backing once typed stays typed. */
  lemma {:induction false} BackingStays(s: State, a: Action, payment: PL.Payment)
    requires Inv(s) && TypedBacking(s, payment)
    ensures TypedBacking(Step(s, a, true), payment)
  {
    var id := payment.instructionId;
    InstructionRowAfter(s, a, true, id);
    if WritesInstruction(s, a, true, id) {
      var c := s.instructionCalls[a.call];
      assert InstructionCallOk(s, c);
      IL.RouteFinalAfterDraft(c.instruction, c.op, c.who, a.now);
    }
  }

  lemma {:induction false} StepKeepsApproved(s: State, a: Action, p: string)
    requires Inv(s) && ApprovalsTyped(s)
    ensures ApprovedIsTyped(Step(s, a, true), p)
  {
    assert ApprovedIsTyped(s, p);
    if a.WritePayment? {
      if CanWritePayment(s, a.call, true) { WriteKeepsApproved(s, a.call, a.now, p); }
    } else if a.InsertPayment? {
      if a.call in s.drafts { assert DraftOk(s, s.drafts[a.call]); }
    } else {
      PaymentsUntouched(s, a);
      if p in s.payments && s.payments[p].content.status == PL.APPROVED { BackingStays(s, a, s.payments[p].content); }
    }
  }

  lemma {:induction false} WriteKeepsApproved(s: State, call: CallId, now: int, p: string)
    requires Inv(s) && ApprovalsTyped(s) && CanWritePayment(s, call, true)
    ensures ApprovedIsTyped(WrotePayment(s, call, now), p)
  {
    assert ApprovedIsTyped(s, p) && ApproverIsTyped(s, call);
    assert PaymentCallOk(s, call, s.paymentCalls[call]);
  }

  /** A call becomes ready to approve only by passing the check. */
  lemma {:induction false} CheckedApproverIsTyped(s: State, call: CallId, now: int)
    requires AtStage(s, call, Loaded)
    ensures ApproverIsTyped(CheckedInstruction(s, call, now), call)
  {
  }

  lemma {:induction false} StepKeepsApprovers(s: State, a: Action, c: CallId)
    requires Inv(s) && ApprovalsTyped(s)
    ensures ApproverIsTyped(Step(s, a, true), c)
  {
    assert ApproverIsTyped(s, c);
    if a.CheckInstruction? && a.call == c && AtStage(s, c, Loaded) {
      CheckedApproverIsTyped(s, c, a.now);
    } else {
      ApproversAppearAtCheck(s, a, c);
      if ReadyToApprove(s, c) {
        BackingStays(s, a, s.paymentCalls[c].payment);
      }
    }
  }

  lemma {:induction false} ApproversAppearAtCheck(s: State, a: Action, c: CallId)
    requires Inv(s) && !(a.CheckInstruction? && a.call == c && AtStage(s, c, Loaded))
    ensures ReadyToApprove(Step(s, a, true), c) ==> c in s.paymentCalls && s.paymentCalls[c] == Step(s, a, true).paymentCalls[c]
  {
    if !CallStep(a) || a.call != c {
      OtherCallsUntouched(s, a, c);
    } else {
      if c in s.paymentCalls { assert PaymentCallOk(s, c, s.paymentCalls[c]); }
      OwnStepApproves(s, a);
    }
  }

  lemma {:induction false} OwnStepApproves(s: State, a: Action)
    requires CallStep(a) && !(a.CheckInstruction? && AtStage(s, a.call, Loaded))
    requires AtStage(s, a.call, Marked) ==> s.paymentCalls[a.call].kind != KApprove
    ensures ReadyToApprove(Step(s, a, true), a.call) ==> a.call in s.paymentCalls && SameCall(s, Step(s, a, true), a.call)
  {
  }

  // ----- The theorem -------------------------------------------------------------------------

  lemma {:induction false} RunKeepsTyped(s: State, actions: seq<Action>)
    requires Inv(s) && ApprovalsTyped(s)
    ensures ApprovalsTyped(Run(s, actions, true))
    decreases |actions|
  {
    if actions != [] {
      var after := Step(s, actions[0], true);
      StepKeepsInv(s, actions[0]);
      forall p: string ensures ApprovedIsTyped(after, p) { StepKeepsApproved(s, actions[0], p); }
      forall c: CallId ensures ApproverIsTyped(after, c) { StepKeepsApprovers(s, actions[0], c); }
      RunKeepsTyped(after, actions[1..]);
    }
  }

  /** An APPROVED payment of the instruction; its snapshot does not matter. */
  predicate ApprovedOn(s: State, instructionId: string, p: string) {
    p in s.payments && s.payments[p].content.instructionId == instructionId && s.payments[p].content.status == PL.APPROVED
  }

  /** Approval leaves no snapshot behind the instruction: an approved payment is of its instruction's final type. */
  lemma {:induction false} ApprovedHasInstructionType(s: State, instructionId: string, p: string)
    requires Reachable(s) && ApprovedOn(s, instructionId, p)
    ensures TypedBacking(s, s.payments[p].content)
    ensures IsSingleUse(s, instructionId) ==> Claims(s, instructionId, p)
  {
    var actions :| s == Run(START, actions, true);
    RunKeepsTyped(START, actions);
    assert ApprovedIsTyped(s, p);
  }

  /** In every reachable state at most one payment is APPROVED on a SINGLE_USE instruction, and it holds it. */
  lemma {:induction false} ApprovedIsUnique(s: State, instructionId: string, p: string, q: string)
    requires Reachable(s) && IsSingleUse(s, instructionId)
    requires ApprovedOn(s, instructionId, p) && ApprovedOn(s, instructionId, q)
    ensures p == q && HeldBy(s, instructionId, p)
  {
    ApprovedHasInstructionType(s, instructionId, p);
    ApprovedHasInstructionType(s, instructionId, q);
    AtMostOneHolder(s, instructionId, p, q);
  }

  /**
   At most one payment per SINGLE_USE instruction is ever APPROVED: once `p` is, both rows stay as
   they are forever, and whatever its snapshot no other payment is APPROVED then or later.
   */
  lemma {:induction false} AtMostOneEverApproved(s: State, more: seq<Action>, instructionId: string, p: string, q: string)
    requires Reachable(s) && ApprovedOn(s, instructionId, p)
    requires IsSingleUse(s, instructionId) || IsSingleUse(Run(s, more, true), instructionId)
    ensures var end := Run(s, more, true);
      && HeldBy(end, instructionId, p) && p in end.payments && end.payments[p] == s.payments[p]
      && instructionId in s.instructions && end.instructions[instructionId] == s.instructions[instructionId]
      && (ApprovedOn(end, instructionId, q) ==> q == p)
      && (Claims(end, instructionId, q) ==> q == p)
  {
    var end := Run(s, more, true);
    ApprovedHasInstructionType(s, instructionId, p);
    TypeIsFinal(s, more, instructionId);
    ReachableInv(s);
    SettledForever(s, more, instructionId, p);
    ReachableOn(s, more, end);
    ReachableInv(end);
    ClaimIsHeld(end, instructionId, p);
    if Claims(end, instructionId, q) { ClaimIsHeld(end, instructionId, q); }
    if ApprovedOn(end, instructionId, q) { ApprovedIsUnique(end, instructionId, p, q); }
  }

  /** The type of an instruction out of DRAFT never changes. */
  lemma {:induction false} TypeIsFinal(s: State, more: seq<Action>, instructionId: string)
    requires Reachable(s) && instructionId in s.instructions && s.instructions[instructionId].content.status != IL.DRAFT
    ensures IsSingleUse(Run(s, more, true), instructionId) <==> IsSingleUse(s, instructionId)
  {
    ReachableInv(s);
    TypeStays(s, more, instructionId);
  }

  lemma {:induction false} TypeStays(s: State, more: seq<Action>, instructionId: string)
    requires Inv(s) && instructionId in s.instructions && s.instructions[instructionId].content.status != IL.DRAFT
    ensures IsSingleUse(Run(s, more, true), instructionId) <==> IsSingleUse(s, instructionId)
    decreases |more|
  {
    if more != [] {
      var a, after := more[0], Step(s, more[0], true);
      StepKeepsInv(s, a);
      InstructionRowAfter(s, a, true, instructionId);
      if WritesInstruction(s, a, true, instructionId) {
        var c := s.instructionCalls[a.call];
        assert InstructionCallOk(s, c);
        IL.RouteFinalAfterDraft(c.instruction, c.op, c.who, a.now);
      }
      TypeStays(after, more[1..], instructionId);
    }
  }
}
