/** The runs that show what the saga does not promise, and that its one hypothesis is needed. */
module SagaLimits {
  import opened Wrappers
  import opened Saga
  import opened SagaSafety
  import opened SagaTheorems
  import opened SagaApproval
  import opened SagaScripts
  import opened SagaRelease
  import opened SagaHolders
  import opened PaymentCalls
  import IL = InstructionLifecycle
  import PL = PaymentLifecycle

  // ----- One instruction, one payment ------------------------------------------------------------

  function SingleUseRoute(): IL.Route { IL.Route(IL.SINGLE_USE, "FX", "USD", "acct", 0, 0) }

  function ApprovedInstruction(who: string): IL.Instruction {
    IL.Apply(IL.Apply(IL.NewInstruction(SingleUseRoute(), who, 0), IL.Submit, who, 0), IL.Approve, who, 0)
  }

  function Prepared(id: string, who: string): State {
    START.(instructions := map[id := Current(3, 0, ApprovedInstruction(who))])
  }

  /** One SINGLE_USE instruction, created, submitted and approved, valid at time 0 only. */
  lemma {:induction false} Prepare(id: string, who: string)
    ensures Reachable(Prepared(id, who))
  {
    var created := Step(START, CreateInstruction(id, SingleUseRoute(), who, 0), true);
    OperateSucceeds(created, 1, id, IL.Submit, who, 0, true);
    var submitted := Operated(created, id, IL.Submit, who, 0);
    OperateSucceeds(submitted, 1, id, IL.Approve, who, 0, true);
    var submit, approve := OperateScript(1, id, IL.Submit, who, 0), OperateScript(1, id, IL.Approve, who, 0);
    RunCons(START, CreateInstruction(id, SingleUseRoute(), who, 0), submit + approve, true);
    RunConcat(created, submit, approve, true);
    assert Run(START, [CreateInstruction(id, SingleUseRoute(), who, 0)] + (submit + approve), true) == Prepared(id, who);
  }

  /** What a payment against the APPROVED instruction needs to be drafted, submitted and approved at time 0. */
  predicate CanPay(s: State, call: CallId, server: CallId, id: string, p: string) {
    && id in s.instructions && s.instructions[id].content.status == IL.APPROVED
    && s.instructions[id].content.route == SingleUseRoute()
    && p !in s.payments && s.drafts == map[] && s.paymentCalls == map[] && server !in s.instructionCalls
    && (forall m :: m in s.sent ==> !(m.UseRequest? && (m.call == call || m.call == call + 1)))
    && |Siblings(s, id)| < 100 && ActiveAmong(s, Siblings(s, id)) == {}
  }

  lemma {:induction false} DraftMakesSubmittable(s: State, call: CallId, server: CallId, id: string, p: string, who: string)
    requires CanPay(s, call, server, id, p)
    ensures PL.BacksDraft(View(s.instructions[id]), 0)
    ensures var drafted := Drafted(s, id, p, SOME_TERMS, who, 0);
      CanSubmit(drafted, call, server, id, p, Siblings(drafted, id), 0)
  {
    var drafted := Drafted(s, id, p, SOME_TERMS, who, 0);
    assert Siblings(drafted, id) == Siblings(s, id) + {p};
    assert ActiveAmong(drafted, Siblings(drafted, id)) == {p} by {
      forall q | q in ActiveAmong(drafted, Siblings(drafted, id))
        ensures q == p
      {
        assert q != p ==> q in ActiveAmong(s, Siblings(s, id));
      }
    }
  }

  /** The payment is new, the instruction is USED by it, no call is left, nothing else changes. */
  ghost predicate Paying(s: State, end: State, call: CallId, id: string, p: string, who: string, status: PL.PaymentStatus)
    requires id in s.instructions
  {
    && end.payments.Keys == s.payments.Keys + {p}
    && (forall q :: q in s.payments && q != p ==> end.payments[q] == s.payments[q])
    && end.payments[p].content.status == status
    && end.payments[p].content.instructionId == id && end.payments[p].content.instructionType == IL.SINGLE_USE
    && end.instructions == s.instructions[id := Current(s.instructions[id].version + 1, 0,
                                                        IL.Apply(s.instructions[id].content, IL.Use(p), who, 0))]
    && end.sent == s.sent + {UseRequest(call, id, p)} && end.pending == s.pending - {UseRequest(call, id, p)}
    && end.systemCancelled == s.systemCancelled
    && end.instructionCalls == s.instructionCalls && end.paymentCalls == s.paymentCalls && end.drafts == s.drafts
  }

  /** A draft submitted at time 0 can be approved at time 0 and has expired at any later time. */
  lemma {:induction false} DraftAndSubmit(s: State, call: CallId, server: CallId, id: string, p: string, who: string,
                                          serial: bool) returns (actions: seq<Action>, end: State)
    requires CanPay(s, call, server, id, p)
    ensures end == Run(s, actions, serial) && Paying(s, end, call, id, p, who, PL.SUBMITTED)
    ensures PL.CheckForApproval(end.payments[p].content, View(end.instructions[id]), 0) == None
    ensures PL.CheckForApproval(end.payments[p].content, View(end.instructions[id]), 1) == Some(PL.Expired)
  {
    var drafted := Drafted(s, id, p, SOME_TERMS, who, 0);
    DraftMakesSubmittable(s, call, server, id, p, who);
    DraftSucceeds(s, call, id, p, SOME_TERMS, who, 0, serial);
    SubmitSucceeds(drafted, call, server, id, p, Siblings(drafted, id), who, 0, serial);
    RunConcat(s, DraftScript(call, id, p, SOME_TERMS, who, 0), SubmitScript(call, server, id, p, Siblings(drafted, id), who, 0), serial);
    actions := DraftScript(call, id, p, SOME_TERMS, who, 0) + SubmitScript(call, server, id, p, Siblings(drafted, id), who, 0);
    end := AfterSubmit(drafted, call, id, p, who, 0);
    SubmittedIsPaying(s, call, id, p, who);
  }

  lemma {:induction false} SubmittedIsPaying(s: State, call: CallId, id: string, p: string, who: string)
    requires id in s.instructions && s.instructions[id].content.route == SingleUseRoute() && p !in s.payments
    ensures var end := AfterSubmit(Drafted(s, id, p, SOME_TERMS, who, 0), call, id, p, who, 0);
      && Paying(s, end, call, id, p, who, PL.SUBMITTED)
      && PL.CheckForApproval(end.payments[p].content, View(end.instructions[id]), 0) == None
      && PL.CheckForApproval(end.payments[p].content, View(end.instructions[id]), 1) == Some(PL.Expired)
  {
  }

  lemma {:induction false} PayInFull(s: State, call: CallId, server: CallId, id: string, p: string, who: string, serial: bool)
    returns (actions: seq<Action>)
    requires CanPay(s, call, server, id, p)
    ensures Paying(s, Run(s, actions, serial), call, id, p, who, PL.APPROVED)
  {
    var start, submitted := DraftAndSubmit(s, call, server, id, p, who, serial);
    ApproveRuns(submitted, call + 1, p, who, 0, serial);
    RunConcat(s, start, ApproveScript(call + 1, p, who, 0), serial);
    actions := start + ApproveScript(call + 1, p, who, 0);
  }

  /** One SUBMITTED payment holding its instruction, and nothing in flight. */
  ghost predicate Submitted(s: State, id: string, p: string) {
    && Reachable(s) && IsSingleUse(s, id) && HeldBy(s, id, p) && SingleUseSnapshot(s, id, p)
    && s.payments.Keys == {p} && s.payments[p].content.status == PL.SUBMITTED && s.payments[p].content.submittedAt.Some?
    && s.instructions[id].content.route == SingleUseRoute()
    && PL.CheckForApproval(s.payments[p].content, View(s.instructions[id]), 0) == None
    && PL.CheckForApproval(s.payments[p].content, View(s.instructions[id]), 1) == Some(PL.Expired)
    && p !in s.systemCancelled && NothingInFlight(s)
  }

  predicate NothingInFlight(s: State) {
    s.paymentCalls == map[] && s.instructionCalls == map[] && s.drafts == map[] && s.pending == {}
  }

  lemma {:induction false} SubmitAlone(id: string, p: string, who: string) returns (s: State)
    ensures Submitted(s, id, p) && s.sent == {UseRequest(1, id, p)}
  {
    Prepare(id, who);
    assert Siblings(Prepared(id, who), id) == {};
    var start;
    start, s := DraftAndSubmit(Prepared(id, who), 1, 1, id, p, who, true);
    ReachableOn(Prepared(id, who), start, s);
    PayingIsSubmitted(s, id, p, who);
  }

  lemma {:induction false} PayingIsSubmitted(s: State, id: string, p: string, who: string)
    requires Reachable(s) && Paying(Prepared(id, who), s, 1, id, p, who, PL.SUBMITTED)
    requires PL.CheckForApproval(s.payments[p].content, View(s.instructions[id]), 0) == None
    requires PL.CheckForApproval(s.payments[p].content, View(s.instructions[id]), 1) == Some(PL.Expired)
    ensures Submitted(s, id, p) && s.sent == {UseRequest(1, id, p)}
  {
    ReachableInv(s);
    assert PaymentOk(s, p);
  }

  // ----- Why calls on one entity must not overlap ---------------------------------------------------

  /** An instruction that is APPROVED again although it backs an APPROVED payment. */
  lemma {:induction false} PayAgain(s: State, id: string, p: string, q: string, who: string) returns (rest: seq<Action>)
    requires p != q && s.payments.Keys == {p} && ApprovedOn(s, id, p)
    requires id in s.instructions && s.instructions[id].content.status == IL.APPROVED
    requires s.instructions[id].content.route == SingleUseRoute()
    requires s.paymentCalls == map[] && s.instructionCalls == map[] && s.drafts == map[]
    requires forall m :: m in s.sent && m.UseRequest? ==> m.call == 1
    ensures var end := Run(s, rest, true); IsSingleUse(end, id) && ApprovedOn(end, id, p) && ApprovedOn(end, id, q)
  {
    assert Siblings(s, id) == {p} && ActiveAmong(s, {p}) == {};
    rest := PayInFull(s, 2, 1, id, q, who, true);
  }

  /**
   Calls on one instruction must not overlap between read and append. In a reachable state a
   suspend has read the APPROVED row; it writes over the USED row, which is the only write out of
   turn. Once reactivated the instruction is used again, and two payments end APPROVED on it.
   */
  lemma {:induction false} StaleWriteBreaksSafety(id: string, p: string, q: string, who: string)
    returns (s: State, call: CallId, rest: seq<Action>)
    requires p != q
    ensures Reachable(s)
    ensures var end := Run(Step(s, WriteInstruction(call, 0), false), rest, true);
      IsSingleUse(end, id) && ApprovedOn(end, id, p) && ApprovedOn(end, id, q)
  {
    s := PaidWithSuspendInFlight(id, p, who);
    call := 9;
    var written := Step(s, WriteInstruction(9, 0), false);
    var resume, active := OverwriteAndReactivate(s, id, who);
    var second := PayAgain(active, id, p, q, who);
    RunConcat(written, resume, second, true);
    rest := resume + second;
  }

  lemma {:induction false} OverwriteAndReactivate(s: State, id: string, who: string) returns (actions: seq<Action>, end: State)
    requires id in s.instructions
    requires s.instructionCalls == map[9 := InstructionCall(id, 3, ApprovedInstruction(who), IL.Suspend, who, None)]
    ensures end == Run(Step(s, WriteInstruction(9, 0), false), actions, true)
    ensures end.payments == s.payments && end.sent == s.sent && end.drafts == s.drafts && end.paymentCalls == s.paymentCalls
    ensures end.instructionCalls == map[] && end.instructions.Keys == s.instructions.Keys
    ensures end.instructions[id].content.status == IL.APPROVED && end.instructions[id].content.route == SingleUseRoute()
  {
    var written := Step(s, WriteInstruction(9, 0), false);
    assert written.instructionCalls == map[];
    assert written.instructions[id].content == IL.Apply(ApprovedInstruction(who), IL.Suspend, who, 0);
    OperateSucceeds(written, 1, id, IL.Reactivate, who, 0, true);
    actions, end := OperateScript(1, id, IL.Reactivate, who, 0), Operated(written, id, IL.Reactivate, who, 0);
  }

  lemma {:induction false} PaidWithSuspendInFlight(id: string, p: string, who: string) returns (s: State)
    ensures Reachable(s) && id in s.instructions && s.payments.Keys == {p}
    ensures s.payments[p].content.status == PL.APPROVED && s.payments[p].content.instructionId == id
    ensures s.instructionCalls == map[9 := InstructionCall(id, 3, ApprovedInstruction(who), IL.Suspend, who, None)]
    ensures s.sent == {UseRequest(1, id, p)} && s.drafts == map[] && s.paymentCalls == map[]
  {
    var reading := Prepared(id, who)
      .(instructionCalls := map[9 := InstructionCall(id, 3, ApprovedInstruction(who), IL.Suspend, who, None)]);
    SuspendReads(id, who, reading);
    assert Siblings(reading, id) == {};
    var pay := PayInFull(reading, 1, 1, id, p, who, true);
    s := Run(reading, pay, true);
    ReachableOn(reading, pay, s);
  }

  lemma {:induction false} SuspendReads(id: string, who: string, reading: State)
    requires reading == Prepared(id, who)
      .(instructionCalls := map[9 := InstructionCall(id, 3, ApprovedInstruction(who), IL.Suspend, who, None)])
    ensures Reachable(reading)
  {
    Prepare(id, who);
    var suspend := ReadInstruction(9, id, IL.Suspend, who);
    RunCons(Prepared(id, who), suspend, [], true);
    assert [suspend] == [suspend] + [];
    ReachableOn(Prepared(id, who), [suspend], reading);
  }

  /**
   Nor may calls on one payment. In a reachable state an approve has read the SUBMITTED row; the
   payment is rejected and its instruction released, and the approve then writes over the REJECTED
   row, the only write out of turn. The instruction backs a second payment, and both are APPROVED.
   */
  lemma {:induction false} StalePaymentWriteBreaksSafety(id: string, p: string, q: string, who: string)
    returns (s: State, call: CallId, rest: seq<Action>)
    requires p != q
    ensures Reachable(s)
    ensures var end := Run(Step(s, WritePayment(call, 0), false), rest, true);
      IsSingleUse(end, id) && ApprovedOn(end, id, p) && ApprovedOn(end, id, q)
  {
    s := ReleasedWithApproveInFlight(id, p, who);
    call := 2;
    var written := StaleApproveWrites(s, id, p);
    rest := PayAgain(written, id, p, q, who);
  }

  lemma {:induction false} StaleApproveWrites(s: State, id: string, p: string) returns (written: State)
    requires s.payments.Keys == {p} && s.paymentCalls.Keys == {2} && s.paymentCalls[2].kind == KApprove
    requires s.paymentCalls[2].stage == Ready && s.paymentCalls[2].paymentId == p && s.paymentCalls[2].payment.instructionId == id
    ensures written == Step(s, WritePayment(2, 0), false) && written.payments.Keys == {p}
    ensures written.payments[p].content.status == PL.APPROVED && written.payments[p].content.instructionId == id
    ensures written.instructions == s.instructions && written.sent == s.sent
    ensures written.instructionCalls == s.instructionCalls && written.drafts == s.drafts && written.paymentCalls == map[]
  {
    written := Step(s, WritePayment(2, 0), false);
    assert s.paymentCalls - {2} == map[];
  }

  lemma {:induction false} ReleasedWithApproveInFlight(id: string, p: string, who: string) returns (s: State)
    ensures Reachable(s) && id in s.instructions && s.payments.Keys == {p}
    ensures s.instructions[id].content.status == IL.APPROVED && s.instructions[id].content.route == SingleUseRoute()
    ensures s.paymentCalls.Keys == {2} && s.paymentCalls[2].kind == KApprove && s.paymentCalls[2].stage == Ready
    ensures s.paymentCalls[2].paymentId == p && s.paymentCalls[2].payment.instructionId == id
    ensures s.instructionCalls == map[] && s.drafts == map[]
    ensures forall m :: m in s.sent && m.UseRequest? ==> m.call == 1
  {
    var submitted := SubmitAlone(id, p, who);
    var loaded := CallOf(submitted, p, KApprove, who);
    var approve := [LoadPayment(2, p, KApprove, who), CheckInstruction(2, 0)];
    RunTwo(submitted, approve[0], approve[1], true);
    LoadThenCheck(submitted, 2, loaded, 0, true);
    ApprovalChecked(submitted, 2, loaded, 0, None);
    var approving := WithCall(submitted, 2, loaded.(stage := Ready));
    ReachableOn(submitted, approve, approving);
    s := RejectAndRelease(approving, 3, id, p, who);
  }

  function RejectScript(call: CallId, p: string, who: string): seq<Action> {
    [LoadPayment(call, p, KReject(""), who), CheckInstruction(call, 0), WritePayment(call, 0)] + [SendRelease(call)]
  }

  function Rejected(s: State, p: string, who: string): State
    requires p in s.payments
  {
    AfterEnd(s, p, PL.Rejected(s.payments[p].content, "", who, 0), 0)
  }

  lemma {:induction false} RejectSends(s: State, call: CallId, id: string, p: string, who: string)
    requires Reachable(s) && FreshCall(s, call) && SingleUseSnapshot(s, id, p)
    requires s.payments[p].content.status == PL.SUBMITTED && s.payments[p].content.submittedAt.Some?
    ensures Reachable(Rejected(s, p, who)) && Rejected(s, p, who).sent == s.sent + {ReleaseRequest(id, p)}
    ensures Rejected(s, p, who).pending == s.pending + {ReleaseRequest(id, p)}
  {
    EndCallRuns(s, call, p, KReject(""), who, 0);
    ReachableOn(s, RejectScript(call, p, who), Rejected(s, p, who));
  }

  lemma {:induction false} RejectAndRelease(s: State, call: CallId, id: string, p: string, who: string) returns (end: State)
    requires Reachable(s) && FreshCall(s, call) && SingleUseSnapshot(s, id, p) && HeldBy(s, id, p) && IsSingleUse(s, id)
    requires s.payments[p].content.status == PL.SUBMITTED && s.payments[p].content.submittedAt.Some?
    requires s.instructionCalls == map[]
    ensures Reachable(end)
    ensures end == Operated(Rejected(s, p, who), id, IL.ReleaseUse(p), who, 0)
                   .(pending := s.pending + {ReleaseRequest(id, p)} - {ReleaseRequest(id, p)})
    ensures end.instructions[id].content.status == IL.APPROVED
    ensures end.instructions[id].content.route == s.instructions[id].content.route
  {
    RejectSends(s, call, id, p, who);
    var rejected := Rejected(s, p, who);
    ReleaseRuns(rejected, 0, id, p, who, 0);
    end := Operated(rejected, id, IL.ReleaseUse(p), who, 0).(pending := rejected.pending - {ReleaseRequest(id, p)});
    ReachableOn(rejected, [ReceiveRequest(0, ReleaseRequest(id, p), who), WriteInstruction(0, 0)], end);
  }

  // ----- Instructions held for good -----------------------------------------------------------------

  /** The payment has the status, nothing is in flight, and the instruction stays with it in every continuation. */
  ghost predicate HeldForGood(s: State, id: string, p: string, status: PL.PaymentStatus) {
    && Reachable(s) && IsSingleUse(s, id) && HeldBy(s, id, p) && NothingInFlight(s)
    && p in s.payments && s.payments[p].content.status == status
    && forall more :: HeldBy(Run(s, more, true), id, p)
  }

  lemma {:induction false} QuietHolderHoldsForGood(s: State, id: string, p: string)
    requires Reachable(s) && IsSingleUse(s, id) && HeldBy(s, id, p) && NothingInFlight(s)
    ensures p in s.payments
    ensures s.payments[p].content.status != PL.SUBMITTED ==> HeldForGood(s, id, p, s.payments[p].content.status)
  {
    HolderReleasableIff(s, id, p);
    if s.payments[p].content.status != PL.SUBMITTED {
      assert !CanBeReleased(s, id, p);
      forall more ensures HeldBy(Run(s, more, true), id, p) {}
    }
  }

  /** The instruction expires before the approval, and the system cancels the payment without a release. */
  lemma {:induction false} ExpiredApprovalStrandsInstruction(id: string, p: string, who: string) returns (s: State)
    ensures HeldForGood(s, id, p, PL.CANCELLED) && p in s.systemCancelled
  {
    var submitted := SubmitAlone(id, p, who);
    ApproveRuns(submitted, 2, p, who, 1, true);
    s := AfterApprove(submitted, p, who, 1);
    ReachableOn(submitted, ApproveScript(2, p, who, 1), s);
    QuietHolderHoldsForGood(s, id, p);
  }

  /** A user's reject that stops between its own write and the release. */
  lemma {:induction false} CrashAfterRejectStrandsInstruction(id: string, p: string, who: string) returns (s: State)
    ensures HeldForGood(s, id, p, PL.REJECTED) && p !in s.systemCancelled && s.payments[p].content.submittedAt.Some?
    ensures ReleaseRequest(id, p) !in s.sent
  {
    var submitted := SubmitAlone(id, p, who);
    var loaded := CallOf(submitted, p, KReject(""), who);
    var write := [LoadPayment(2, p, KReject(""), who), CheckInstruction(2, 0), WritePayment(2, 0)];
    RunThree(submitted, write[0], write[1], write[2], true);
    LoadThenCheck(submitted, 2, loaded, 0, true);
    CheckPasses(submitted, 2, loaded, 0);
    var ready := loaded.(stage := Ready);
    EndWrites(submitted, 2, ready, 0);
    var ended := PL.Rejected(submitted.payments[p].content, "", who, 0);
    s := PutPayment(submitted, p, ended, 0);
    var persisted := WithCall(s, 2, ready.(stage := Persisted, payment := ended));
    ReachableOn(submitted, write, persisted);
    DropEndsCall(s, 2, ready.(stage := Persisted, payment := ended));
    ReachableOn(persisted, [DropPaymentCall(2)], s);
    QuietHolderHoldsForGood(s, id, p);
  }

  /** A user's reject whose one release request is received and refused. */
  lemma {:induction false} RefusedReleaseStrandsInstruction(id: string, p: string, who: string) returns (s: State)
    ensures HeldForGood(s, id, p, PL.REJECTED) && p !in s.systemCancelled && s.payments[p].content.submittedAt.Some?
    ensures ReleaseRequest(id, p) in s.sent
  {
    var m := ReleaseRequest(id, p);
    var submitted := SubmitAlone(id, p, who);
    RejectSends(submitted, 2, id, p, who);
    var rejected := Rejected(submitted, p, who);
    var refuse := [ReceiveRequest(0, m, who), DropInstructionCall(0)];
    RunTwo(rejected, refuse[0], refuse[1], true);
    s := rejected.(pending := {});
    assert rejected.pending - {m} == {};
    assert Step(rejected, refuse[0], true).instructionCalls - {0} == map[];
    ReachableOn(rejected, refuse, s);
    QuietHolderHoldsForGood(s, id, p);
  }

  /** A submit that stops between USE and its own write: the instruction is USED by a DRAFT payment. */
  lemma {:induction false} CrashLeavesDraftHolder(id: string, p: string, who: string) returns (s: State)
    ensures HeldForGood(s, id, p, PL.DRAFT)
  {
    var drafted := DraftAlone(id, p, who);
    var listed := Siblings(drafted, id);
    SubmitStopsAfterUse(drafted, 1, 1, id, p, listed, who, 0);
    s := Used(drafted, 1, id, p, who, 0);
    ReachableOn(drafted, CheckPart(1, p, listed, who, 0) + UsePart(1, 1, id, p, who, 0) + [DropPaymentCall(1)], s);
    QuietHolderHoldsForGood(s, id, p);
  }

  lemma {:induction false} DraftAlone(id: string, p: string, who: string) returns (s: State)
    ensures Reachable(s) && NothingInFlight(s) && s.sent == {} && s.payments.Keys == {p} && s.systemCancelled == {}
    ensures SingleUseSnapshot(s, id, p) && s.instructions == Prepared(id, who).instructions
    ensures CanSubmit(s, 1, 1, id, p, Siblings(s, id), 0)
  {
    var ready := Prepared(id, who);
    Prepare(id, who);
    assert Siblings(ready, id) == {};
    s := Drafted(ready, id, p, SOME_TERMS, who, 0);
    DraftMakesSubmittable(ready, 1, 1, id, p, who);
    DraftSucceeds(ready, 1, id, p, SOME_TERMS, who, 0, true);
    ReachableOn(ready, DraftScript(1, id, p, SOME_TERMS, who, 0), s);
  }

  /**
   A USE that arrives late. The first submit gives up on its USE while the request is still on its
   way; the second goes through; the payment is rejected and the instruction released. Then the
   first USE arrives: the instruction is USED by a REJECTED payment that has spent its release.
   */
  lemma {:induction false} LateUseStrandsInstruction(id: string, p: string, who: string) returns (s: State)
    ensures HeldForGood(s, id, p, PL.REJECTED) && p !in s.systemCancelled && s.payments[p].content.submittedAt.Some?
    ensures ReleaseRequest(id, p) in s.sent
  {
    var late := UseRequest(1, id, p);
    var delayed := UseDelayed(id, p, who);
    SubmitSucceeds(delayed, 2, 1, id, p, Siblings(delayed, id), who, 0, true);
    var submitted := AfterSubmit(delayed, 2, id, p, who, 0);
    ReachableOn(delayed, SubmitScript(2, 1, id, p, Siblings(delayed, id), who, 0), submitted);
    var released := RejectAndRelease(submitted, 3, id, p, who);
    assert released.pending == {late};
    var arrive := [ReceiveRequest(0, late, who), WriteInstruction(0, 0)];
    RunTwo(released, arrive[0], arrive[1], true);
    RequestServed(released, 0, late, who, 0, true);
    s := Operated(released, id, IL.Use(p), who, 0).(pending := released.pending - {late}, acks := released.acks + {late});
    ReachableOn(released, arrive, s);
    QuietHolderHoldsForGood(s, id, p);
  }

  /** The first submit has sent its USE and is gone; the payment is a DRAFT that can be submitted again. */
  lemma {:induction false} UseDelayed(id: string, p: string, who: string) returns (s: State)
    ensures Reachable(s) && s.paymentCalls == map[] && s.instructionCalls == map[] && s.drafts == map[]
    ensures s.sent == {UseRequest(1, id, p)} && s.pending == {UseRequest(1, id, p)} && s.systemCancelled == {}
    ensures s.instructions == Prepared(id, who).instructions && SingleUseSnapshot(s, id, p)
    ensures CanSubmit(s, 2, 1, id, p, Siblings(s, id), 0)
  {
    var m := UseRequest(1, id, p);
    var drafted := DraftAlone(id, p, who);
    var listed := Siblings(drafted, id);
    SubmitReachesListed(drafted, 1, 1, id, p, listed, who, 0, true);
    var ready := Run(drafted, CheckPart(1, p, listed, who, 0), true);
    s := Sending(drafted, m);
    GiveUpAfterUse(drafted, 1, ready.paymentCalls[1], m);
    ReachableOn(drafted, CheckPart(1, p, listed, who, 0), ready);
    ReachableOn(ready, [SendUse(1), DropPaymentCall(1)], s);
    ListingDependsOnPayments(drafted, s, id, listed);
  }

  lemma {:induction false} GiveUpAfterUse(s: State, call: CallId, c: PaymentCall, m: Message)
    requires c.stage == Listed && m == UseRequest(call, c.payment.instructionId, c.paymentId) && call !in s.paymentCalls
    ensures Run(WithCall(s, call, c), [SendUse(call), DropPaymentCall(call)], true) == Sending(s, m)
  {
    SendStep(s, call, c, m, true);
    RunTwo(WithCall(s, call, c), SendUse(call), DropPaymentCall(call), true);
    assert WithCall(Sending(s, m), call, c.(stage := Waiting)).paymentCalls - {call} == s.paymentCalls;
  }
}
