/** Uninterrupted calls end to end. */
module SagaScripts {
  import opened Wrappers
  import opened Saga
  import opened SagaSafety
  import opened SagaTheorems
  import IL = InstructionLifecycle
  import PL = PaymentLifecycle

  // ----- Uninterrupted calls --------------------------------------------------------

  function OperateScript(server: CallId, id: string, op: IL.Operation, who: string, now: int): seq<Action> {
    [ReadInstruction(server, id, op, who), WriteInstruction(server, now)]
  }

  function Operated(s: State, id: string, op: IL.Operation, who: string, now: int): State
    requires id in s.instructions
  {
    s.(instructions := s.instructions[id :=
         Current(s.instructions[id].version + 1, now, IL.Apply(s.instructions[id].content, op, who, now))])
  }

  lemma {:induction false} OperateSucceeds(s: State, server: CallId, id: string, op: IL.Operation, who: string, now: int,
                                           serial: bool)
    requires id in s.instructions && server !in s.instructionCalls
    requires UserOperation(op) && IL.Permits(s.instructions[id].content, op)
    ensures Run(s, OperateScript(server, id, op, who, now), serial) == Operated(s, id, op, who, now)
  {
    var read := Step(s, ReadInstruction(server, id, op, who), serial);
    assert read.instructionCalls - {server} == s.instructionCalls;
    RunTwo(s, ReadInstruction(server, id, op, who), WriteInstruction(server, now), serial);
  }

  lemma {:induction false} RunTwo(s: State, a: Action, b: Action, serial: bool)
    ensures Run(s, [a, b], serial) == Step(Step(s, a, serial), b, serial)
  {
    assert [a, b] == [a] + [b] && [b] == [b] + [];
    RunCons(s, a, [b], serial);
    RunCons(Step(s, a, serial), b, [], serial);
  }

  /** What a create request supplies about the payment itself. */
  datatype Terms = Terms(amount: int, valueDate: string)

  const SOME_TERMS := Terms(1, "")

  function DraftScript(call: CallId, id: string, p: string, terms: Terms, who: string, now: int): seq<Action> {
    [DraftPayment(call, id, terms.amount, terms.valueDate, who, now), InsertPayment(call, p, now)]
  }

  function Drafted(s: State, id: string, p: string, terms: Terms, who: string, now: int): State
    requires id in s.instructions
  {
    s.(payments := s.payments[p := Current(1, now, PL.NewPayment(id, View(s.instructions[id]), terms.amount, terms.valueDate, who, now))])
  }

  lemma {:induction false} DraftSucceeds(s: State, call: CallId, id: string, p: string, terms: Terms, who: string, now: int,
                                         serial: bool)
    requires id in s.instructions && PL.BacksDraft(View(s.instructions[id]), now)
    requires call !in s.drafts && p !in s.payments
    ensures Run(s, DraftScript(call, id, p, terms, who, now), serial) == Drafted(s, id, p, terms, who, now)
  {
    var draft, insert := DraftPayment(call, id, terms.amount, terms.valueDate, who, now), InsertPayment(call, p, now);
    var drafted := Step(s, draft, serial);
    assert drafted.drafts - {call} == s.drafts;
    RunTwo(s, draft, insert, serial);
  }

  // ----- The uninterrupted submit saga ---------------------------------------------------

  /** What a submit of the SINGLE_USE payment `p` needs to go through, given the siblings it will be listed. */
  predicate CanSubmit(s: State, call: CallId, server: CallId, id: string, p: string, listed: set<string>, now: int) {
    && SingleUseSnapshot(s, id, p)
    && s.payments[p].content.status == PL.DRAFT && PL.BacksSubmit(View(s.instructions[id]), now)
    && call !in s.paymentCalls && server !in s.instructionCalls
    && (forall m :: m in s.sent ==> !(m.UseRequest? && m.call == call))
    && ValidListing(s, id, listed) && |ActiveAmong(s, listed)| <= 1
  }

  function CheckPart(call: CallId, p: string, siblings: set<string>, who: string, now: int): seq<Action> {
    [LoadPayment(call, p, KSubmit, who), CheckInstruction(call, now), ListSiblings(call, siblings)]
  }

  function UsePart(call: CallId, server: CallId, id: string, p: string, who: string, now: int): seq<Action> {
    [SendUse(call), ReceiveRequest(server, UseRequest(call, id, p), who), WriteInstruction(server, now)]
  }

  function WritePart(call: CallId, now: int): seq<Action> {
    [ReceiveAck(call), RereadInstruction(call), WritePayment(call, now)]
  }

  function SubmitScript(call: CallId, server: CallId, id: string, p: string, siblings: set<string>, who: string, now: int)
    : seq<Action>
  {
    CheckPart(call, p, siblings, who, now) + UsePart(call, server, id, p, who, now) + WritePart(call, now)
  }

  /** Both rows gain one version: the instruction USED by `p`, then the payment SUBMITTED against it. */
  function AfterSubmit(s: State, call: CallId, id: string, p: string, who: string, now: int): State
    requires id in s.instructions && p in s.payments
  {
    var used := Current(s.instructions[id].version + 1, now, IL.Apply(s.instructions[id].content, IL.Use(p), who, now));
    var payment := PL.Submitted(s.payments[p].content.(instructionVersion := used.version), who, now);
    var m := UseRequest(call, id, p);
    s.(instructions := s.instructions[id := used],
       payments := s.payments[p := Current(s.payments[p].version + 1, now, payment)],
       sent := s.sent + {m}, pending := s.pending - {m}, acks := s.acks + {m})
  }

  lemma {:induction false} SubmitReachesListed(s: State, call: CallId, server: CallId, id: string, p: string, listed: set<string>,
                                               who: string, now: int, serial: bool)
    requires CanSubmit(s, call, server, id, p, listed, now)
    ensures Run(s, CheckPart(call, p, listed, who, now), serial)
         == WithCall(s, call, PaymentCall(KSubmit, p, s.payments[p].version,
              s.payments[p].content.(instructionVersion := s.instructions[id].version), who, Listed))
  {
    RunThree(s, LoadPayment(call, p, KSubmit, who), CheckInstruction(call, now), ListSiblings(call, listed), serial);
    var loaded := PaymentCall(KSubmit, p, s.payments[p].version, s.payments[p].content, who, Loaded);
    LoadThenCheck(s, call, loaded, now, serial);
    var validated := loaded.(stage := Validated, payment := loaded.payment.(instructionVersion := s.instructions[id].version));
    assert CheckedInstruction(WithCall(s, call, loaded), call, now) == WithCall(s, call, validated);
    ListingPasses(s, call, validated, listed, serial);
  }

  lemma {:induction false} LoadThenCheck(s: State, call: CallId, loaded: PaymentCall, now: int, serial: bool)
    requires call !in s.paymentCalls && forall m :: m in s.sent ==> !(m.UseRequest? && m.call == call)
    requires loaded.paymentId in s.payments && Accepts(loaded.kind, s.payments[loaded.paymentId].content.status)
    requires loaded.version == s.payments[loaded.paymentId].version && loaded.payment == s.payments[loaded.paymentId].content
    requires loaded.stage == Loaded
    ensures Step(Step(s, LoadPayment(call, loaded.paymentId, loaded.kind, loaded.who), serial), CheckInstruction(call, now), serial)
         == CheckedInstruction(WithCall(s, call, loaded), call, now)
  {
  }

  lemma {:induction false} ListingPasses(s: State, call: CallId, validated: PaymentCall, listed: set<string>, serial: bool)
    requires validated.stage == Validated
    requires ValidListing(s, validated.payment.instructionId, listed) && |ActiveAmong(s, listed)| <= 1
    ensures Step(WithCall(s, call, validated), ListSiblings(call, listed), serial) == WithCall(s, call, validated.(stage := Listed))
  {
    ListingDependsOnPayments(s, WithCall(s, call, validated), validated.payment.instructionId, listed);
  }

  lemma {:induction false} ListingDependsOnPayments(s: State, t: State, id: string, listed: set<string>)
    requires s.payments == t.payments
    ensures Siblings(s, id) == Siblings(t, id) && ActiveAmong(s, listed) == ActiveAmong(t, listed)
    ensures ValidListing(s, id, listed) ==> ValidListing(t, id, listed)
  {
  }

  /** The state once instruction-service has served the USE request. */
  function Used(s: State, call: CallId, id: string, p: string, who: string, now: int): State
    requires id in s.instructions
  {
    var m := UseRequest(call, id, p);
    Operated(s, id, IL.Use(p), who, now).(sent := s.sent + {m}, pending := s.pending - {m}, acks := s.acks + {m})
  }

  lemma {:induction false} ServeUse(s: State, call: CallId, server: CallId, id: string, p: string, who: string, now: int,
                                    serial: bool, c: PaymentCall)
    requires id in s.instructions && s.instructions[id].content.status == IL.APPROVED && server !in s.instructionCalls
    requires c.stage == Listed && c.payment.instructionId == id && c.paymentId == p
    ensures Run(WithCall(s, call, c), UsePart(call, server, id, p, who, now), serial)
         == WithCall(Used(s, call, id, p, who, now), call, c.(stage := Waiting))
  {
    var m := UseRequest(call, id, p);
    RunThree(WithCall(s, call, c), SendUse(call), ReceiveRequest(server, m, who), WriteInstruction(server, now), serial);
    SendStep(s, call, c, m, serial);
    RequestServed(WithCall(Sending(s, m), call, c.(stage := Waiting)), server, m, who, now, serial);
    assert s.pending + {m} - {m} == s.pending - {m};
  }

  lemma {:induction false} SendStep(s: State, call: CallId, c: PaymentCall, m: Message, serial: bool)
    requires c.stage == Listed && m == UseRequest(call, c.payment.instructionId, c.paymentId)
    ensures Step(WithCall(s, call, c), SendUse(call), serial) == WithCall(Sending(s, m), call, c.(stage := Waiting))
  {
    assert s.paymentCalls[call := c][call := c.(stage := Waiting)] == s.paymentCalls[call := c.(stage := Waiting)];
  }

  lemma {:induction false} RequestServed(s: State, server: CallId, m: Message, who: string, now: int, serial: bool)
    requires m in s.pending && m.UseRequest? && m.instructionId in s.instructions && server !in s.instructionCalls
    requires s.instructions[m.instructionId].content.status == IL.APPROVED
    ensures Step(Step(s, ReceiveRequest(server, m, who), serial), WriteInstruction(server, now), serial)
         == Operated(s, m.instructionId, IL.Use(m.paymentId), who, now).(pending := s.pending - {m}, acks := s.acks + {m})
  {
    var received := Step(s, ReceiveRequest(server, m, who), serial);
    assert received.instructionCalls - {server} == s.instructionCalls;
  }

  lemma {:induction false} FinishSubmit(s: State, call: CallId, id: string, p: string, who: string, now: int,
                                        serial: bool, c: PaymentCall)
    requires id in s.instructions && p in s.payments
    requires AtStage(s, call, Waiting) && s.paymentCalls[call] == c && UseRequest(call, id, p) in s.acks
    requires c.payment.instructionId == id && c.paymentId == p && c.kind == KSubmit && c.who == who
    requires c.version == s.payments[p].version
    ensures Run(s, WritePart(call, now), serial)
         == WithoutCall(s, call).(payments := s.payments[p := Current(s.payments[p].version + 1, now,
              PL.Submitted(c.payment.(instructionVersion := s.instructions[id].version), who, now))])
  {
    RunThree(s, ReceiveAck(call), RereadInstruction(call), WritePayment(call, now), serial);
    var acked := Step(s, ReceiveAck(call), serial);
    var ready := Step(acked, RereadInstruction(call), serial);
    assert ready.paymentCalls[call].stage == Ready;
  }

  /** Where a submit stands right after USE: instruction USED, payment still DRAFT. */
  function WaitingForReply(s: State, call: CallId, id: string, p: string, who: string, now: int): State
    requires id in s.instructions && p in s.payments
  {
    WithCall(Used(s, call, id, p, who, now), call, PaymentCall(KSubmit, p, s.payments[p].version,
      s.payments[p].content.(instructionVersion := s.instructions[id].version), who, Waiting))
  }

  lemma {:induction false} SubmitReachesWaiting(s: State, call: CallId, server: CallId, id: string, p: string, listed: set<string>,
                                                who: string, now: int, serial: bool)
    requires CanSubmit(s, call, server, id, p, listed, now)
    ensures Run(s, CheckPart(call, p, listed, who, now) + UsePart(call, server, id, p, who, now), serial)
         == WaitingForReply(s, call, id, p, who, now)
  {
    var c := PaymentCall(KSubmit, p, s.payments[p].version,
      s.payments[p].content.(instructionVersion := s.instructions[id].version), who, Listed);
    RunConcat(s, CheckPart(call, p, listed, who, now), UsePart(call, server, id, p, who, now), serial);
    SubmitReachesListed(s, call, server, id, p, listed, who, now, serial);
    ServeUse(s, call, server, id, p, who, now, serial, c);
  }

  /** A submit that stops there: a crash, or a reply that never arrives. */
  lemma {:induction false} SubmitStopsAfterUse(s: State, call: CallId, server: CallId, id: string, p: string, listed: set<string>,
                                               who: string, now: int)
    requires CanSubmit(s, call, server, id, p, listed, now)
    ensures Run(s, CheckPart(call, p, listed, who, now) + UsePart(call, server, id, p, who, now) + [DropPaymentCall(call)], true)
         == Used(s, call, id, p, who, now)
  {
    SubmitReachesWaiting(s, call, server, id, p, listed, who, now, true);
    RunConcat(s, CheckPart(call, p, listed, who, now) + UsePart(call, server, id, p, who, now), [DropPaymentCall(call)], true);
    DropEndsCall(Used(s, call, id, p, who, now), call, WaitingForReply(s, call, id, p, who, now).paymentCalls[call]);
  }

  lemma {:induction false} DropEndsCall(s: State, call: CallId, c: PaymentCall)
    requires call !in s.paymentCalls
    ensures Run(WithCall(s, call, c), [DropPaymentCall(call)], true) == s
  {
    RunCons(WithCall(s, call, c), DropPaymentCall(call), [], true);
    assert [DropPaymentCall(call)] == [DropPaymentCall(call)] + [];
    assert WithCall(s, call, c).paymentCalls - {call} == s.paymentCalls;
  }

  lemma {:induction false} WaitingFinishes(s: State, call: CallId, id: string, p: string, who: string, now: int, serial: bool)
    requires id in s.instructions && p in s.payments && call !in s.paymentCalls && s.payments[p].content.instructionId == id
    ensures Run(WaitingForReply(s, call, id, p, who, now), WritePart(call, now), serial) == AfterSubmit(s, call, id, p, who, now)
  {
    var waiting := WaitingForReply(s, call, id, p, who, now);
    FinishSubmit(waiting, call, id, p, who, now, serial, waiting.paymentCalls[call]);
    assert waiting.paymentCalls - {call} == s.paymentCalls;
  }

  /** Left alone, the saga succeeds. */
  lemma {:induction false} SubmitSucceeds(s: State, call: CallId, server: CallId, id: string, p: string, listed: set<string>,
                                          who: string, now: int, serial: bool)
    requires CanSubmit(s, call, server, id, p, listed, now)
    ensures Run(s, SubmitScript(call, server, id, p, listed, who, now), serial)
         == AfterSubmit(s, call, id, p, who, now)
  {
    SubmitReachesWaiting(s, call, server, id, p, listed, who, now, serial);
    RunConcat(s, CheckPart(call, p, listed, who, now) + UsePart(call, server, id, p, who, now),
              WritePart(call, now), serial);
    WaitingFinishes(s, call, id, p, who, now, serial);
  }

  // ----- The uninterrupted approval ----------------------------------------------------------

  function ApproveScript(call: CallId, p: string, who: string, now: int): seq<Action> {
    [LoadPayment(call, p, KApprove, who), CheckInstruction(call, now), WritePayment(call, now)]
  }

  /** Approve either approves or, when the check fails, cancels the payment as the system. */
  function AfterApprove(s: State, p: string, who: string, now: int): State
    requires p in s.payments && s.payments[p].content.instructionId in s.instructions
  {
    var payment := s.payments[p].content;
    var invalid := PL.CheckForApproval(payment, View(s.instructions[payment.instructionId]), now);
    if invalid.None?
    then s.(payments := s.payments[p := Current(s.payments[p].version + 1, now, PL.Approved(payment, who, now))])
    else s.(payments := s.payments[p := Current(s.payments[p].version + 1, now,
                                                PL.Cancelled(payment, Some("invalid at approval"), who, now))],
            systemCancelled := s.systemCancelled + {p})
  }

  lemma {:induction false} ApproveRuns(s: State, call: CallId, p: string, who: string, now: int, serial: bool)
    requires p in s.payments && s.payments[p].content.instructionId in s.instructions
    requires s.payments[p].content.status == PL.SUBMITTED && call !in s.paymentCalls
    requires forall m :: m in s.sent ==> !(m.UseRequest? && m.call == call)
    ensures Run(s, ApproveScript(call, p, who, now), serial) == AfterApprove(s, p, who, now)
  {
    RunThree(s, LoadPayment(call, p, KApprove, who), CheckInstruction(call, now), WritePayment(call, now), serial);
    var loaded := PaymentCall(KApprove, p, s.payments[p].version, s.payments[p].content, who, Loaded);
    LoadThenCheck(s, call, loaded, now, serial);
    var invalid := PL.CheckForApproval(loaded.payment, View(s.instructions[loaded.payment.instructionId]), now);
    ApprovalChecked(s, call, loaded, now, invalid);
    ApprovalWrites(s, call, loaded, now, serial, invalid);
  }

  lemma {:induction false} ApprovalWrites(s: State, call: CallId, loaded: PaymentCall, now: int, serial: bool,
                                          invalid: Option<PL.Invalidity>)
    requires loaded.kind == KApprove && loaded.paymentId in s.payments && loaded.payment == s.payments[loaded.paymentId].content
    requires loaded.version == s.payments[loaded.paymentId].version && call !in s.paymentCalls
    requires loaded.payment.instructionId in s.instructions
    requires invalid == PL.CheckForApproval(loaded.payment, View(s.instructions[loaded.payment.instructionId]), now)
    ensures Step(WithCall(s, call, loaded.(stage := if invalid.Some? then Cancelling(invalid.value) else Ready)), WritePayment(call, now), serial)
         == AfterApprove(s, loaded.paymentId, loaded.who, now)
  {
    WriteEndsCall(s, call, loaded.(stage := if invalid.Some? then Cancelling(invalid.value) else Ready), now, serial);
  }

  lemma {:induction false} ApprovalChecked(s: State, call: CallId, loaded: PaymentCall, now: int, invalid: Option<PL.Invalidity>)
    requires loaded.stage == Loaded && loaded.kind == KApprove && loaded.payment.instructionId in s.instructions
    requires invalid == PL.CheckForApproval(loaded.payment, View(s.instructions[loaded.payment.instructionId]), now)
    ensures CheckedInstruction(WithCall(s, call, loaded), call, now)
         == WithCall(s, call, loaded.(stage := if invalid.Some? then Cancelling(invalid.value) else Ready))
  {
    var checked := loaded.(stage := if invalid.Some? then Cancelling(invalid.value) else Ready);
    assert s.paymentCalls[call := loaded][call := checked] == s.paymentCalls[call := checked];
  }

  /** The write of a call that has nothing left to do afterwards. */
  lemma {:induction false} WriteEndsCall(s: State, call: CallId, ready: PaymentCall, now: int, serial: bool)
    requires call !in s.paymentCalls && ready.paymentId in s.payments && ready.version == s.payments[ready.paymentId].version
    requires ready.stage.Cancelling? || (ready.stage == Ready && !ready.kind.KReject? && !ready.kind.KCancel?)
    ensures Step(WithCall(s, call, ready), WritePayment(call, now), serial)
         == s.(payments := s.payments[ready.paymentId := Current(ready.version + 1, now, Written(ready, now))],
               systemCancelled := if ready.stage.Cancelling? then s.systemCancelled + {ready.paymentId} else s.systemCancelled)
  {
    assert s.paymentCalls[call := ready] - {call} == s.paymentCalls;
  }
}
