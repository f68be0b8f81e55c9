/** For every holder of a SINGLE_USE instruction, whatever its status: can the instruction still be given back? */
module SagaHolders {
  import opened Wrappers
  import opened Saga
  import opened SagaSafety
  import opened SagaTheorems
  import opened SagaRelease
  import opened SagaScripts
  import opened PaymentCalls
  import opened InstructionLog
  import IL = InstructionLifecycle
  import PL = PaymentLifecycle

  // ----- A call sends its USE once ------------------------------------------------------------

  predicate BeforeUse(stage: Stage) { stage == Loaded || stage == Validated || stage == Listed }

  /** Before its USE step no request of the call exists: call ids are never reused after a USE. */
  predicate NotYetSent(s: State, c: CallId) {
    c in s.paymentCalls && BeforeUse(s.paymentCalls[c].stage) ==> forall m :: m in s.sent && m.UseRequest? ==> m.call != c
  }

  ghost predicate CallsSendOnce(s: State) {
    forall c: CallId {:trigger NotYetSent(s, c)} :: NotYetSent(s, c)
  }

  lemma {:induction false} StepKeepsUnsent(s: State, a: Action, c: CallId)
    requires CallsSendOnce(s)
    ensures NotYetSent(Step(s, a, true), c)
  {
    assert NotYetSent(s, c);
    SentOnlyByOwner(s, a, c);
    if !CallStep(a) || a.call != c {
      OtherCallsUntouched(s, a, c);
    } else {
      OwnStageAdvances(s, a);
    }
  }

  /** Only the call's own USE step adds a request of the call. */
  lemma {:induction false} SentOnlyByOwner(s: State, a: Action, c: CallId)
    ensures forall m :: m in Step(s, a, true).sent && m.UseRequest? && m.call == c ==> m in s.sent || (a.SendUse? && a.call == c)
  {
    if a.CheckInstruction? && AtStage(s, a.call, Loaded) { CheckTouchesCallsOnly(s, a.call, a.now); }
  }

  /** A call is before its USE step only if it was, and has not just taken it, or has just been loaded. */
  lemma {:induction false} OwnStageAdvances(s: State, a: Action)
    requires CallStep(a)
    ensures var after := Step(s, a, true);
      a.call in after.paymentCalls && BeforeUse(after.paymentCalls[a.call].stage) ==>
        (a.call in s.paymentCalls && BeforeUse(s.paymentCalls[a.call].stage) && (a.SendUse? ==> after == s))
        || (a.LoadPayment? && forall m :: m in s.sent && m.UseRequest? ==> m.call != a.call)
  {
  }

  lemma {:induction false} RunKeepsUnsent(s: State, actions: seq<Action>)
    requires CallsSendOnce(s)
    ensures CallsSendOnce(Run(s, actions, true))
    decreases |actions|
  {
    if actions != [] {
      forall c: CallId ensures NotYetSent(Step(s, actions[0], true), c) { StepKeepsUnsent(s, actions[0], c); }
      RunKeepsUnsent(Step(s, actions[0], true), actions[1..]);
    }
  }

  // ----- A DRAFT holder ------------------------------------------------------------------------

  /** A submit whose USE has been acknowledged, or will be when it looks, and whose copy is still current. */
  predicate CanStillSubmit(s: State, c: CallId, p: string) {
    && c in s.paymentCalls && s.paymentCalls[c].kind == KSubmit && s.paymentCalls[c].paymentId == p && Fresh(s, s.paymentCalls[c])
    && (s.paymentCalls[c].stage == Ready || s.paymentCalls[c].stage == Marked
        || (s.paymentCalls[c].stage == Waiting && UseRequest(c, s.paymentCalls[c].payment.instructionId, p) in s.acks))
  }

  /** The instruction is USED by a DRAFT, and no submit in flight can finish. */
  ghost predicate HeldByDraft(s: State, id: string, p: string) {
    && Inv(s) && CallsSendOnce(s) && IsSingleUse(s, id) && HeldBy(s, id, p) && SingleUseSnapshot(s, id, p)
    && s.payments[p].content.status == PL.DRAFT && forall c | c in s.paymentCalls :: !CanStillSubmit(s, c, p)
  }

  lemma {:induction false} LiveHolderIsNotWritten(s: State, a: Action, id: string, p: string)
    requires Inv(s) && IsSingleUse(s, id) && HeldBy(s, id, p) && Live(s, p)
    ensures !WritesInstruction(s, a, true, id)
  {
    forall m | m in s.sent ensures SentOk(s, m) {}
    if WritesInstruction(s, a, true, id) { OnlyReleaseWrites(s, a, id, p); }
  }

  /** The draft stays as it is, is updated, or is cancelled; a submit that writes it could have finished before. */
  lemma {:induction false} DraftRowAfter(s: State, a: Action, id: string, p: string)
    requires HeldByDraft(s, id, p)
    ensures var after := Step(s, a, true);
      && p in after.payments && after.payments[p].content.submittedAt.None?
      && (after.payments[p].content.status == PL.DRAFT || after.payments[p].content.status == PL.CANCELLED)
      && (after.payments[p] == s.payments[p] || after.payments[p].version == s.payments[p].version + 1)
  {
    assert PaymentOk(s, p);
    if a.WritePayment? {
      if CanWritePayment(s, a.call, true) {
        WrittenKeeps(s, a.call, a.now);
        assert !CanStillSubmit(s, a.call, p);
      }
    } else if !a.InsertPayment? {
      PaymentsUntouched(s, a);
    }
  }

  /** While the draft holds its instruction no call comes to be able to submit it. */
  lemma {:induction false} NoNewSubmit(s: State, a: Action, id: string, p: string, c: CallId)
    requires HeldByDraft(s, id, p) && !WritesInstruction(s, a, true, id)
    requires p in Step(s, a, true).payments && Step(s, a, true).payments[p] == s.payments[p]
    ensures !CanStillSubmit(Step(s, a, true), c, p)
  {
    if c in s.paymentCalls { assert !CanStillSubmit(s, c, p) && PaymentCallOk(s, c, s.paymentCalls[c]) && NotYetSent(s, c); }
    forall m | m in s.acks ensures AckOk(s, m) {}
    AcksOnlyByUse(s, a, id);
    if !CallStep(a) || a.call != c {
      OtherCallsUntouched(s, a, c);
    } else if a.CheckInstruction? {
      if AtStage(s, c, Loaded) { CheckSubmitsNothing(s, c, a.now, id, p); }
    } else {
      OwnStepSubmits(s, a, p);
    }
  }

  lemma {:induction false} AcksOnlyByUse(s: State, a: Action, id: string)
    requires Inv(s) && !WritesInstruction(s, a, true, id)
    ensures forall m :: m in Step(s, a, true).acks && m.instructionId == id ==> m in s.acks
  {
    if a.WriteInstruction? && CanWriteInstruction(s, a.call, true) {
      assert InstructionCallOk(s, s.instructionCalls[a.call]);
    } else if a.CheckInstruction? && AtStage(s, a.call, Loaded) {
      CheckTouchesCallsOnly(s, a.call, a.now);
    }
  }

  /** A SINGLE_USE submit is not ready after the check: it has yet to send USE. */
  lemma {:induction false} CheckSubmitsNothing(s: State, call: CallId, now: int, id: string, p: string)
    requires AtStage(s, call, Loaded) && SingleUseSnapshot(s, id, p) && PaymentCallOk(s, call, s.paymentCalls[call])
    ensures !CanStillSubmit(CheckedInstruction(s, call, now), call, p)
  {
  }

  lemma {:induction false} OwnStepSubmits(s: State, a: Action, p: string)
    requires CallStep(a) && !a.CheckInstruction? && !CanStillSubmit(s, a.call, p)
    requires a.SendUse? && AtStage(s, a.call, Listed) ==> forall m :: m in s.acks && m.UseRequest? ==> m.call != a.call
    requires p in s.payments && p in Step(s, a, true).payments && Step(s, a, true).payments[p] == s.payments[p]
    ensures !CanStillSubmit(Step(s, a, true), a.call, p)
  {
  }

  lemma {:induction false} HeldByDraftStep(s: State, a: Action, id: string, p: string)
    requires HeldByDraft(s, id, p)
    ensures var after := Step(s, a, true);
      && id in after.instructions && after.instructions[id] == s.instructions[id]
      && (HeldByDraft(after, id, p) || Stranded(after, id, p))
  {
    var after := Step(s, a, true);
    StepKeepsInv(s, a);
    forall c: CallId ensures NotYetSent(after, c) { StepKeepsUnsent(s, a, c); }
    LiveHolderIsNotWritten(s, a, id, p);
    InstructionRowAfter(s, a, true, id);
    SnapshotStays(s, a, id, p);
    DraftRowAfter(s, a, id, p);
    if after.payments[p].content.status == PL.CANCELLED {
      NothingIsDue(after, id, p);
    } else {
      forall c | c in after.paymentCalls
        ensures !CanStillSubmit(after, c, p)
      {
        if after.payments[p] == s.payments[p] { NoNewSubmit(s, a, id, p, c); } else { StaleAfterUpdate(s, a, p, c); }
      }
    }
  }

  /** A call read its payment before the row was replaced. */
  lemma {:induction false} StaleAfterUpdate(s: State, a: Action, p: string, c: CallId)
    requires Inv(s) && p in s.payments && p in Step(s, a, true).payments && c in Step(s, a, true).paymentCalls
    requires Step(s, a, true).payments[p].version == s.payments[p].version + 1
    ensures !CanStillSubmit(Step(s, a, true), c, p)
  {
    if a.WritePayment? && CanWritePayment(s, a.call, true) {
      if c in s.paymentCalls { assert PaymentCallOk(s, c, s.paymentCalls[c]); }
    } else if !a.InsertPayment? && !a.WritePayment? {
      PaymentsUntouched(s, a);
    }
  }

  lemma {:induction false} HeldByDraftRun(s: State, more: seq<Action>, id: string, p: string)
    requires HeldByDraft(s, id, p)
    ensures HeldBy(Run(s, more, true), id, p)
    decreases |more|
  {
    if more != [] {
      var after := Step(s, more[0], true);
      HeldByDraftStep(s, more[0], id, p);
      if HeldByDraft(after, id, p) { HeldByDraftRun(after, more[1..], id, p); } else { StrandedRun(after, more[1..], id, p); }
    }
  }

  // ----- A holder that is or can become SUBMITTED ---------------------------------------------------

  lemma {:induction false} AboveAll(used: set<nat>) returns (n: nat)
    ensures forall x :: x in used ==> x < n
    decreases used
  {
    if used == {} {
      n := 0;
    } else {
      var x :| x in used;
      var m := AboveAll(used - {x});
      n := if x < m then m else x + 1;
      assert forall y :: y in used ==> y == x || y in used - {x};
    }
  }

  lemma {:induction false} UnusedCall(s: State) returns (call: CallId)
    ensures FreshCall(s, call)
  {
    var used := s.paymentCalls.Keys + s.drafts.Keys + (set m | m in s.sent && m.UseRequest? :: m.call);
    call := AboveAll(used);
    forall m | m in s.sent && m.UseRequest?
      ensures m.call != call
    {
      assert m.call in used;
    }
  }

  /** Its holder can still be rejected, and the release served. */
  lemma {:induction false} SubmittedCanGiveBack(s: State, id: string, p: string) returns (more: seq<Action>)
    requires Inv(s) && IsSingleUse(s, id) && HeldBy(s, id, p) && SingleUseSnapshot(s, id, p)
    requires s.payments[p].content.status == PL.SUBMITTED
    ensures !HeldBy(Run(s, more, true), id, p)
  {
    assert PaymentOk(s, p);
    var call := UnusedCall(s);
    var end := [LoadPayment(call, p, KReject(""), ""), CheckInstruction(call, 0), WritePayment(call, 0)] + [SendRelease(call)];
    EndCallRuns(s, call, p, KReject(""), "", 0);
    var rest := PendingReleaseCanArrive(Run(s, end, true), id, p);
    RunConcat(s, end, rest, true);
    more := end + rest;
  }

  /** The calls of a submit still to come after USE. */
  function StepsLeft(stage: Stage): nat { if stage == Waiting then 2 else if stage == Marked then 1 else 0 }

  function NextStep(s: State, c: CallId): Action
    requires c in s.paymentCalls
  {
    var stage := s.paymentCalls[c].stage;
    if stage == Waiting then ReceiveAck(c) else if stage == Marked then RereadInstruction(c) else WritePayment(c, 0)
  }

  lemma {:induction false} ReplyAdvances(s: State, c: CallId, id: string, p: string)
    requires SingleUseSnapshot(s, id, p) && CanStillSubmit(s, c, p) && PaymentCallOk(s, c, s.paymentCalls[c])
    requires s.paymentCalls[c].stage != Ready
    ensures var after := Step(s, NextStep(s, c), true);
      && after.instructions == s.instructions && CanStillSubmit(after, c, p)
      && StepsLeft(after.paymentCalls[c].stage) < StepsLeft(s.paymentCalls[c].stage)
  {
  }

  lemma {:induction false} WriteSubmits(s: State, c: CallId, p: string)
    requires p in s.payments && CanStillSubmit(s, c, p) && s.paymentCalls[c].stage == Ready
    ensures var after := Step(s, WritePayment(c, 0), true);
      after.instructions == s.instructions && p in after.payments && after.payments[p].content.status == PL.SUBMITTED
  {
  }

  lemma {:induction false} SubmitFinishes(s: State, c: CallId, id: string, p: string) returns (more: seq<Action>)
    requires Inv(s) && IsSingleUse(s, id) && HeldBy(s, id, p) && SingleUseSnapshot(s, id, p) && CanStillSubmit(s, c, p)
    ensures var end := Run(s, more, true);
      && Inv(end) && IsSingleUse(end, id) && HeldBy(end, id, p) && SingleUseSnapshot(end, id, p)
      && end.payments[p].content.status == PL.SUBMITTED
    decreases StepsLeft(s.paymentCalls[c].stage)
  {
    var a := NextStep(s, c);
    StepKeepsInv(s, a);
    SnapshotStays(s, a, id, p);
    var rest := [];
    if s.paymentCalls[c].stage == Ready {
      WriteSubmits(s, c, p);
    } else {
      assert PaymentCallOk(s, c, s.paymentCalls[c]);
      ReplyAdvances(s, c, id, p);
      rest := SubmitFinishes(Step(s, a, true), c, id, p);
    }
    RunCons(s, a, rest, true);
    more := [a] + rest;
  }

  /** Both ways a user can end a SUBMITTED payment; the script reads, checks, writes, and asks for the release once. */
  function EndScript(call: CallId, p: string, kind: Kind, who: string, now: int): seq<Action> {
    [LoadPayment(call, p, kind, who), CheckInstruction(call, now), WritePayment(call, now)] + [SendRelease(call)]
  }

  function ServeScript(server: CallId, id: string, p: string, who: string, now: int): seq<Action> {
    [ReceiveRequest(server, ReleaseRequest(id, p), who), WriteInstruction(server, now)]
  }

  /**
   What a user's reject or cancel of a SUBMITTED holder is for: the payment ends REJECTED or
   CANCELLED, and once the request is served the instruction is APPROVED again, free, and unused.
   */
  lemma {:induction false} EndingGivesBack(s: State, id: string, p: string, kind: Kind, call: CallId, server: CallId, who: string, now: int)
    requires Reachable(s) && IsSingleUse(s, id) && HeldBy(s, id, p)
    requires p in s.payments && s.payments[p].content.status == PL.SUBMITTED
    requires FreshCall(s, call) && server !in s.instructionCalls && (kind.KReject? || kind.KCancel?)
    ensures var end := Run(s, EndScript(call, p, kind, who, now) + ServeScript(server, id, p, who, now), true);
      && p in end.payments && end.payments[p].version == s.payments[p].version + 1
      && end.payments[p].content.status == (if kind.KReject? then PL.REJECTED else PL.CANCELLED)
      && id in end.instructions && end.instructions[id].version == s.instructions[id].version + 1
      && end.instructions[id].content.status == IL.APPROVED && end.instructions[id].content.usedBy == None
      && s.instructions[id].content.usageCount == 1 && end.instructions[id].content.usageCount == 0
      && end.instructions[id].content.route == s.instructions[id].content.route
      && ReleaseRequest(id, p) !in end.pending
  {
    ReachableInv(s);
    HolderBelongs(s, id, p);
    HeldIsUsedOnce(s, id, p);
    assert PaymentOk(s, p);
    EndCallRuns(s, call, p, kind, who, now);
    ReleaseRuns(Run(s, EndScript(call, p, kind, who, now), true), server, id, p, who, now);
    RunConcat(s, EndScript(call, p, kind, who, now), ServeScript(server, id, p, who, now), true);
  }

  // ----- Exactly when ---------------------------------------------------------------------------------

  /** What a caller can look up about the holder and the calls in flight. */
  predicate HolderCanRelease(s: State, id: string, p: string)
    requires p in s.payments
  {
    match s.payments[p].content.status
    case DRAFT => exists c | c in s.paymentCalls :: CanStillSubmit(s, c, p)
    case SUBMITTED => true
    case APPROVED => false
    case REJECTED => CanStillRelease(s, id, p)
    case CANCELLED => CanStillRelease(s, id, p)
  }

  /**
   Exactly when a USED instruction can be given back, for every holder. A DRAFT gives it back only
   while the submit that used it can still finish, a SUBMITTED payment always can, an APPROVED one
   never, and one that has ended only while its one release is due, on its way or being served.
   */
  lemma {:induction false} HolderReleasableIff(s: State, id: string, p: string)
    requires Reachable(s) && IsSingleUse(s, id) && HeldBy(s, id, p)
    ensures p in s.payments && (CanBeReleased(s, id, p) <==> HolderCanRelease(s, id, p))
  {
    ReachableInv(s);
    HolderBelongs(s, id, p);
    match s.payments[p].content.status
    case DRAFT => DraftReleasableIff(s, id, p);
    case SUBMITTED =>
      var more := SubmittedCanGiveBack(s, id, p);
      assert !HeldBy(Run(s, more, true), id, p);
    case APPROVED =>
      forall more ensures HeldBy(Run(s, more, true), id, p) { SettledForever(s, more, id, p); }
    case REJECTED => ReleasableIff(s, id, p);
    case CANCELLED => ReleasableIff(s, id, p);
  }

  lemma {:induction false} DraftReleasableIff(s: State, id: string, p: string)
    requires Reachable(s) && IsSingleUse(s, id) && HeldBy(s, id, p) && SingleUseSnapshot(s, id, p)
    requires s.payments[p].content.status == PL.DRAFT
    ensures CanBeReleased(s, id, p) <==> exists c | c in s.paymentCalls :: CanStillSubmit(s, c, p)
  {
    ReachableInv(s);
    if c :| c in s.paymentCalls && CanStillSubmit(s, c, p) {
      var finish := SubmitFinishes(s, c, id, p);
      var rest := SubmittedCanGiveBack(Run(s, finish, true), id, p);
      RunConcat(s, finish, rest, true);
      assert !HeldBy(Run(s, finish + rest, true), id, p);
    } else {
      var actions :| s == Run(START, actions, true);
      RunKeepsUnsent(START, actions);
      forall more ensures HeldBy(Run(s, more, true), id, p) { HeldByDraftRun(s, more, id, p); }
    }
  }
}
