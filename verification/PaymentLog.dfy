/** What a payment's event log says about the payment, over all serial runs of the saga. */
module PaymentLog {
  import opened Wrappers
  import opened Saga
  import opened SagaSafety
  import opened SagaTheorems
  import PL = PaymentLifecycle

  /** The documented payment lifecycle; None where no such step exists. */
  function NextStatus(from: Option<PL.PaymentStatus>, action: PL.PaymentAction): Option<PL.PaymentStatus> {
    match (from, action)
    case (None, CREATE) => Some(PL.DRAFT)
    case (Some(DRAFT), UPDATE) => Some(PL.DRAFT)
    case (Some(DRAFT), SUBMIT) => Some(PL.SUBMITTED)
    case (Some(DRAFT), CANCEL) => Some(PL.CANCELLED)
    case (Some(SUBMITTED), APPROVE) => Some(PL.APPROVED)
    case (Some(SUBMITTED), REJECT) => Some(PL.REJECTED)
    case (Some(SUBMITTED), CANCEL) => Some(PL.CANCELLED)
    case _ => None
  }

  function Replay(log: seq<PL.PaymentEvent>): Option<PL.PaymentStatus> {
    if log == [] then None
    else
      var front := log[..|log| - 1];
      if front != [] && Replay(front).None? then None else NextStatus(Replay(front), log[|log| - 1].action)
  }

  function LastActor(log: seq<PL.PaymentEvent>, action: PL.PaymentAction): Option<string> {
    if log == [] then None
    else if log[|log| - 1].action == action then Some(log[|log| - 1].actor)
    else LastActor(log[..|log| - 1], action)
  }

  /**
   The first entry is the one Payment.create writes, and the service repeats it; after it, version n
   carries n entries, which replay to the status and name whoever submitted, approved, rejected or
   cancelled.
   */
  ghost predicate AgreesWithLog(p: PL.Payment, version: nat) {
    |p.lifecycleEvents| == version + 1 >= 2
    && var log := p.lifecycleEvents[1..];
       && Replay(log) == Some(p.status)
       && p.createdBy == p.lifecycleEvents[0].actor && log[0] == p.lifecycleEvents[0]
       && p.submittedBy == LastActor(log, PL.SUBMIT) && (p.submittedBy.Some? <==> p.submittedAt.Some?)
       && p.approvedBy == LastActor(log, PL.APPROVE) && (p.approvedBy.Some? <==> p.approvedAt.Some?)
       && p.rejectedBy == LastActor(log, PL.REJECT) && (p.rejectedBy.Some? <==> p.rejectedAt.Some?)
       && p.cancelledBy == LastActor(log, PL.CANCEL) && (p.cancelledBy.Some? <==> p.cancelledAt.Some?)
  }

  lemma {:induction false} LogGrows(log: seq<PL.PaymentEvent>, e: PL.PaymentEvent)
    requires log != [] && Replay(log).Some?
    ensures Replay(log + [e]) == NextStatus(Replay(log), e.action)
    ensures forall action :: LastActor(log + [e], action) == if e.action == action then Some(e.actor) else LastActor(log, action)
  {
    assert (log + [e])[..|log|] == log;
  }

  lemma {:induction false} NewAgrees(instructionId: string, view: PL.InstructionView, amount: int, valueDate: string, who: string, now: int)
    ensures AgreesWithLog(PL.NewPayment(instructionId, view, amount, valueDate, who, now), 1)
  {
    var log := PL.NewPayment(instructionId, view, amount, valueDate, who, now).lifecycleEvents[1..];
    assert log == [PL.PaymentEvent(PL.CREATE, who, None)] && log[..0] == [];
  }

  lemma {:induction false} TailGrows(events: seq<PL.PaymentEvent>, e: PL.PaymentEvent)
    requires events != []
    ensures (events + [e])[1..] == events[1..] + [e] && (events + [e])[..|events|] == events
  {
  }

  /** One more entry on an agreeing payment: what the longer log says. */
  lemma {:induction false} LogAfter(p: PL.Payment, version: nat, e: PL.PaymentEvent)
    requires AgreesWithLog(p, version)
    ensures var log, longer := p.lifecycleEvents[1..], (p.lifecycleEvents + [e])[1..];
      && Replay(longer) == NextStatus(Some(p.status), e.action)
      && forall action :: LastActor(longer, action) == if e.action == action then Some(e.actor) else LastActor(log, action)
  {
    TailGrows(p.lifecycleEvents, e);
    LogGrows(p.lifecycleEvents[1..], e);
  }

  lemma {:induction false} UpdatedAgrees(p: PL.Payment, version: nat, amount: int, valueDate: string, who: string, now: int)
    requires AgreesWithLog(p, version) && p.status == PL.DRAFT
    ensures AgreesWithLog(PL.Updated(p, amount, valueDate, who, now), version + 1)
  {
    LogAfter(p, version, PL.PaymentEvent(PL.UPDATE, who, None));
  }

  lemma {:induction false} SubmittedAgrees(p: PL.Payment, version: nat, who: string, now: int)
    requires AgreesWithLog(p, version) && p.status == PL.DRAFT
    ensures AgreesWithLog(PL.Submitted(p, who, now), version + 1)
  {
    LogAfter(p, version, PL.PaymentEvent(PL.SUBMIT, who, None));
  }

  lemma {:induction false} ApprovedAgrees(p: PL.Payment, version: nat, who: string, now: int)
    requires AgreesWithLog(p, version) && p.status == PL.SUBMITTED
    ensures AgreesWithLog(PL.Approved(p, who, now), version + 1)
  {
    LogAfter(p, version, PL.PaymentEvent(PL.APPROVE, who, None));
  }

  lemma {:induction false} RejectedAgrees(p: PL.Payment, version: nat, reason: string, who: string, now: int)
    requires AgreesWithLog(p, version) && p.status == PL.SUBMITTED
    ensures AgreesWithLog(PL.Rejected(p, reason, who, now), version + 1)
  {
    LogAfter(p, version, PL.PaymentEvent(PL.REJECT, who, Some(reason)));
  }

  lemma {:induction false} CancelledAgrees(p: PL.Payment, version: nat, why: Option<string>, who: string, now: int)
    requires AgreesWithLog(p, version) && (p.status == PL.DRAFT || p.status == PL.SUBMITTED)
    ensures AgreesWithLog(PL.Cancelled(p, why, who, now), version + 1)
  {
    LogAfter(p, version, PL.PaymentEvent(PL.CANCEL, who, why));
  }

  /** Every write extends the log by one entry and keeps payment and log in agreement. */
  lemma {:induction false} WrittenAgrees(c: PaymentCall, now: int, version: nat)
    requires AgreesWithLog(c.payment, version) && Accepts(c.kind, c.payment.status)
    requires c.stage.Cancelling? ==> c.kind == KApprove
    ensures AgreesWithLog(Written(c, now), version + 1)
    ensures Written(c, now).lifecycleEvents[..version + 1] == c.payment.lifecycleEvents
  {
    if c.stage.Cancelling? {
      CancelledAgrees(c.payment, version, Some("invalid at approval"), c.who, now);
    } else {
      match c.kind
      case KUpdate(amount, valueDate) => UpdatedAgrees(c.payment, version, amount, valueDate, c.who, now);
      case KSubmit => SubmittedAgrees(c.payment, version, c.who, now);
      case KApprove => ApprovedAgrees(c.payment, version, c.who, now);
      case KReject(reason) => RejectedAgrees(c.payment, version, reason, c.who, now);
      case KCancel(why) => CancelledAgrees(c.payment, version, why, c.who, now);
    }
  }

  lemma {:induction false} RecordedVersionIrrelevant(p: PL.Payment, version: nat, recorded: nat)
    requires AgreesWithLog(p, version)
    ensures AgreesWithLog(p.(instructionVersion := recorded), version)
  {
  }

  ghost predicate PaymentAgrees(s: State, p: string) {
    p in s.payments ==> AgreesWithLog(s.payments[p].content, s.payments[p].version)
  }

  ghost predicate DraftAgrees(s: State, c: CallId) {
    c in s.drafts ==> AgreesWithLog(s.drafts[c], 1)
  }

  ghost predicate LogsAgree(s: State) {
    && (forall p: string {:trigger PaymentAgrees(s, p)} :: PaymentAgrees(s, p))
    && (forall c: CallId {:trigger DraftAgrees(s, c)} :: DraftAgrees(s, c))
  }

  lemma {:induction false} DraftsUntouched(s: State, a: Action)
    requires !a.DraftPayment?
    ensures forall c :: c in Step(s, a, true).drafts ==> c in s.drafts && Step(s, a, true).drafts[c] == s.drafts[c]
  {
    if a.CheckInstruction? && AtStage(s, a.call, Loaded) { CheckTouchesCallsOnly(s, a.call, a.now); }
  }

  lemma {:induction false} StepKeepsPayments(s: State, a: Action, p: string)
    requires Inv(s) && LogsAgree(s)
    ensures PaymentAgrees(Step(s, a, true), p)
  {
    assert PaymentAgrees(s, p);
    if a.WritePayment? {
      if CanWritePayment(s, a.call, true) { WriteKeepsLogs(s, a.call, a.now, p); }
    } else if a.InsertPayment? {
      assert DraftAgrees(s, a.call);
    } else {
      PaymentsUntouched(s, a);
    }
  }

  lemma {:induction false} StepKeepsDrafts(s: State, a: Action, c: CallId)
    requires LogsAgree(s)
    ensures DraftAgrees(Step(s, a, true), c)
  {
    assert DraftAgrees(s, c);
    if a.DraftPayment? {
      if a.instructionId in s.instructions {
        NewAgrees(a.instructionId, View(s.instructions[a.instructionId]), a.amount, a.valueDate, a.who, a.now);
      }
    } else {
      DraftsUntouched(s, a);
    }
  }

  lemma {:induction false} StepKeepsLogs(s: State, a: Action)
    requires Inv(s) && LogsAgree(s)
    ensures LogsAgree(Step(s, a, true))
  {
    forall p: string ensures PaymentAgrees(Step(s, a, true), p) { StepKeepsPayments(s, a, p); }
    forall c: CallId ensures DraftAgrees(Step(s, a, true), c) { StepKeepsDrafts(s, a, c); }
  }

  /** What a serial write writes: the current payment, its recorded version aside, advanced by an accepted operation. */
  lemma {:induction false} SerialWrite(s: State, call: CallId, now: int)
    requires Inv(s) && CanWritePayment(s, call, true)
    ensures var c := s.paymentCalls[call];
      && c.payment == s.payments[c.paymentId].content.(instructionVersion := c.payment.instructionVersion)
      && Accepts(c.kind, c.payment.status) && (c.stage.Cancelling? ==> c.kind == KApprove)
      && WrotePayment(s, call, now).payments
         == s.payments[c.paymentId := Current(s.payments[c.paymentId].version + 1, now, Written(c, now))]
  {
    assert PaymentCallOk(s, call, s.paymentCalls[call]);
  }

  lemma {:induction false} WriteKeepsLogs(s: State, call: CallId, now: int, p: string)
    requires Inv(s) && CanWritePayment(s, call, true) && PaymentAgrees(s, p)
    ensures PaymentAgrees(WrotePayment(s, call, now), p)
  {
    var c := s.paymentCalls[call];
    SerialWrite(s, call, now);
    if c.paymentId == p {
      RecordedVersionIrrelevant(s.payments[p].content, s.payments[p].version, c.payment.instructionVersion);
      WrittenAgrees(c, now, s.payments[p].version);
    }
  }

  /** In every serial run, interleaved as it may be, each payment is what its log says. */
  lemma {:induction false} PaymentLogsReplay(s: State, p: string)
    requires Reachable(s) && p in s.payments
    ensures AgreesWithLog(s.payments[p].content, s.payments[p].version)
  {
    var actions :| s == Run(START, actions, true);
    RunKeepsLogs(START, actions);
    assert PaymentAgrees(s, p);
  }

  lemma {:induction false} RunKeepsLogs(s: State, actions: seq<Action>)
    requires Inv(s) && LogsAgree(s)
    ensures LogsAgree(Run(s, actions, true))
    decreases |actions|
  {
    if actions != [] {
      StepKeepsInv(s, actions[0]);
      StepKeepsLogs(s, actions[0]);
      RunKeepsLogs(Step(s, actions[0], true), actions[1..]);
    }
  }
}
