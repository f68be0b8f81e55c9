/** Safety of the SINGLE_USE saga over every serial run: who holds an instruction, and until when. */
module SagaSafety {
  import opened Wrappers
  import opened Saga
  import IL = InstructionLifecycle
  import PL = PaymentLifecycle

  // ----- The inductive invariant ----------------------------------------------------

  predicate Live(s: State, paymentId: string) {
    paymentId in s.payments && !PL.Terminal(s.payments[paymentId].content.status)
  }

  /** The statuses an instruction can be in once it has been approved. */
  predicate PastApproval(status: IL.Status) {
    status == IL.APPROVED || status == IL.SUSPENDED || status == IL.USED
  }

  predicate IsSingleUse(s: State, instructionId: string) {
    instructionId in s.instructions && s.instructions[instructionId].content.route.instructionType == IL.SINGLE_USE
  }

  predicate HeldBy(s: State, instructionId: string, paymentId: string) {
    && instructionId in s.instructions
    && s.instructions[instructionId].content.status == IL.USED
    && s.instructions[instructionId].content.usedBy == Some(paymentId)
  }

  predicate SingleUseSnapshot(s: State, instructionId: string, paymentId: string) {
    && paymentId in s.payments && instructionId in s.instructions
    && s.payments[paymentId].content.instructionId == instructionId
    && s.payments[paymentId].content.instructionType == IL.SINGLE_USE
  }

  /** An acknowledged USE: while its payment lives, the SINGLE_USE instruction is held for it. */
  predicate AckOk(s: State, m: Message) {
    && m.UseRequest? && m in s.sent
    && SingleUseSnapshot(s, m.instructionId, m.paymentId)
    && PastApproval(s.instructions[m.instructionId].content.status)
    && (Live(s, m.paymentId) && IsSingleUse(s, m.instructionId) ==> HeldBy(s, m.instructionId, m.paymentId))
  }

  /** A RELEASE_USE in flight belongs to a payment a user has rejected or cancelled after submission. */
  predicate SentOk(s: State, m: Message) {
    && SingleUseSnapshot(s, m.instructionId, m.paymentId)
    && (m.ReleaseRequest? ==>
          !Live(s, m.paymentId) && m.paymentId !in s.systemCancelled
          && s.payments[m.paymentId].content.submittedAt.Some?)
  }

  predicate InstructionCallOk(s: State, c: InstructionCall) {
    && c.instructionId in s.instructions
    && c.version <= s.instructions[c.instructionId].version
    && (c.version == s.instructions[c.instructionId].version ==>
          c.instruction == s.instructions[c.instructionId].content)
    && IL.Permits(c.instruction, c.op)
    && (c.request.None? ==> UserOperation(c.op))
    && (c.request.Some? ==>
          c.request.value in s.sent && c.request.value.instructionId == c.instructionId
          && c.op == OperationOf(c.request.value))
  }

  predicate Fresh(s: State, c: PaymentCall) {
    c.paymentId in s.payments && c.version == s.payments[c.paymentId].version
  }

  predicate SubmitsSingleUse(c: PaymentCall) {
    c.kind == KSubmit && c.payment.instructionType == IL.SINGLE_USE && !c.stage.Cancelling?
  }

  predicate PaymentCallOk(s: State, call: CallId, c: PaymentCall) {
    && c.paymentId in s.payments && c.payment.instructionId in s.instructions
    && c.version <= s.payments[c.paymentId].version
    && s.payments[c.paymentId].content.instructionId == c.payment.instructionId
    && s.payments[c.paymentId].content.instructionType == c.payment.instructionType
    && (c.stage != Persisted ==> Accepts(c.kind, c.payment.status) && UnwrittenOk(s, call, c))
    && (c.stage == Persisted ==> PersistedOk(s, c))
  }

  /** The local copy is the row read, its instruction version aside. */
  predicate UnwrittenOk(s: State, call: CallId, c: PaymentCall) {
    && (Fresh(s, c) ==> c.payment == s.payments[c.paymentId].content.(instructionVersion := c.payment.instructionVersion))
    && (Fresh(s, c) && !c.kind.KUpdate? && !c.kind.KSubmit? ==> c.payment == s.payments[c.paymentId].content)
    && (c.stage == Validated || c.stage == Listed || c.stage == Waiting || c.stage == Marked ==> SubmitsSingleUse(c))
    && (c.stage.Cancelling? ==> c.kind == KApprove)
    && ((c.stage == Marked || c.stage == Ready) && SubmitsSingleUse(c) ==>
          UseRequest(call, c.payment.instructionId, c.paymentId) in s.acks)
    && (c.stage == Ready && SubmitsSingleUse(c) && Fresh(s, c) && IsSingleUse(s, c.payment.instructionId) ==>
          c.payment.instructionVersion == s.instructions[c.payment.instructionId].version)
  }

  predicate PersistedOk(s: State, c: PaymentCall)
    requires c.paymentId in s.payments
  {
    && (c.kind.KReject? || c.kind.KCancel?)
    && PL.Terminal(c.payment.status) && !Live(s, c.paymentId) && c.paymentId !in s.systemCancelled
    && c.payment.submittedAt == s.payments[c.paymentId].content.submittedAt
  }

  predicate Acknowledged(s: State, instructionId: string, paymentId: string) {
    exists m :: m in s.acks && m.UseRequest? && m.instructionId == instructionId && m.paymentId == paymentId
  }

  /** A SUBMITTED or APPROVED payment with a SINGLE_USE snapshot went through USE at its recorded version. */
  predicate PaymentOk(s: State, paymentId: string)
    requires paymentId in s.payments
  {
    var p := s.payments[paymentId].content;
    && p.instructionId in s.instructions
    && (p.status == PL.DRAFT ==> p.submittedAt.None?)
    && (p.status == PL.SUBMITTED || p.status == PL.APPROVED ==> p.submittedAt.Some?)
    && (paymentId in s.systemCancelled ==> p.status == PL.CANCELLED)
    && ((p.status == PL.SUBMITTED || p.status == PL.APPROVED) && p.instructionType == IL.SINGLE_USE ==>
          Acknowledged(s, p.instructionId, paymentId)
          && (IsSingleUse(s, p.instructionId) ==> p.instructionVersion == s.instructions[p.instructionId].version))
  }

  predicate DraftOk(s: State, p: PL.Payment) {
    p.instructionId in s.instructions && p.status == PL.DRAFT && p.submittedAt.None?
  }

  ghost predicate Inv(s: State) {
    && (forall m {:trigger AckOk(s, m)} :: m in s.acks ==> AckOk(s, m))
    && (forall m {:trigger SentOk(s, m)} :: m in s.sent ==> SentOk(s, m))
    && (forall c {:trigger InstructionCallOk(s, s.instructionCalls[c])} :: c in s.instructionCalls ==>
          InstructionCallOk(s, s.instructionCalls[c]))
    && (forall c {:trigger PaymentCallOk(s, c, s.paymentCalls[c])} :: c in s.paymentCalls ==>
          PaymentCallOk(s, c, s.paymentCalls[c]))
    && (forall c {:trigger DraftOk(s, s.drafts[c])} :: c in s.drafts ==> DraftOk(s, s.drafts[c]))
    && (forall p {:trigger PaymentOk(s, p)} :: p in s.payments ==> PaymentOk(s, p))
    && s.systemCancelled <= s.payments.Keys && s.pending <= s.sent
  }

  // ----- Steps that leave both services' rows alone -----------------------------------

  /** Calls, drafts and messages may change; each that remains or appears must be in order. */
  lemma {:induction false} QuietStepKeepsInv(s: State, after: State)
    requires Inv(s)
    requires after.instructions == s.instructions && after.payments == s.payments
    requires after.systemCancelled == s.systemCancelled && after.acks == s.acks
    requires s.sent <= after.sent && after.pending <= after.sent
    requires forall m :: m in after.sent && m !in s.sent ==> SentOk(s, m)
    requires forall c :: c in after.instructionCalls ==>
      (c in s.instructionCalls && after.instructionCalls[c] == s.instructionCalls[c])
      || InstructionCallOk(s, after.instructionCalls[c])
    requires forall c :: c in after.paymentCalls ==>
      (c in s.paymentCalls && after.paymentCalls[c] == s.paymentCalls[c]) || PaymentCallOk(s, c, after.paymentCalls[c])
    requires forall c :: c in after.drafts ==> (c in s.drafts && after.drafts[c] == s.drafts[c]) || DraftOk(s, after.drafts[c])
    ensures Inv(after)
  {
    forall m | m in after.acks ensures AckOk(after, m) { assert AckOk(s, m); }
    forall m | m in after.sent ensures SentOk(after, m) { assert SentOk(s, m); }
    forall c | c in after.instructionCalls
      ensures InstructionCallOk(after, after.instructionCalls[c])
    {
      assert InstructionCallOk(s, after.instructionCalls[c]);
    }
    forall c | c in after.paymentCalls
      ensures PaymentCallOk(after, c, after.paymentCalls[c])
    {
      assert PaymentCallOk(s, c, after.paymentCalls[c]);
    }
    forall c | c in after.drafts ensures DraftOk(after, after.drafts[c]) { assert DraftOk(s, after.drafts[c]); }
    forall p | p in after.payments ensures PaymentOk(after, p) { assert PaymentOk(s, p); }
  }

  lemma {:induction false} ReadStepsKeepInv(s: State, a: Action, serial: bool)
    requires Inv(s)
    requires a.ReadInstruction? || a.ReceiveRequest? || a.LoseRequest? || a.DropInstructionCall? || a.DraftPayment?
             || a.DropDraft? || a.DropPaymentCall?
    ensures Inv(Step(s, a, serial))
  {
    QuietStepKeepsInv(s, Step(s, a, serial));
  }

  lemma {:induction false} LoadKeepsInv(s: State, call: CallId, paymentId: string, kind: Kind, who: string, serial: bool)
    requires Inv(s)
    ensures Inv(Step(s, LoadPayment(call, paymentId, kind, who), serial))
  {
    if paymentId in s.payments { assert PaymentOk(s, paymentId); }
    QuietStepKeepsInv(s, Step(s, LoadPayment(call, paymentId, kind, who), serial));
  }

  lemma {:induction false} CallChangeKeepsInv(s: State, call: CallId, c: PaymentCall)
    requires Inv(s)
    ensures PaymentCallOk(s, call, c) ==> Inv(WithCall(s, call, c))
    ensures Inv(WithoutCall(s, call))
  {
    if PaymentCallOk(s, call, c) { QuietStepKeepsInv(s, WithCall(s, call, c)); }
    QuietStepKeepsInv(s, WithoutCall(s, call));
  }

  lemma {:induction false} CheckKeepsInv(s: State, call: CallId, now: int, serial: bool)
    requires Inv(s)
    ensures Inv(Step(s, CheckInstruction(call, now), serial))
  {
    if AtStage(s, call, Loaded) {
      assert PaymentCallOk(s, call, s.paymentCalls[call]);
      var after := CheckedInstruction(s, call, now);
      CallChangeKeepsInv(s, call, if call in after.paymentCalls then after.paymentCalls[call] else s.paymentCalls[call]);
    }
  }

  lemma {:induction false} ListingKeepsInv(s: State, call: CallId, listed: set<string>, serial: bool)
    requires Inv(s)
    ensures Inv(Step(s, ListSiblings(call, listed), serial))
  {
    if AtStage(s, call, Validated) {
      assert PaymentCallOk(s, call, s.paymentCalls[call]);
      CallChangeKeepsInv(s, call, s.paymentCalls[call].(stage := Listed));
    }
  }

  lemma {:induction false} SendUseKeepsInv(s: State, call: CallId, serial: bool)
    requires Inv(s)
    ensures Inv(Step(s, SendUse(call), serial))
  {
    if call in s.paymentCalls { assert PaymentCallOk(s, call, s.paymentCalls[call]); }
    QuietStepKeepsInv(s, Step(s, SendUse(call), serial));
  }

  lemma {:induction false} ReplyKeepsInv(s: State, a: Action, serial: bool)
    requires Inv(s) && (a.ReceiveAck? || a.RereadInstruction?)
    ensures Inv(Step(s, a, serial))
  {
    var after := Step(s, a, serial);
    if a.call in s.paymentCalls {
      assert PaymentCallOk(s, a.call, s.paymentCalls[a.call]);
      CallChangeKeepsInv(s, a.call, after.paymentCalls[a.call]);
    }
  }

  lemma {:induction false} SendReleaseKeepsInv(s: State, call: CallId, serial: bool)
    requires Inv(s)
    ensures Inv(Step(s, SendRelease(call), serial))
  {
    if call in s.paymentCalls { assert PaymentCallOk(s, call, s.paymentCalls[call]); }
    QuietStepKeepsInv(s, Step(s, SendRelease(call), serial));
  }

  // ----- Instruction writes ---------------------------------------------------------------

  /** The heart of the proof: a held SINGLE_USE instruction can only be written by its holder's release. */
  lemma {:induction false} HeldInstructionIsNotWritten(s: State, call: CallId, m: Message)
    requires Inv(s) && CanWriteInstruction(s, call, true)
    requires m in s.acks && m.instructionId == s.instructionCalls[call].instructionId
    requires Live(s, m.paymentId)
    ensures !IsSingleUse(s, m.instructionId)
  {
    var c := s.instructionCalls[call];
    assert AckOk(s, m) && InstructionCallOk(s, c);
    if c.request.Some? { assert SentOk(s, c.request.value); }
  }

  lemma {:induction false} CreateKeepsInv(s: State, id: string, route: IL.Route, who: string, now: int, serial: bool)
    requires Inv(s)
    ensures Inv(Step(s, CreateInstruction(id, route, who, now), serial))
  {
    if id !in s.instructions { GrowthKeepsInv(s, id, Current(1, now, IL.NewInstruction(route, who, now))); }
  }

  /** One more instruction changes nothing for the calls, messages and payments there are. */
  lemma {:induction false} GrowthKeepsInv(s: State, id: string, added: Current<IL.Instruction>)
    requires Inv(s) && id !in s.instructions
    ensures Inv(s.(instructions := s.instructions[id := added]))
  {
    var after := s.(instructions := s.instructions[id := added]);
    forall m | m in after.acks ensures AckOk(after, m) { assert AckOk(s, m); }
    forall m | m in after.sent ensures SentOk(after, m) { assert SentOk(s, m); }
    forall c | c in after.instructionCalls
      ensures InstructionCallOk(after, after.instructionCalls[c])
    {
      assert InstructionCallOk(s, s.instructionCalls[c]);
    }
    forall c | c in after.paymentCalls
      ensures PaymentCallOk(after, c, after.paymentCalls[c])
    {
      assert PaymentCallOk(s, c, s.paymentCalls[c]);
    }
    forall c | c in after.drafts ensures DraftOk(after, after.drafts[c]) { assert DraftOk(s, s.drafts[c]); }
    forall p | p in after.payments ensures PaymentOk(after, p) { assert PaymentOk(s, p); }
  }

  lemma {:induction false} WriteKeepsAcks(s: State, call: CallId, now: int, m: Message)
    requires Inv(s) && CanWriteInstruction(s, call, true)
    requires m in WroteInstruction(s, call, now).acks
    ensures AckOk(WroteInstruction(s, call, now), m)
  {
    var c := s.instructionCalls[call];
    assert InstructionCallOk(s, c);
    if m in s.acks {
      assert AckOk(s, m);
      if m.instructionId == c.instructionId && Live(s, m.paymentId) {
        HeldInstructionIsNotWritten(s, call, m);
      }
    } else {
      assert SentOk(s, m);
    }
  }

  lemma {:induction false} WriteKeepsPayments(s: State, call: CallId, now: int, p: string)
    requires Inv(s) && CanWriteInstruction(s, call, true) && p in s.payments
    ensures PaymentOk(WroteInstruction(s, call, now), p)
  {
    var after, c, payment := WroteInstruction(s, call, now), s.instructionCalls[call], s.payments[p].content;
    assert PaymentOk(s, p) && InstructionCallOk(s, c);
    if (payment.status == PL.SUBMITTED || payment.status == PL.APPROVED) && payment.instructionType == IL.SINGLE_USE {
      var m :| m in s.acks && m.UseRequest? && m.instructionId == payment.instructionId && m.paymentId == p;
      assert m in after.acks && AckOk(s, m);
      if payment.instructionId == c.instructionId { HeldInstructionIsNotWritten(s, call, m); }
    }
  }

  lemma {:induction false} WriteKeepsPaymentCalls(s: State, call: CallId, now: int, d: CallId)
    requires Inv(s) && CanWriteInstruction(s, call, true) && d in s.paymentCalls
    ensures PaymentCallOk(WroteInstruction(s, call, now), d, s.paymentCalls[d])
  {
    var c, pc := s.instructionCalls[call], s.paymentCalls[d];
    assert PaymentCallOk(s, d, pc) && InstructionCallOk(s, c);
    if pc.stage == Ready && SubmitsSingleUse(pc) && Fresh(s, pc) && pc.payment.instructionId == c.instructionId {
      var m := UseRequest(d, pc.payment.instructionId, pc.paymentId);
      assert AckOk(s, m);
      HeldInstructionIsNotWritten(s, call, m);
    }
  }

  lemma {:induction false} WriteInstructionKeepsInv(s: State, call: CallId, now: int)
    requires Inv(s) && CanWriteInstruction(s, call, true)
    ensures Inv(WroteInstruction(s, call, now))
  {
    var after := WroteInstruction(s, call, now);
    forall m | m in after.acks ensures AckOk(after, m) { WriteKeepsAcks(s, call, now, m); }
    forall m | m in after.sent ensures SentOk(after, m) { assert SentOk(s, m); }
    forall c | c in after.instructionCalls
      ensures InstructionCallOk(after, after.instructionCalls[c])
    {
      assert InstructionCallOk(s, s.instructionCalls[c]);
    }
    forall c | c in after.paymentCalls
      ensures PaymentCallOk(after, c, after.paymentCalls[c])
    {
      WriteKeepsPaymentCalls(s, call, now, c);
    }
    forall c | c in after.drafts ensures DraftOk(after, after.drafts[c]) { assert DraftOk(s, s.drafts[c]); }
    forall p | p in after.payments ensures PaymentOk(after, p) { WriteKeepsPayments(s, call, now, p); }
  }

  // ----- Payment writes -----------------------------------------------------------------------

  lemma {:induction false} InsertKeepsInv(s: State, call: CallId, paymentId: string, now: int, serial: bool)
    requires Inv(s)
    ensures Inv(Step(s, InsertPayment(call, paymentId, now), serial))
  {
    var after := Step(s, InsertPayment(call, paymentId, now), serial);
    forall m | m in after.acks ensures AckOk(after, m) { assert AckOk(s, m); }
    forall m | m in after.sent ensures SentOk(after, m) { assert SentOk(s, m); }
    forall c | c in after.instructionCalls
      ensures InstructionCallOk(after, after.instructionCalls[c])
    {
      assert InstructionCallOk(s, s.instructionCalls[c]);
    }
    forall c | c in after.paymentCalls
      ensures PaymentCallOk(after, c, after.paymentCalls[c])
    {
      assert PaymentCallOk(s, c, s.paymentCalls[c]);
    }
    forall c | c in after.drafts ensures DraftOk(after, after.drafts[c]) { assert DraftOk(s, s.drafts[c]); }
    forall p | p in after.payments
      ensures PaymentOk(after, p)
    {
      if p in s.payments { assert PaymentOk(s, p); } else { assert DraftOk(s, s.drafts[call]); }
    }
  }

  lemma {:induction false} WrittenPaymentOk(s: State, call: CallId, now: int)
    requires Inv(s) && CanWritePayment(s, call, true)
    ensures PaymentOk(WrotePayment(s, call, now), s.paymentCalls[call].paymentId)
  {
    var c, after := s.paymentCalls[call], WrotePayment(s, call, now);
    assert PaymentCallOk(s, call, c) && PaymentOk(s, c.paymentId);
    var p := after.payments[c.paymentId].content;
    if (p.status == PL.SUBMITTED || p.status == PL.APPROVED) && p.instructionType == IL.SINGLE_USE {
      if c.kind == KSubmit {
        var m := UseRequest(call, p.instructionId, c.paymentId);
        assert m in after.acks;
      }
    }
  }

  /** A call on another payment, or on the same one with a copy that is now stale. */
  lemma {:induction false} OthersSurvivePaymentWrite(s: State, after: State, paymentId: string,
                                                     row: Current<PL.Payment>, d: CallId)
    requires d in s.paymentCalls && PaymentCallOk(s, d, s.paymentCalls[d])
    requires Live(s, paymentId) && paymentId !in s.systemCancelled
    requires row.version == s.payments[paymentId].version + 1
    requires row.content.instructionId == s.payments[paymentId].content.instructionId
    requires row.content.instructionType == s.payments[paymentId].content.instructionType
    requires after.instructions == s.instructions && after.payments == s.payments[paymentId := row]
    requires after.acks == s.acks && after.sent == s.sent && after.systemCancelled <= s.systemCancelled + {paymentId}
    ensures PaymentCallOk(after, d, s.paymentCalls[d])
  {
  }

  /** The write of a call in order: what `Written` may and may not change. */
  lemma {:induction false} WrittenKeeps(s: State, call: CallId, now: int)
    requires Inv(s) && CanWritePayment(s, call, true)
    ensures var c := s.paymentCalls[call];
      && PaymentCallOk(s, call, c) && Live(s, c.paymentId) && c.paymentId !in s.systemCancelled
      && Written(c, now).instructionId == s.payments[c.paymentId].content.instructionId
      && Written(c, now).instructionType == s.payments[c.paymentId].content.instructionType
      && (c.kind.KReject? || c.kind.KCancel? || c.stage.Cancelling? ==>
            Written(c, now).submittedAt == c.payment.submittedAt && PL.Terminal(Written(c, now).status))
  {
    var c := s.paymentCalls[call];
    assert PaymentCallOk(s, call, c) && PaymentOk(s, c.paymentId);
  }

  lemma {:induction false} PaymentWriteKeepsMessages(s: State, call: CallId, now: int)
    requires Inv(s) && CanWritePayment(s, call, true)
    ensures var after := WrotePayment(s, call, now);
      (forall m :: m in after.acks ==> AckOk(after, m)) && (forall m :: m in after.sent ==> SentOk(after, m))
  {
    WrittenKeeps(s, call, now);
    var after := WrotePayment(s, call, now);
    forall m | m in after.acks ensures AckOk(after, m) { assert AckOk(s, m); }
    forall m | m in after.sent ensures SentOk(after, m) { assert SentOk(s, m); }
  }

  lemma {:induction false} PaymentWriteKeepsCalls(s: State, call: CallId, now: int, d: CallId)
    requires Inv(s) && CanWritePayment(s, call, true) && d in WrotePayment(s, call, now).paymentCalls
    ensures var after := WrotePayment(s, call, now); PaymentCallOk(after, d, after.paymentCalls[d])
  {
    WrittenKeeps(s, call, now);
    if d != call {
      var c, after := s.paymentCalls[call], WrotePayment(s, call, now);
      assert PaymentCallOk(s, d, s.paymentCalls[d]);
      OthersSurvivePaymentWrite(s, after, c.paymentId, after.payments[c.paymentId], d);
    }
  }

  lemma {:induction false} WritePaymentKeepsInv(s: State, call: CallId, now: int)
    requires Inv(s) && CanWritePayment(s, call, true)
    ensures Inv(WrotePayment(s, call, now))
  {
    var paymentId, after := s.paymentCalls[call].paymentId, WrotePayment(s, call, now);
    PaymentWriteKeepsMessages(s, call, now);
    forall d | d in after.instructionCalls
      ensures InstructionCallOk(after, after.instructionCalls[d])
    {
      assert InstructionCallOk(s, s.instructionCalls[d]);
    }
    forall d | d in after.paymentCalls
      ensures PaymentCallOk(after, d, after.paymentCalls[d])
    {
      PaymentWriteKeepsCalls(s, call, now, d);
    }
    forall d | d in after.drafts ensures DraftOk(after, after.drafts[d]) { assert DraftOk(s, s.drafts[d]); }
    forall p | p in after.payments
      ensures PaymentOk(after, p)
    {
      if p == paymentId { WrittenPaymentOk(s, call, now); } else { assert PaymentOk(s, p); }
    }
  }

  // ----- Every run -----------------------------------------------------------------------------

  lemma {:induction false} StepKeepsInv(s: State, a: Action)
    requires Inv(s)
    ensures Inv(Step(s, a, true))
  {
    match a
    case CreateInstruction(id, route, who, now) => CreateKeepsInv(s, id, route, who, now, true);
    case WriteInstruction(call, now) =>
      if CanWriteInstruction(s, call, true) { WriteInstructionKeepsInv(s, call, now); }
    case InsertPayment(call, paymentId, now) => InsertKeepsInv(s, call, paymentId, now, true);
    case LoadPayment(call, paymentId, kind, who) => LoadKeepsInv(s, call, paymentId, kind, who, true);
    case CheckInstruction(call, now) => CheckKeepsInv(s, call, now, true);
    case WritePayment(call, now) =>
      if CanWritePayment(s, call, true) { WritePaymentKeepsInv(s, call, now); }
    case ReadInstruction(_, _, _, _) => ReadStepsKeepInv(s, a, true);
    case ReceiveRequest(_, _, _) => ReadStepsKeepInv(s, a, true);
    case LoseRequest(_) => ReadStepsKeepInv(s, a, true);
    case DropInstructionCall(_) => ReadStepsKeepInv(s, a, true);
    case DraftPayment(_, _, _, _, _, _) => ReadStepsKeepInv(s, a, true);
    case DropDraft(_) => ReadStepsKeepInv(s, a, true);
    case DropPaymentCall(_) => ReadStepsKeepInv(s, a, true);
    case ListSiblings(call, listed) => ListingKeepsInv(s, call, listed, true);
    case SendUse(call) => SendUseKeepsInv(s, call, true);
    case ReceiveAck(_) => ReplyKeepsInv(s, a, true);
    case RereadInstruction(_) => ReplyKeepsInv(s, a, true);
    case SendRelease(call) => SendReleaseKeepsInv(s, call, true);
  }

  lemma {:induction false} RunKeepsInv(s: State, actions: seq<Action>)
    requires Inv(s)
    ensures Inv(Run(s, actions, true))
    decreases |actions|
  {
    if actions != [] {
      StepKeepsInv(s, actions[0]);
      RunKeepsInv(Step(s, actions[0], true), actions[1..]);
    }
  }
}
