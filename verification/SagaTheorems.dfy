/** What the saga promises over whole runs, what it does not, and why overlapping calls are excluded. */
module SagaTheorems {
  import opened Wrappers
  import opened Saga
  import opened SagaSafety
  import IL = InstructionLifecycle
  import PL = PaymentLifecycle

  /** A SUBMITTED or APPROVED payment drafted against the instruction while it was SINGLE_USE. */
  predicate Claims(s: State, instructionId: string, paymentId: string) {
    && SingleUseSnapshot(s, instructionId, paymentId)
    && (s.payments[paymentId].content.status == PL.SUBMITTED || s.payments[paymentId].content.status == PL.APPROVED)
  }

  ghost predicate Reachable(s: State) {
    exists actions :: s == Run(START, actions, true)
  }

  lemma {:induction false} ReachableOn(s: State, actions: seq<Action>, t: State)
    requires Reachable(s) && Run(s, actions, true) == t
    ensures Reachable(t)
  {
    var before :| s == Run(START, before, true);
    RunConcat(START, before, actions, true);
  }

  lemma {:induction false} ReachableInv(s: State)
    requires Reachable(s)
    ensures Inv(s)
  {
    var actions :| s == Run(START, actions, true);
    RunKeepsInv(START, actions);
  }

  /**
   In every reachable state at most one SUBMITTED or APPROVED payment claims a SINGLE_USE
   instruction, and that instruction is USED by it.
   */
  lemma {:induction false} AtMostOneHolder(s: State, instructionId: string, p: string, q: string)
    requires Reachable(s) && IsSingleUse(s, instructionId)
    requires Claims(s, instructionId, p) && Claims(s, instructionId, q)
    ensures p == q && HeldBy(s, instructionId, p)
  {
    ReachableInv(s);
    ClaimIsHeld(s, instructionId, p);
    ClaimIsHeld(s, instructionId, q);
  }

  lemma {:induction false} ClaimIsHeld(s: State, instructionId: string, p: string)
    requires Inv(s) && IsSingleUse(s, instructionId) && Claims(s, instructionId, p)
    ensures HeldBy(s, instructionId, p)
    ensures s.payments[p].content.instructionVersion == s.instructions[instructionId].version
  {
    assert PaymentOk(s, p);
    var m :| m in s.acks && m.UseRequest? && m.instructionId == instructionId && m.paymentId == p;
    assert AckOk(s, m);
  }

  // ----- Which steps write which rows --------------------------------------------------

  predicate WritesInstruction(s: State, a: Action, serial: bool, id: string) {
    a.WriteInstruction? && CanWriteInstruction(s, a.call, serial) && s.instructionCalls[a.call].instructionId == id
  }

  lemma {:induction false} InstructionsUntouched(s: State, a: Action, serial: bool)
    requires !a.CreateInstruction? && !a.WriteInstruction?
    ensures Step(s, a, serial).instructions == s.instructions
  {
    if a.CheckInstruction? && AtStage(s, a.call, Loaded) { CheckTouchesCallsOnly(s, a.call, a.now); }
  }

  lemma {:induction false} CheckTouchesCallsOnly(s: State, call: CallId, now: int)
    requires AtStage(s, call, Loaded)
    ensures CheckedInstruction(s, call, now) == s.(paymentCalls := CheckedInstruction(s, call, now).paymentCalls)
  {
  }

  lemma {:induction false} PaymentsUntouched(s: State, a: Action)
    requires !a.WritePayment? && !a.InsertPayment?
    ensures Step(s, a, true).payments == s.payments
  {
    if a.CheckInstruction? && AtStage(s, a.call, Loaded) { CheckTouchesCallsOnly(s, a.call, a.now); }
  }

  lemma {:induction false} CheckTouchesOneCall(s: State, call: CallId, now: int, other: CallId)
    requires AtStage(s, call, Loaded) && other != call
    ensures var after := CheckedInstruction(s, call, now);
      && (other in after.paymentCalls <==> other in s.paymentCalls)
      && (other in s.paymentCalls ==> after.paymentCalls[other] == s.paymentCalls[other])
  {
  }

  /** The steps of payment-service calls, each of its own call. */
  predicate CallStep(a: Action) {
    a.LoadPayment? || a.CheckInstruction? || a.ListSiblings? || a.SendUse? || a.ReceiveAck? || a.RereadInstruction?
    || a.WritePayment? || a.SendRelease? || a.DropPaymentCall?
  }

  predicate SameCall(s: State, after: State, c: CallId) {
    (c in after.paymentCalls <==> c in s.paymentCalls) && (c in s.paymentCalls ==> after.paymentCalls[c] == s.paymentCalls[c])
  }

  lemma {:induction false} OtherCallsUntouched(s: State, a: Action, c: CallId)
    requires !CallStep(a) || a.call != c
    ensures SameCall(s, Step(s, a, true), c)
  {
    if a.CheckInstruction? && AtStage(s, a.call, Loaded) { CheckTouchesOneCall(s, a.call, a.now, c); }
  }

  lemma {:induction false} InstructionRowAfter(s: State, a: Action, serial: bool, id: string)
    requires id in s.instructions
    ensures var after := Step(s, a, serial);
      && id in after.instructions
      && after.instructions[id] ==
         if WritesInstruction(s, a, serial, id)
         then var c := s.instructionCalls[a.call];
              Current(s.instructions[id].version + 1, a.now, IL.Apply(c.instruction, c.op, c.who, a.now))
         else s.instructions[id]
  {
    if !a.CreateInstruction? && !a.WriteInstruction? { InstructionsUntouched(s, a, serial); }
  }

  /** Only a call that has loaded a payment in a status its operation accepts writes it. */
  lemma {:induction false} PaymentRowAfter(s: State, a: Action, p: string)
    requires Inv(s) && p in s.payments
    ensures var after := Step(s, a, true);
      && p in after.payments && (p in s.systemCancelled ==> p in after.systemCancelled)
      && (s.payments[p].content.status == PL.APPROVED || PL.Terminal(s.payments[p].content.status) ==>
            after.payments[p] == s.payments[p])
  {
    if a.WritePayment? && CanWritePayment(s, a.call, true) {
      assert PaymentCallOk(s, a.call, s.paymentCalls[a.call]);
    }
  }

  // ----- Once approved, held for good ----------------------------------------------------

  /** `p` is APPROVED on the SINGLE_USE instruction: neither row is ever written again. */
  ghost predicate Settled(s: State, instructionId: string, p: string) {
    && Inv(s) && IsSingleUse(s, instructionId) && Claims(s, instructionId, p)
    && s.payments[p].content.status == PL.APPROVED
  }

  lemma {:induction false} SettledStep(s: State, a: Action, instructionId: string, p: string)
    requires Settled(s, instructionId, p)
    ensures var after := Step(s, a, true);
      && Settled(after, instructionId, p)
      && instructionId in after.instructions && p in after.payments
      && after.instructions[instructionId] == s.instructions[instructionId] && after.payments[p] == s.payments[p]
  {
    StepKeepsInv(s, a);
    InstructionRowAfter(s, a, true, instructionId);
    PaymentRowAfter(s, a, p);
    if WritesInstruction(s, a, true, instructionId) {
      assert PaymentOk(s, p);
      var m :| m in s.acks && m.UseRequest? && m.instructionId == instructionId && m.paymentId == p;
      HeldInstructionIsNotWritten(s, a.call, m);
    }
  }

  lemma {:induction false} SettledForever(s: State, more: seq<Action>, instructionId: string, p: string)
    requires Settled(s, instructionId, p)
    ensures var end := Run(s, more, true);
      && Settled(end, instructionId, p)
      && instructionId in end.instructions && p in end.payments
      && end.instructions[instructionId] == s.instructions[instructionId] && end.payments[p] == s.payments[p]
    decreases |more|
  {
    if more != [] {
      SettledStep(s, more[0], instructionId, p);
      SettledForever(Step(s, more[0], true), more[1..], instructionId, p);
    }
  }

  // ----- Approval ---------------------------------------------------------------------------

  /**
   Approving a payment that went through the saga depends on the dates alone: its own USE row
   never counts as drift, and the status always backs it.
   */
  lemma {:induction false} OnlyDatesCancelSagaPayments(s: State, instructionId: string, p: string, now: int)
    requires Reachable(s) && IsSingleUse(s, instructionId)
    requires Claims(s, instructionId, p) && s.payments[p].content.status == PL.SUBMITTED
    ensures var route := s.instructions[instructionId].content.route;
      PL.CheckForApproval(s.payments[p].content, View(s.instructions[instructionId]), now)
      == if route.endDate < now then Some(PL.Expired)
         else if now < route.effectiveDate then Some(PL.NotYetEffective)
         else None
  {
    ReachableInv(s);
    ClaimIsHeld(s, instructionId, p);
  }

  /** How many versions the steps append to the instruction. */
  function AppendsTo(s: State, actions: seq<Action>, instructionId: string, serial: bool): nat
    decreases |actions|
  {
    if actions == [] then 0
    else (if WritesInstruction(s, actions[0], serial, instructionId) then 1 else 0)
         + AppendsTo(Step(s, actions[0], serial), actions[1..], instructionId, serial)
  }

  lemma {:induction false} VersionCountsAppends(s: State, actions: seq<Action>, instructionId: string, serial: bool)
    requires instructionId in s.instructions
    ensures instructionId in Run(s, actions, serial).instructions
    ensures Run(s, actions, serial).instructions[instructionId].version
         == s.instructions[instructionId].version + AppendsTo(s, actions, instructionId, serial)
    decreases |actions|
  {
    if actions != [] {
      InstructionRowAfter(s, actions[0], serial, instructionId);
      VersionCountsAppends(Step(s, actions[0], serial), actions[1..], instructionId, serial);
    }
  }

  /**
   Any payment that recorded the instruction's version in state `s` passes the later approval
   check exactly when nothing was appended since, the status backs it, the dates hold and the
   types agree. This needs no hypothesis on overlapping calls.
   */
  lemma {:induction false} ApprovalPassesExactlyWhen(s: State, actions: seq<Action>, serial: bool, payment: PL.Payment, now: int)
    requires payment.instructionId in s.instructions
    requires payment.instructionVersion == s.instructions[payment.instructionId].version
    ensures payment.instructionId in Run(s, actions, serial).instructions
    ensures var i := Run(s, actions, serial).instructions[payment.instructionId];
      PL.CheckForApproval(payment, View(i), now).None? <==>
        && AppendsTo(s, actions, payment.instructionId, serial) == 0
        && i.content.route.instructionType == payment.instructionType
        && (i.content.status == IL.APPROVED || (i.content.status == IL.USED && payment.instructionType == IL.SINGLE_USE))
        && i.content.route.effectiveDate <= now <= i.content.route.endDate
  {
    VersionCountsAppends(s, actions, payment.instructionId, serial);
  }

  // ----- Compensation, and where it is missing ------------------------------------------------

  /** A rejected or cancelled payment whose release gets through gives the instruction back. */
  lemma {:induction false} ReleaseRestoresInstruction(s: State, call: CallId, server: CallId, who: string, now: int)
    requires Inv(s) && AtStage(s, call, Persisted) && PL.ReleasesOnEnd(s.paymentCalls[call].payment)
    requires server !in s.instructionCalls
    requires var c := s.paymentCalls[call];
      IsSingleUse(s, c.payment.instructionId) && HeldBy(s, c.payment.instructionId, c.paymentId)
    ensures var c := s.paymentCalls[call];
      var m := ReleaseRequest(c.payment.instructionId, c.paymentId);
      var end := Run(s, [SendRelease(call), ReceiveRequest(server, m, who), WriteInstruction(server, now)], true);
      var before := s.instructions[c.payment.instructionId];
      && c.payment.instructionId in end.instructions
      && end.instructions[c.payment.instructionId]
         == Current(before.version + 1, now, IL.Apply(before.content, IL.ReleaseUse(c.paymentId), who, now))
      && end.instructions[c.payment.instructionId].content.status == IL.APPROVED
      && end.instructions[c.payment.instructionId].content.usedBy == None
      && end.payments == s.payments
  {
    var c := s.paymentCalls[call];
    var m := ReleaseRequest(c.payment.instructionId, c.paymentId);
    assert PaymentCallOk(s, call, c);
    var sent := Step(s, SendRelease(call), true);
    var received := Step(sent, ReceiveRequest(server, m, who), true);
    assert received.instructionCalls[server] ==
      InstructionCall(m.instructionId, s.instructions[m.instructionId].version, s.instructions[m.instructionId].content,
                      IL.ReleaseUse(c.paymentId), who, Some(m));
    InstructionRowAfter(received, WriteInstruction(server, now), true, m.instructionId);
    RunThree(s, SendRelease(call), ReceiveRequest(server, m, who), WriteInstruction(server, now), true);
  }

  lemma {:induction false} RunThree(s: State, a: Action, b: Action, c: Action, serial: bool)
    ensures Run(s, [a, b, c], serial) == Step(Step(Step(s, a, serial), b, serial), c, serial)
  {
    assert [a, b, c] == [a] + [b, c] && [b, c] == [b] + [c] && [c] == [c] + [];
    RunCons(s, a, [b, c], serial);
    RunCons(Step(s, a, serial), b, [c], serial);
    RunCons(Step(Step(s, a, serial), b, serial), c, [], serial);
  }
}
