/**
 Instruction and payment lifecycles joined by the SINGLE_USE saga, as interleaved steps of
 in-flight calls. Each call reads, checks, talks to the other service and writes in separate
 steps; any call may stop for good between two of them (crash, denial, lost reply). Nothing is
 retried: a USE or RELEASE_USE request, once sent, is served at most once, at any later time,
 unless it is lost on the way or refused.

 A write closes the row that is open when it happens, whatever row the call has read. With
 `serial` set, a write happens only while the row read is still the open one: this is the
 hypothesis that calls on the same entity do not overlap between read and append.
 */
module Saga {
  import opened Wrappers
  import IL = InstructionLifecycle
  import PL = PaymentLifecycle

  type CallId = nat

  /** The open row of an entity. */
  datatype Current<+T> = Current(version: nat, validIn: int, content: T)

  datatype Message =
    | UseRequest(call: CallId, instructionId: string, paymentId: string)
    | ReleaseRequest(instructionId: string, paymentId: string)

  /** An instruction-service call that has read its row; `request` is the message it serves, if any. */
  datatype InstructionCall = InstructionCall(instructionId: string, version: nat, instruction: IL.Instruction,
                                             op: IL.Operation, who: string, request: Option<Message>)

  datatype Kind =
    | KUpdate(amount: int, valueDate: string)
    | KSubmit
    | KApprove
    | KReject(reason: string)
    | KCancel(why: Option<string>)

  /** Program counter of a payment-service call that has read its payment. */
  datatype Stage =
    | Loaded                            // payment read
    | Validated                         // submit, SINGLE_USE: instruction read and APPROVED
    | Listed                            // sibling check passed, SUBMIT authorized
    | Waiting                           // USE sent
    | Marked                            // USE acknowledged
    | Ready                             // about to write its own version
    | Cancelling(reason: PL.Invalidity) // approve found the payment invalid
    | Persisted                         // reject or cancel written, release not yet sent

  datatype PaymentCall = PaymentCall(kind: Kind, paymentId: string, version: nat, payment: PL.Payment,
                                     who: string, stage: Stage)

  datatype State = State(
    instructions: map<string, Current<IL.Instruction>>,
    payments: map<string, Current<PL.Payment>>,
    instructionCalls: map<CallId, InstructionCall>,
    paymentCalls: map<CallId, PaymentCall>,
    drafts: map<CallId, PL.Payment>,
    sent: set<Message>,      // ever
    pending: set<Message>,   // sent, and neither received nor lost
    acks: set<Message>,
    systemCancelled: set<string>)

  const START: State := State(map[], map[], map[], map[], map[], {}, {}, {}, {})

  datatype Action =
    // instruction-service
    | CreateInstruction(id: string, route: IL.Route, who: string, now: int)
    | ReadInstruction(call: CallId, id: string, op: IL.Operation, who: string)
    | ReceiveRequest(call: CallId, message: Message, who: string)
    | LoseRequest(message: Message)
    | WriteInstruction(call: CallId, now: int)
    | DropInstructionCall(call: CallId)
    // payment-service
    | DraftPayment(call: CallId, instructionId: string, amount: int, valueDate: string, who: string, now: int)
    | InsertPayment(call: CallId, paymentId: string, now: int)
    | DropDraft(call: CallId)
    | LoadPayment(call: CallId, paymentId: string, kind: Kind, who: string)
    | CheckInstruction(call: CallId, now: int)
    | ListSiblings(call: CallId, listed: set<string>)
    | SendUse(call: CallId)
    | ReceiveAck(call: CallId)
    | RereadInstruction(call: CallId)
    | WritePayment(call: CallId, now: int)
    | SendRelease(call: CallId)
    | DropPaymentCall(call: CallId)

  // ----- Instruction steps --------------------------------------------------------

  function View(c: Current<IL.Instruction>): PL.InstructionView {
    PL.InstructionView(c.version, c.content.status, c.content.route.instructionType,
                       PL.At(c.content.route.effectiveDate), PL.At(c.content.route.endDate))
  }

  /** USE and RELEASE_USE come from payment-service messages only. */
  predicate UserOperation(op: IL.Operation) { !op.Use? && !op.ReleaseUse? }

  function OperationOf(m: Message): IL.Operation {
    if m.UseRequest? then IL.Use(m.paymentId) else IL.ReleaseUse(m.paymentId)
  }

  predicate CanRead(s: State, call: CallId, id: string, op: IL.Operation) {
    call !in s.instructionCalls && id in s.instructions && IL.Permits(s.instructions[id].content, op)
  }

  predicate CanWriteInstruction(s: State, call: CallId, serial: bool) {
    && call in s.instructionCalls && s.instructionCalls[call].instructionId in s.instructions
    && (serial ==> s.instructionCalls[call].version == s.instructions[s.instructionCalls[call].instructionId].version)
  }

  function WroteInstruction(s: State, call: CallId, now: int): State
    requires CanWriteInstruction(s, call, false)
  {
    var c := s.instructionCalls[call];
    var written := IL.Apply(c.instruction, c.op, c.who, now);
    s.(instructions := s.instructions[c.instructionId :=
                         Current(s.instructions[c.instructionId].version + 1, now, written)],
       instructionCalls := s.instructionCalls - {call},
       acks := if c.request.Some? && c.request.value.UseRequest? then s.acks + {c.request.value} else s.acks)
  }

  // ----- Payment steps -----------------------------------------------------------------

  predicate Accepts(kind: Kind, status: PL.PaymentStatus) {
    match kind
    case KUpdate(_, _) => status == PL.DRAFT
    case KSubmit => status == PL.DRAFT
    case KApprove => status == PL.SUBMITTED
    case KReject(_) => status == PL.SUBMITTED
    case KCancel(_) => status == PL.DRAFT || status == PL.SUBMITTED
  }

  predicate AtStage(s: State, call: CallId, stage: Stage) {
    call in s.paymentCalls && s.paymentCalls[call].stage == stage
  }

  function WithCall(s: State, call: CallId, c: PaymentCall): State {
    s.(paymentCalls := s.paymentCalls[call := c])
  }

  function WithoutCall(s: State, call: CallId): State {
    s.(paymentCalls := s.paymentCalls - {call})
  }

  function Sending(s: State, m: Message): State {
    s.(sent := s.sent + {m}, pending := s.pending + {m})
  }

  /** The GET of the backing instruction, and what each operation makes of it. */
  function CheckedInstruction(s: State, call: CallId, now: int): State
    requires AtStage(s, call, Loaded)
  {
    var c := s.paymentCalls[call];
    if c.payment.instructionId !in s.instructions then
      if c.kind == KApprove then WithCall(s, call, c.(stage := Cancelling(PL.InstructionNotFound)))
      else WithoutCall(s, call)
    else
      var view := View(s.instructions[c.payment.instructionId]);
      match c.kind
      case KUpdate(_, _) =>
        if PL.BacksDraft(view, now)
        then WithCall(s, call, c.(stage := Ready, payment := c.payment.(instructionVersion := view.versionNumber)))
        else WithoutCall(s, call)
      case KSubmit =>
        if PL.BacksSubmit(view, now)
        then WithCall(s, call, c.(stage := if c.payment.instructionType == IL.SINGLE_USE then Validated else Ready,
                                  payment := c.payment.(instructionVersion := view.versionNumber)))
        else WithoutCall(s, call)
      case KApprove =>
        var invalid := PL.CheckForApproval(c.payment, view, now);
        WithCall(s, call, c.(stage := if invalid.Some? then Cancelling(invalid.value) else Ready))
      case KReject(_) => WithCall(s, call, c.(stage := Ready))
      case KCancel(_) => WithCall(s, call, c.(stage := Ready))
  }

  function Siblings(s: State, instructionId: string): set<string> {
    set p | p in s.payments && s.payments[p].content.instructionId == instructionId
  }

  /** list_current: the newest 100 open rows of the instruction, ties in any order. */
  predicate ValidListing(s: State, instructionId: string, listed: set<string>) {
    var all := Siblings(s, instructionId);
    && listed <= all && |listed| <= 100
    && (|listed| < 100 ==> listed == all)
    && (forall p, q :: p in listed && q in all - listed ==> s.payments[q].validIn <= s.payments[p].validIn)
  }

  function ActiveAmong(s: State, listed: set<string>): set<string> {
    set p | p in listed && p in s.payments && PL.Active(s.payments[p].content)
  }

  function ListedSiblings(s: State, call: CallId, listed: set<string>): State
    requires AtStage(s, call, Validated)
  {
    var c := s.paymentCalls[call];
    if !ValidListing(s, c.payment.instructionId, listed) then s
    else if |ActiveAmong(s, listed)| > 1 then WithoutCall(s, call)
    else WithCall(s, call, c.(stage := Listed))
  }

  /** The content the call writes over the payment it has read. */
  function Written(c: PaymentCall, now: int): PL.Payment {
    if c.stage.Cancelling? then PL.Cancelled(c.payment, Some("invalid at approval"), c.who, now)
    else match c.kind
         case KUpdate(amount, valueDate) => PL.Updated(c.payment, amount, valueDate, c.who, now)
         case KSubmit => PL.Submitted(c.payment, c.who, now)
         case KApprove => PL.Approved(c.payment, c.who, now)
         case KReject(reason) => PL.Rejected(c.payment, reason, c.who, now)
         case KCancel(why) => PL.Cancelled(c.payment, why, c.who, now)
  }

  predicate CanWritePayment(s: State, call: CallId, serial: bool) {
    && call in s.paymentCalls && (s.paymentCalls[call].stage == Ready || s.paymentCalls[call].stage.Cancelling?)
    && s.paymentCalls[call].paymentId in s.payments
    && (serial ==> s.paymentCalls[call].version == s.payments[s.paymentCalls[call].paymentId].version)
  }

  /** A system cancel asks for the release without a user token, so no request leaves the service. */
  function WrotePayment(s: State, call: CallId, now: int): State
    requires CanWritePayment(s, call, false)
  {
    var c := s.paymentCalls[call];
    var written := Written(c, now);
    var stored := s.(payments := s.payments[c.paymentId := Current(s.payments[c.paymentId].version + 1, now, written)]);
    if c.stage.Cancelling? then WithoutCall(stored, call).(systemCancelled := s.systemCancelled + {c.paymentId})
    else if c.kind.KReject? || c.kind.KCancel? then WithCall(stored, call, c.(stage := Persisted, payment := written))
    else WithoutCall(stored, call)
  }

  function SentRelease(s: State, call: CallId): State
    requires AtStage(s, call, Persisted)
  {
    var c := s.paymentCalls[call];
    if PL.ReleasesOnEnd(c.payment)
    then Sending(WithoutCall(s, call), ReleaseRequest(c.payment.instructionId, c.paymentId))
    else WithoutCall(s, call)
  }

  // ----- All steps ------------------------------------------------------------------------

  /** One step; an action that is not enabled changes nothing. */
  function Step(s: State, a: Action, serial: bool): State {
    match a
    case CreateInstruction(id, route, who, now) =>
      if id in s.instructions then s
      else s.(instructions := s.instructions[id := Current(1, now, IL.NewInstruction(route, who, now))])
    case ReadInstruction(call, id, op, who) =>
      if !CanRead(s, call, id, op) || !UserOperation(op) then s
      else s.(instructionCalls := s.instructionCalls[call :=
                InstructionCall(id, s.instructions[id].version, s.instructions[id].content, op, who, None)])
    case ReceiveRequest(call, m, who) =>
      if m !in s.pending || !CanRead(s, call, m.instructionId, OperationOf(m)) then s
      else s.(pending := s.pending - {m},
              instructionCalls := s.instructionCalls[call :=
                InstructionCall(m.instructionId, s.instructions[m.instructionId].version,
                                s.instructions[m.instructionId].content, OperationOf(m), who, Some(m))])
    case LoseRequest(m) => s.(pending := s.pending - {m})
    case WriteInstruction(call, now) =>
      if !CanWriteInstruction(s, call, serial) then s else WroteInstruction(s, call, now)
    case DropInstructionCall(call) => s.(instructionCalls := s.instructionCalls - {call})
    case DraftPayment(call, id, amount, valueDate, who, now) =>
      if call in s.drafts || id !in s.instructions || !PL.BacksDraft(View(s.instructions[id]), now) then s
      else s.(drafts := s.drafts[call := PL.NewPayment(id, View(s.instructions[id]), amount, valueDate, who, now)])
    case InsertPayment(call, paymentId, now) =>
      if call !in s.drafts || paymentId in s.payments then s
      else s.(payments := s.payments[paymentId := Current(1, now, s.drafts[call])], drafts := s.drafts - {call})
    case DropDraft(call) => s.(drafts := s.drafts - {call})
    case LoadPayment(call, paymentId, kind, who) =>
      if call in s.paymentCalls || (exists m :: m in s.sent && m.UseRequest? && m.call == call)
         || paymentId !in s.payments || !Accepts(kind, s.payments[paymentId].content.status) then s
      else WithCall(s, call, PaymentCall(kind, paymentId, s.payments[paymentId].version, s.payments[paymentId].content,
                                         who, Loaded))
    case CheckInstruction(call, now) =>
      if !AtStage(s, call, Loaded) then s else CheckedInstruction(s, call, now)
    case ListSiblings(call, listed) =>
      if !AtStage(s, call, Validated) then s else ListedSiblings(s, call, listed)
    case SendUse(call) =>
      if !AtStage(s, call, Listed) then s
      else var c := s.paymentCalls[call];
           Sending(WithCall(s, call, c.(stage := Waiting)), UseRequest(call, c.payment.instructionId, c.paymentId))
    case ReceiveAck(call) =>
      if !AtStage(s, call, Waiting) then s
      else var c := s.paymentCalls[call];
           if UseRequest(call, c.payment.instructionId, c.paymentId) !in s.acks then s
           else WithCall(s, call, c.(stage := Marked))
    case RereadInstruction(call) =>
      if !AtStage(s, call, Marked) || s.paymentCalls[call].payment.instructionId !in s.instructions then s
      else var c := s.paymentCalls[call];
           WithCall(s, call, c.(stage := Ready, payment := c.payment.(instructionVersion :=
                                                             s.instructions[c.payment.instructionId].version)))
    case WritePayment(call, now) =>
      if !CanWritePayment(s, call, serial) then s else WrotePayment(s, call, now)
    case SendRelease(call) =>
      if !AtStage(s, call, Persisted) then s else SentRelease(s, call)
    case DropPaymentCall(call) => WithoutCall(s, call)
  }

  function Run(s: State, actions: seq<Action>, serial: bool): State
    decreases |actions|
  {
    if actions == [] then s else Run(Step(s, actions[0], serial), actions[1..], serial)
  }

  lemma {:induction false} RunCons(s: State, a: Action, rest: seq<Action>, serial: bool)
    ensures Run(s, [a] + rest, serial) == Run(Step(s, a, serial), rest, serial)
  {
    assert ([a] + rest)[1..] == rest;
  }

  lemma {:induction false} RunConcat(s: State, first: seq<Action>, second: seq<Action>, serial: bool)
    ensures Run(s, first + second, serial) == Run(Run(s, first, serial), second, serial)
    decreases |first|
  {
    if first == [] {
      assert first + second == second;
    } else {
      RunConcat(Step(s, first[0], serial), first[1..], second, serial);
      assert (first + second)[1..] == first[1..] + second;
    }
  }
}
