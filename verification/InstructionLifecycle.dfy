/** What each instruction-service operation does to one instruction, and what its event log says. */
module InstructionLifecycle {
  import opened Wrappers

  datatype InstructionType = STANDING | SINGLE_USE

  datatype Status = DRAFT | SUBMITTED | APPROVED | SUSPENDED | REJECTED | USED | CANCELLED

  datatype LifecycleAction =
    | CREATE | UPDATE | CANCEL | SUBMIT | APPROVE | REJECT | SUSPEND | REACTIVATE | USE | RELEASE_USE

  datatype LifecycleEvent = LifecycleEvent(action: LifecycleAction, actor: string,
                                           paymentReference: Option<string>, reason: Option<string>)

  /** The part of an instruction that a create or update request supplies. */
  datatype Route = Route(instructionType: InstructionType, owningLob: string, currency: string,
                         creditorAccount: string, effectiveDate: int, endDate: int)

  datatype Instruction = Instruction(
    route: Route, status: Status, createdBy: string, updatedAt: int,
    submittedAt: Option<int>,
    approvedBy: Option<string>, approvedAt: Option<int>,
    rejectedBy: Option<string>, rejectedAt: Option<int>, rejectionReason: Option<string>,
    cancelledAt: Option<int>,
    suspendedBy: Option<string>, suspendedAt: Option<int>,
    lastUsedAt: Option<int>, usageCount: int, usedBy: Option<string>,
    lifecycleEvents: seq<LifecycleEvent>)

  datatype Operation =
    | Update(route: Route)
    | Cancel(reason: Option<string>)
    | Submit
    | Approve
    | Reject(why: string)
    | Suspend
    | Reactivate
    | Use(paymentReference: string)
    | ReleaseUse(paymentReference: string)

  function ActionOf(op: Operation): LifecycleAction {
    match op
    case Update(_) => UPDATE
    case Cancel(_) => CANCEL
    case Submit => SUBMIT
    case Approve => APPROVE
    case Reject(_) => REJECT
    case Suspend => SUSPEND
    case Reactivate => REACTIVATE
    case Use(_) => USE
    case ReleaseUse(_) => RELEASE_USE
  }

  function EventOf(op: Operation, who: string): LifecycleEvent {
    match op
    case Cancel(reason) => LifecycleEvent(CANCEL, who, None, reason)
    case Reject(why) => LifecycleEvent(REJECT, who, None, Some(why))
    case Use(payment) => LifecycleEvent(USE, who, Some(payment), None)
    case ReleaseUse(payment) => LifecycleEvent(RELEASE_USE, who, Some(payment), None)
    case _ => LifecycleEvent(ActionOf(op), who, None, None)
  }

  function Record(i: Instruction, e: LifecycleEvent): Instruction {
    i.(lifecycleEvents := i.lifecycleEvents + [e])
  }

  /** The freshly created DRAFT, its CREATE event included. */
  function NewInstruction(route: Route, who: string, now: int): Instruction {
    Instruction(route, DRAFT, who, now, None, None, None, None, None, None, None, None, None, None, 0, None,
                [LifecycleEvent(CREATE, who, None, None)])
  }

  /** The guard each operation applies to the current row before it asks for authorization. */
  predicate Permits(i: Instruction, op: Operation) {
    match op
    case Update(_) => i.status == DRAFT
    case Cancel(_) => i.status == DRAFT || i.status == SUBMITTED
    case Submit => i.status == DRAFT
    case Approve => i.status == SUBMITTED
    case Reject(_) => i.status == SUBMITTED
    case Suspend => i.status == APPROVED
    case Reactivate => i.status == SUSPENDED
    case Use(_) => i.status == APPROVED
    case ReleaseUse(payment) =>
      i.route.instructionType == SINGLE_USE && i.status == USED && i.usedBy == Some(payment)
  }

  /** The row content an authorized operation writes over the row it has read. */
  function Apply(i: Instruction, op: Operation, who: string, now: int): Instruction {
    var changed :=
      match op
      case Update(route) => i.(route := route)
      case Cancel(_) => i.(status := CANCELLED, cancelledAt := Some(now))
      case Submit => i.(status := SUBMITTED, submittedAt := Some(now))
      case Approve => i.(status := APPROVED, approvedBy := Some(who), approvedAt := Some(now))
      case Reject(why) =>
        i.(status := REJECTED, rejectedBy := Some(who), rejectedAt := Some(now), rejectionReason := Some(why))
      case Suspend => i.(status := SUSPENDED, suspendedBy := Some(who), suspendedAt := Some(now))
      case Reactivate => i.(status := APPROVED, suspendedBy := None, suspendedAt := None)
      case Use(payment) =>
        var counted := i.(usageCount := i.usageCount + 1, lastUsedAt := Some(now));
        if i.route.instructionType == SINGLE_USE then counted.(status := USED, usedBy := Some(payment)) else counted
      case ReleaseUse(_) =>
        i.(status := APPROVED, usedBy := None, usageCount := if i.usageCount > 0 then i.usageCount - 1 else i.usageCount);
    Record(changed, EventOf(op, who)).(updatedAt := now)
  }

  // ----- The event log as the source of truth ---------------------------------

  /** The status automaton, read off the documented lifecycle; None where no such step exists. */
  function NextStatus(from: Option<Status>, action: LifecycleAction, kind: InstructionType): Option<Status> {
    match (from, action)
    case (None, CREATE) => Some(DRAFT)
    case (Some(DRAFT), UPDATE) => Some(DRAFT)
    case (Some(DRAFT), SUBMIT) => Some(SUBMITTED)
    case (Some(DRAFT), CANCEL) => Some(CANCELLED)
    case (Some(SUBMITTED), CANCEL) => Some(CANCELLED)
    case (Some(SUBMITTED), APPROVE) => Some(APPROVED)
    case (Some(SUBMITTED), REJECT) => Some(REJECTED)
    case (Some(APPROVED), SUSPEND) => Some(SUSPENDED)
    case (Some(SUSPENDED), REACTIVATE) => Some(APPROVED)
    case (Some(APPROVED), USE) => Some(if kind == SINGLE_USE then USED else APPROVED)
    case (Some(USED), RELEASE_USE) => if kind == SINGLE_USE then Some(APPROVED) else None
    case _ => None
  }

  /** The status the log alone implies; None for the empty log and for logs the automaton rejects. */
  function Replay(events: seq<LifecycleEvent>, kind: InstructionType): Option<Status> {
    if events == [] then None
    else
      var front := events[..|events| - 1];
      if front != [] && Replay(front, kind).None? then None
      else NextStatus(Replay(front, kind), events[|events| - 1].action, kind)
  }

  function CountOf(events: seq<LifecycleEvent>, action: LifecycleAction): nat {
    if events == [] then 0
    else CountOf(events[..|events| - 1], action) + if events[|events| - 1].action == action then 1 else 0
  }

  /** A row's fields are what its log says, and version n carries n events. */
  ghost predicate AgreesWithLog(i: Instruction, version: nat) {
    var events, kind := i.lifecycleEvents, i.route.instructionType;
    && |events| == version >= 1
    && Replay(events, kind) == Some(i.status)
    && i.usageCount == CountOf(events, USE) - CountOf(events, RELEASE_USE)
    && (i.usedBy.Some? <==> i.status == USED)
    && (kind == SINGLE_USE ==> i.usageCount == if i.status == USED then 1 else 0)
    && (kind == STANDING ==> i.status != USED)
    && i.createdBy == events[0].actor
  }

  /** A log that ends in DRAFT never used the instruction and fits either type. */
  lemma {:induction false} DraftLogFitsBothTypes(events: seq<LifecycleEvent>, kind: InstructionType, other: InstructionType)
    requires Replay(events, kind) == Some(DRAFT)
    ensures Replay(events, other) == Some(DRAFT)
    ensures CountOf(events, USE) == CountOf(events, RELEASE_USE) == 0
  {
    var front := events[..|events| - 1];
    if front == [] {
    } else {
      DraftLogFitsBothTypes(front, kind, other);
    }
  }

  lemma {:induction false} LogGrows(events: seq<LifecycleEvent>, e: LifecycleEvent, kind: InstructionType)
    requires events != [] && Replay(events, kind).Some?
    ensures Replay(events + [e], kind) == NextStatus(Replay(events, kind), e.action, kind)
    ensures forall action :: CountOf(events + [e], action) == CountOf(events, action) + if e.action == action then 1 else 0
  {
    assert (events + [e])[..|events|] == events;
  }

  /** The operations' own guards are exactly the automaton's steps, release aside, which also checks its holder. */
  lemma {:induction false} GuardsFollowAutomaton(i: Instruction, op: Operation, version: nat)
    requires AgreesWithLog(i, version)
    ensures Permits(i, op) <==>
      NextStatus(Some(i.status), ActionOf(op), i.route.instructionType).Some?
      && (op.ReleaseUse? ==> i.usedBy == Some(op.paymentReference))
  {
  }

  /** Every operation extends the log by its own event and keeps row and log in agreement. */
  lemma {:induction false} ApplyAgreesWithLog(i: Instruction, op: Operation, who: string, now: int, version: nat)
    requires AgreesWithLog(i, version) && Permits(i, op)
    ensures var after := Apply(i, op, who, now);
      && after.lifecycleEvents == i.lifecycleEvents + [EventOf(op, who)]
      && AgreesWithLog(after, version + 1)
  {
    LogGrows(i.lifecycleEvents, EventOf(op, who), i.route.instructionType);
    if op.Update? {
      DraftLogFitsBothTypes(i.lifecycleEvents, i.route.instructionType, op.route.instructionType);
      LogGrows(i.lifecycleEvents, EventOf(op, who), op.route.instructionType);
    }
  }

  /** The last event of an action, if the log has one. */
  function Last(events: seq<LifecycleEvent>, action: LifecycleAction): Option<LifecycleEvent> {
    if events == [] then None
    else if events[|events| - 1].action == action then Some(events[|events| - 1])
    else Last(events[..|events| - 1], action)
  }

  function ActorOf(e: Option<LifecycleEvent>): Option<string> { if e.Some? then Some(e.value.actor) else None }

  /** Who approved and who rejected, and why: as the log says. */
  ghost predicate DecisionsAgree(i: Instruction) {
    var events := i.lifecycleEvents;
    && i.approvedBy == ActorOf(Last(events, APPROVE)) && (i.approvedBy.Some? <==> i.approvedAt.Some?)
    && i.rejectedBy == ActorOf(Last(events, REJECT)) && (i.rejectedBy.Some? <==> i.rejectedAt.Some?)
    && i.rejectionReason == (if Last(events, REJECT).Some? then Last(events, REJECT).value.reason else None)
    && (i.submittedAt.Some? <==> Last(events, SUBMIT).Some?)
    && (i.cancelledAt.Some? <==> Last(events, CANCEL).Some?)
  }

  /** Who suspended it, if it is suspended, and which payment uses it: as the log says. */
  ghost predicate UsageAgrees(i: Instruction) {
    var events := i.lifecycleEvents;
    && i.suspendedBy == (if i.status == SUSPENDED then ActorOf(Last(events, SUSPEND)) else None)
    && (i.suspendedBy.Some? <==> i.suspendedAt.Some?)
    && (i.lastUsedAt.Some? <==> Last(events, USE).Some?)
    && (i.usedBy.Some? ==> Last(events, USE).Some? && i.usedBy == Last(events, USE).value.paymentReference)
  }

  ghost predicate StampsAgree(i: Instruction) { DecisionsAgree(i) && UsageAgrees(i) }

  lemma {:induction false} LastGrows(events: seq<LifecycleEvent>, e: LifecycleEvent)
    ensures forall action :: Last(events + [e], action) == if e.action == action then Some(e) else Last(events, action)
  {
    assert (events + [e])[..|events|] == events;
  }

  lemma {:induction false} ApplyKeepsDecisions(i: Instruction, op: Operation, who: string, now: int)
    requires DecisionsAgree(i) && Permits(i, op)
    ensures DecisionsAgree(Apply(i, op, who, now))
  {
    LastGrows(i.lifecycleEvents, EventOf(op, who));
  }

  lemma {:induction false} ApplyKeepsUsage(i: Instruction, op: Operation, who: string, now: int)
    requires UsageAgrees(i) && Permits(i, op) && (i.usedBy.Some? <==> i.status == USED)
    ensures UsageAgrees(Apply(i, op, who, now))
  {
    LastGrows(i.lifecycleEvents, EventOf(op, who));
  }

  lemma {:induction false} ApplyKeepsStamps(i: Instruction, op: Operation, who: string, now: int)
    requires StampsAgree(i) && Permits(i, op) && (i.usedBy.Some? <==> i.status == USED)
    ensures StampsAgree(Apply(i, op, who, now))
  {
    ApplyKeepsDecisions(i, op, who, now);
    ApplyKeepsUsage(i, op, who, now);
  }

  lemma {:induction false} NewStampsAgree(route: Route, who: string, now: int)
    ensures StampsAgree(NewInstruction(route, who, now))
  {
    LastGrows([], LifecycleEvent(CREATE, who, None, None));
    assert [] + [LifecycleEvent(CREATE, who, None, None)] == NewInstruction(route, who, now).lifecycleEvents;
  }

  lemma {:induction false} NewAgreesWithLog(route: Route, who: string, now: int)
    ensures AgreesWithLog(NewInstruction(route, who, now), 1)
  {
    var events := NewInstruction(route, who, now).lifecycleEvents;
    assert events[..0] == [];
  }

  /** Once an instruction has left DRAFT its route is final: no operation changes it or returns to DRAFT. */
  lemma {:induction false} RouteFinalAfterDraft(i: Instruction, op: Operation, who: string, now: int)
    requires Permits(i, op) && i.status != DRAFT
    ensures var after := Apply(i, op, who, now); after.route == i.route && after.status != DRAFT
  {
  }
}
