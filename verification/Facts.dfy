/** From stored rows to graph facts: the CDC mapping and the action-to-edge and actor rules. */
module Facts {
  import opened Wrappers
  import IL = InstructionLifecycle
  import PL = PaymentLifecycle
  import Text

  /** The root labels; version nodes carry the matching version label. */
  datatype Label = Instruction | Payment

  datatype NodeKey = NodeKey(kind: Label, id: string, version: nat)

  /** The instruction snapshot fields the graph writer reads; absent fields are None or "". */
  datatype InstructionSnapshot = InstructionSnapshot(
    status: string, currency: string, creditorAccount: string,
    createdBy: Option<string>, approvedBy: Option<string>, rejectedBy: Option<string>,
    usedBy: Option<string>, paymentReference: Option<string>)

  datatype PaymentSnapshot = PaymentSnapshot(
    status: Option<string>, instructionId: string, instructionType: string,
    createdBy: Option<string>, submittedBy: Option<string>, approvedBy: Option<string>,
    rejectedBy: Option<string>, cancelledBy: Option<string>)

  /** `open` is `is_version_open(valid_out)`; `actor` is `actor_user_id`. */
  datatype Fact =
    | InstructionFact(id: string, version: nat, open: bool, action: string, actor: Option<string>,
                      instruction: InstructionSnapshot)
    | PaymentFact(id: string, version: nat, open: bool, action: string, actor: Option<string>,
                  payment: PaymentSnapshot)
  {
    function RootLabel(): Label { if InstructionFact? then Label.Instruction else Label.Payment }
    function Key(): NodeKey { NodeKey(RootLabel(), id, version) }
    function Status(): Option<string> { if InstructionFact? then Some(instruction.status) else payment.status }
  }

  /** Version node keys `id:version` identify the version, for arbitrary identifiers. */
  lemma {:induction false} VersionKeyInjective(id: string, other: string, m: nat, n: nat)
    ensures Text.Keyed(id, ':', m) == Text.Keyed(other, ':', n) <==> id == other && m == n
  {
    Text.KeyedInjective(id, other, ':', m, n);
  }

  // ----- Names -----------------------------------------------------------------------

  function StatusName(status: IL.Status): string {
    match status
    case DRAFT => "DRAFT"
    case SUBMITTED => "SUBMITTED"
    case APPROVED => "APPROVED"
    case SUSPENDED => "SUSPENDED"
    case REJECTED => "REJECTED"
    case USED => "USED"
    case CANCELLED => "CANCELLED"
  }

  function ActionName(action: IL.LifecycleAction): string {
    match action
    case CREATE => "CREATE"
    case UPDATE => "UPDATE"
    case CANCEL => "CANCEL"
    case SUBMIT => "SUBMIT"
    case APPROVE => "APPROVE"
    case REJECT => "REJECT"
    case SUSPEND => "SUSPEND"
    case REACTIVATE => "REACTIVATE"
    case USE => "USE"
    case RELEASE_USE => "RELEASE_USE"
  }

  const INSTRUCTION_ACTION_TO_EDGE: map<string, string> := map[
    "CREATE" := "CREATED_IV", "SUBMIT" := "SUBMITTED_IV", "APPROVE" := "APPROVED_IV", "REJECT" := "REJECTED_IV",
    "CANCEL" := "CANCELLED_IV", "SUSPEND" := "SUSPENDED_IV", "REACTIVATE" := "REACTIVATED_IV", "USE" := "USED_IV",
    "RELEASE_USE" := "RELEASED_IV"]

  const PAYMENT_ACTION_TO_EDGE: map<string, string> := map[
    "CREATE" := "CREATED_PV", "SUBMIT" := "SUBMITTED_PV", "APPROVE" := "APPROVED_PV", "REJECT" := "REJECTED_PV",
    "CANCEL" := "CANCELLED_PV",
    "CREATE_PAYMENT" := "CREATED_PV", "SUBMIT_PAYMENT" := "SUBMITTED_PV", "APPROVE_PAYMENT" := "APPROVED_PV",
    "REJECT_PAYMENT" := "REJECTED_PV", "CANCEL_PAYMENT" := "CANCELLED_PV"]

  /** Every action has its own edge type; UPDATE has none. */
  lemma {:induction false} EdgeNamesAreDistinct(a: IL.LifecycleAction, b: IL.LifecycleAction)
    ensures ActionName(a) in INSTRUCTION_ACTION_TO_EDGE <==> a != IL.UPDATE
    ensures a != IL.UPDATE && b != IL.UPDATE ==>
      (INSTRUCTION_ACTION_TO_EDGE[ActionName(a)] == INSTRUCTION_ACTION_TO_EDGE[ActionName(b)] <==> a == b)
  {
  }

  // ----- Actors --------------------------------------------------------------------------

  predicate Truthy(s: Option<string>) { s.Some? && s.value != "" }

  function Or(a: Option<string>, b: Option<string>): Option<string> { if Truthy(a) then a else b }

  /** instruction_lifecycle_actor: the user an instruction edge starts from. */
  function InstructionActor(f: Fact): Option<string>
    requires f.InstructionFact?
  {
    if f.action == "CREATE" then f.instruction.createdBy
    else if f.action == "SUBMIT" || f.action == "CANCEL" then f.actor
    else if f.action == "APPROVE" then Or(f.instruction.approvedBy, f.actor)
    else if f.action == "REJECT" then Or(f.instruction.rejectedBy, f.actor)
    else if f.action in {"SUSPEND", "REACTIVATE", "RELEASE_USE", "USE"} then f.actor
    else None
  }

  /** payment_lifecycle_actor. */
  function PaymentActor(f: Fact): Option<string>
    requires f.PaymentFact?
  {
    if f.action in {"CREATE", "CREATE_PAYMENT"} then f.payment.createdBy
    else if f.action in {"SUBMIT", "SUBMIT_PAYMENT"} then Or(f.payment.submittedBy, f.actor)
    else if f.action in {"APPROVE", "APPROVE_PAYMENT"} then Or(f.payment.approvedBy, f.actor)
    else if f.action in {"REJECT", "REJECT_PAYMENT"} then Or(f.payment.rejectedBy, f.actor)
    else if f.action in {"CANCEL", "CANCEL_PAYMENT"} then Or(f.payment.cancelledBy, f.actor)
    else f.actor
  }

  datatype LifecycleEdge = LifecycleEdge(user: string, edgeType: string, version: NodeKey)

  /** The lifecycle edge one fact asks for, if its action has an edge type and its user is known. */
  function EdgeOf(f: Fact): Option<LifecycleEdge> {
    var edges := if f.InstructionFact? then INSTRUCTION_ACTION_TO_EDGE else PAYMENT_ACTION_TO_EDGE;
    var user := if f.InstructionFact? then InstructionActor(f) else PaymentActor(f);
    if f.action in edges && Truthy(user) then Some(LifecycleEdge(user.value, edges[f.action], f.Key())) else None
  }

  /** release_use_payment_id, for RELEASE_USE facts that name a payment. */
  function ReleasedPayment(f: Fact): Option<string> {
    if f.InstructionFact? && f.action == "RELEASE_USE" && Truthy(f.instruction.paymentReference)
    then f.instruction.paymentReference else None
  }

  // ----- Rows to facts -----------------------------------------------------------------------

  /** versioned_instruction_to_fact; `open` tells whether the delivered copy still had the open marker. */
  function FactOfInstruction(id: string, version: nat, i: IL.Instruction, open: bool): Fact {
    var events := i.lifecycleEvents;
    var last := if events == [] then None else Some(events[|events| - 1]);
    InstructionFact(
      id, version, open,
      if last.Some? then ActionName(last.value.action) else "SYNC",
      if last.Some? && last.value.actor != "" then Some(last.value.actor) else Some(i.createdBy),
      InstructionSnapshot(StatusName(i.status), i.route.currency, i.route.creditorAccount,
                          Some(i.createdBy), i.approvedBy, i.rejectedBy, i.usedBy,
                          if last.Some? then last.value.paymentReference else None))
  }

  /**
   The edge of a row that an operation has just written says who did what: it starts at the
   subject of the call, whichever snapshot field the rule takes the user from.
   */
  lemma {:induction false} OperationEdge(id: string, version: nat, before: IL.Instruction, op: IL.Operation, who: string,
                                         now: int, open: bool)
    requires who != ""
    ensures EdgeOf(FactOfInstruction(id, version, IL.Apply(before, op, who, now), open)) ==
      if op.Update? then None
      else Some(LifecycleEdge(who, INSTRUCTION_ACTION_TO_EDGE[ActionName(IL.ActionOf(op))],
                              NodeKey(Label.Instruction, id, version)))
  {
    var after := IL.Apply(before, op, who, now);
    assert after.lifecycleEvents[|after.lifecycleEvents| - 1] == IL.EventOf(op, who);
  }

  lemma {:induction false} CreationEdge(id: string, route: IL.Route, who: string, now: int, open: bool)
    requires who != ""
    ensures EdgeOf(FactOfInstruction(id, 1, IL.NewInstruction(route, who, now), open))
      == Some(LifecycleEdge(who, "CREATED_IV", NodeKey(Label.Instruction, id, 1)))
  {
  }

  // ----- Payment rows ------------------------------------------------------------------------

  function PaymentActionName(action: PL.PaymentAction): string {
    match action
    case CREATE => "CREATE"
    case UPDATE => "UPDATE"
    case SUBMIT => "SUBMIT"
    case APPROVE => "APPROVE"
    case REJECT => "REJECT"
    case CANCEL => "CANCEL"
  }

  function PaymentStatusName(status: PL.PaymentStatus): string {
    match status
    case DRAFT => "DRAFT"
    case SUBMITTED => "SUBMITTED"
    case APPROVED => "APPROVED"
    case REJECTED => "REJECTED"
    case CANCELLED => "CANCELLED"
  }

  function TypeName(kind: IL.InstructionType): string { if kind == IL.SINGLE_USE then "SINGLE_USE" else "STANDING" }

  /** versioned_payment_to_fact; the actor is the user the action's own field names, or the last event's. */
  function FactOfPayment(id: string, version: nat, p: PL.Payment, open: bool): Fact {
    var events := p.lifecycleEvents;
    var last := if events == [] then None else Some(events[|events| - 1]);
    var snapshot := PaymentSnapshot(Some(PaymentStatusName(p.status)), p.instructionId, TypeName(p.instructionType),
                                    Some(p.createdBy), p.submittedBy, p.approvedBy, p.rejectedBy, p.cancelledBy);
    var field := if last.None? then None
                 else match last.value.action
                      case CREATE => snapshot.createdBy
                      case SUBMIT => p.submittedBy
                      case APPROVE => p.approvedBy
                      case REJECT => p.rejectedBy
                      case CANCEL => p.cancelledBy
                      case UPDATE => None;
    PaymentFact(id, version, open, if last.Some? then PaymentActionName(last.value.action) else "SYNC",
                if Truthy(field) then field
                else if last.Some? && last.value.actor != "" then Some(last.value.actor)
                else Some(p.createdBy),
                snapshot)
  }
}
