/** One payment: its fields, its validity checks against the backing instruction, and its mutations. */
module PaymentLifecycle {
  import opened Wrappers
  import IL = InstructionLifecycle

  datatype PaymentStatus = DRAFT | SUBMITTED | APPROVED | REJECTED | CANCELLED

  datatype PaymentAction = CREATE | UPDATE | SUBMIT | APPROVE | REJECT | CANCEL

  datatype PaymentEvent = PaymentEvent(action: PaymentAction, actor: string, reason: Option<string>)

  /** `instructionType` is the snapshot taken when the payment was drafted. */
  datatype Payment = Payment(
    instructionId: string, instructionVersion: nat, instructionType: IL.InstructionType,
    status: PaymentStatus, amount: int, valueDate: string, createdBy: string, updatedAt: int,
    submittedBy: Option<string>, submittedAt: Option<int>,
    approvedBy: Option<string>, approvedAt: Option<int>,
    rejectedBy: Option<string>, rejectedAt: Option<int>, rejectionReason: Option<string>,
    cancelledBy: Option<string>, cancelledAt: Option<int>, cancellationReason: Option<string>,
    lifecycleEvents: seq<PaymentEvent>)

  /** A date field of the instruction response. */
  datatype DateField = Missing | Unparseable | At(time: int)

  /** The fields payment-service reads from GET /instructions/{id}. */
  datatype InstructionView = InstructionView(versionNumber: nat, status: IL.Status, instructionType: IL.InstructionType,
                                             effectiveDate: DateField, endDate: DateField)

  predicate Terminal(status: PaymentStatus) { status == REJECTED || status == CANCELLED }

  // ----- Checks -------------------------------------------------------------------

  predicate NotExpired(view: InstructionView, now: int) {
    view.endDate.Missing? || (view.endDate.At? && view.endDate.time >= now)
  }

  predicate BacksDraft(view: InstructionView, now: int) {
    view.status in {IL.DRAFT, IL.SUBMITTED, IL.APPROVED} && NotExpired(view, now)
  }

  predicate BacksSubmit(view: InstructionView, now: int) {
    view.status == IL.APPROVED && NotExpired(view, now)
  }

  datatype Invalidity =
    | InstructionNotFound | VersionDrift | NotApprovable | Expired | BadEndDate | NotYetEffective | BadEffectiveDate
    | TypeChanged

  /** The validity check at approval time, in the order of its tests; None means valid. */
  function CheckForApproval(p: Payment, view: InstructionView, now: int): Option<Invalidity> {
    if view.versionNumber != p.instructionVersion then Some(VersionDrift)
    else if !(view.status == IL.APPROVED
              || (view.status == IL.USED && p.instructionType == IL.SINGLE_USE && view.instructionType == IL.SINGLE_USE))
    then Some(NotApprovable)
    else if view.endDate.Unparseable? then Some(BadEndDate)
    else if view.endDate.At? && view.endDate.time < now then Some(Expired)
    else if view.effectiveDate.Unparseable? then Some(BadEffectiveDate)
    else if view.effectiveDate.At? && view.effectiveDate.time > now then Some(NotYetEffective)
    else if view.instructionType != p.instructionType then Some(TypeChanged)
    else None
  }

  /** What the dates of a view decide, in each of their forms. */
  predicate EndsBefore(view: InstructionView, now: int) {
    view.endDate.Unparseable? || (view.endDate.At? && view.endDate.time < now)
  }

  predicate StartsAfter(view: InstructionView, now: int) {
    view.effectiveDate.Unparseable? || (view.effectiveDate.At? && now < view.effectiveDate.time)
  }

  /** Which views back a draft, a submit and an approval. */
  lemma {:induction false} ViewsThatBack(p: Payment, view: InstructionView, now: int)
    ensures BacksDraft(view, now) <==>
      !EndsBefore(view, now) && (view.status == IL.DRAFT || view.status == IL.SUBMITTED || view.status == IL.APPROVED)
    ensures BacksSubmit(view, now) <==> !EndsBefore(view, now) && view.status == IL.APPROVED
    ensures CheckForApproval(p, view, now).None? <==>
      && !EndsBefore(view, now) && !StartsAfter(view, now)
      && view.versionNumber == p.instructionVersion && view.instructionType == p.instructionType
      && (view.status == IL.APPROVED || (view.status == IL.USED && p.instructionType == IL.SINGLE_USE))
  {
  }

  predicate Active(p: Payment) { p.status == DRAFT || p.status == SUBMITTED }

  // ----- Mutations ------------------------------------------------------------------

  function Record(p: Payment, e: PaymentEvent): Payment { p.(lifecycleEvents := p.lifecycleEvents + [e]) }

  /** Payment.create and the service each add a CREATE event. */
  function NewPayment(instructionId: string, view: InstructionView, amount: int, valueDate: string,
                      who: string, now: int): Payment
  {
    Payment(instructionId, view.versionNumber, view.instructionType, DRAFT, amount, valueDate, who, now,
            None, None, None, None, None, None, None, None, None, None,
            [PaymentEvent(CREATE, who, None), PaymentEvent(CREATE, who, None)])
  }

  function Updated(p: Payment, amount: int, valueDate: string, who: string, now: int): Payment {
    Record(p.(amount := amount, valueDate := valueDate, updatedAt := now), PaymentEvent(UPDATE, who, None))
  }

  function Submitted(p: Payment, who: string, now: int): Payment {
    Record(p.(status := SUBMITTED, submittedBy := Some(who), submittedAt := Some(now), updatedAt := now),
           PaymentEvent(SUBMIT, who, None))
  }

  function Approved(p: Payment, who: string, now: int): Payment {
    Record(p.(status := APPROVED, approvedBy := Some(who), approvedAt := Some(now), updatedAt := now),
           PaymentEvent(APPROVE, who, None))
  }

  function Rejected(p: Payment, reason: string, who: string, now: int): Payment {
    Record(p.(status := REJECTED, rejectedBy := Some(who), rejectedAt := Some(now), rejectionReason := Some(reason),
              updatedAt := now),
           PaymentEvent(REJECT, who, Some(reason)))
  }

  function Cancelled(p: Payment, reason: Option<string>, who: string, now: int): Payment {
    Record(p.(status := CANCELLED, cancelledBy := Some(who), cancelledAt := Some(now), cancellationReason := reason,
              updatedAt := now),
           PaymentEvent(CANCEL, who, reason))
  }

  /** When a terminal payment's holder is asked to release the instruction. */
  predicate ReleasesOnEnd(p: Payment) {
    p.instructionType == IL.SINGLE_USE && p.submittedAt.Some? && Terminal(p.status)
  }
}
