/**
 PaymentService over its version store, its security events and the instruction service it calls.
 Policy decisions, visibility and the fate of the USE request are inputs of each call. A ghost
 saga state follows the stores: every call is a run of the interleaved saga.
 */
module PaymentService {
  import opened Wrappers
  import opened VersionStore
  import Storage
  import opened SecurityEvents
  import opened Saga
  import opened SagaSafety
  import opened SagaTheorems
  import opened SagaScripts
  import opened PaymentCalls
  import IL = InstructionLifecycle
  import IS = InstructionService
  import PL = PaymentLifecycle
  import PaymentLog
  import PaymentRows
  import SagaApproval
  import InstructionLog
  import SagaHolders
  import SagaRelease

  datatype Error =
    | PaymentNotFound | InvalidStateTransition | PermissionDenied | InstructionMissing | InstructionUnusable
    | SiblingConflict | CannotMarkUsed | ServiceUnavailable | InstructionChanged | DuplicateId

  datatype Delivery = Delivered | Unreachable | ReplyLost

  /** What the surrounding services answer: VIEW and the call's own action, then USE or RELEASE_USE. */
  datatype Answers = Answers(mayView: bool, allowed: bool, mayUse: bool, delivery: Delivery)

  datatype SavedPayment = SavedPayment(version: nat, payment: PL.Payment)

  // ----- Security events --------------------------------------------------------------------

  type Event = SecurityEvent<PL.PaymentAction>

  function Author(p: PL.Payment): string {
    if p.lifecycleEvents == [] then "" else p.lifecycleEvents[|p.lifecycleEvents| - 1].actor
  }

  // ----- The instruction service seen through its current rows --------------------------------

  lemma {:induction false} OpenVersionAgrees(rows: Rows<IL.Instruction>, current: map<string, Current<IL.Instruction>>, id: string)
    requires WellFormed(rows) && Mirrors(rows, current)
    ensures OpenVersion(rows, id) == if id in current then Some(current[id].version) else None
  {
    var open := OpenVersion(rows, id);
    if open.Some? { OpenRowIsCurrent(rows, current, id, open.value); } else { NoOpenRowNoCurrent(rows, current, id); }
  }

  predicate Serves(current: map<string, Current<IL.Instruction>>, id: string, op: IL.Operation, allowed: bool) {
    id in current && IL.Permits(current[id].content, op) && allowed
  }

  /** An instruction-service operation on current rows. */
  lemma {:induction false} OperateOnCurrent(db: IS.Database, current: map<string, Current<IL.Instruction>>, excluded: set<string>,
                                            id: string, op: IL.Operation, who: string, allowed: bool, now: Clock)
    requires WellFormed(db.rows) && Mirrors(db.rows, current)
    ensures var (after, r) := IS.Serve(db, excluded, id, IS.Operate(op), who, allowed, now);
      if Serves(current, id, op, allowed)
      then r == Success(IS.Saved(current[id].version + 1, IL.Apply(current[id].content, op, who, now)))
           && Mirrors(after.rows, current[id := Current(current[id].version + 1, now, IL.Apply(current[id].content, op, who, now))])
      else after.rows == db.rows
           && r == Failure(if id !in current then IS.NotFound
                           else if !IL.Permits(current[id].content, op) then IS.InvalidStateTransition
                           else IS.PermissionDenied)
  {
    OpenVersionAgrees(db.rows, current, id);
    if id in current {
      CurrentRowIsOpen(db.rows, current, id);
      var v := current[id].version;
      AppendMovesCurrent(db.rows, current, id, v, IL.Apply(db.rows[Key(id, v)].payload, op, who, now), now);
    }
  }

  // ----- Between calls ------------------------------------------------------------------------

  /** A reachable saga state without calls in flight, in which call number n is fresh. */
  ghost predicate QuietAt(s: State, n: CallId) {
    && Reachable(s)
    && s.paymentCalls == map[] && s.instructionCalls == map[] && s.drafts == map[]
    && forall m :: m in s.sent && m.UseRequest? ==> m.call < n
  }

  /** `t` is a quiet successor of `s` in which one payment has its next version and no instruction moved. */
  ghost predicate Replaces(s: State, t: State, n: CallId, p: string, payment: PL.Payment, now: int)
    requires p in s.payments
  {
    && t.payments == s.payments[p := Current(s.payments[p].version + 1, now, payment)]
    && t.instructions == s.instructions && QuietAt(t, n)
  }

  lemma {:induction false} DirectCallReplaces(s: State, n: CallId, p: string, kind: Kind, who: string, now: int)
    requires QuietAt(s, n) && p in s.payments && Accepts(kind, s.payments[p].content.status)
    requires Passes(s, s.payments[p].content, kind, now) && !kind.KReject? && !kind.KCancel?
    ensures var payment := Written(CallOf(s, p, kind, who).(stage := Ready, payment := Checked(s, s.payments[p].content, kind)), now);
      Replaces(s, PutPayment(s, p, payment, now), n, p, payment, now)
  {
    DirectCallRuns(s, n, p, kind, who, now);
    ReachableOn(s, [LoadPayment(n, p, kind, who), CheckInstruction(n, now), WritePayment(n, now)],
                PutPayment(s, p, Written(CallOf(s, p, kind, who).(stage := Ready, payment := Checked(s, s.payments[p].content, kind)), now), now));
  }

  /** The state after a system cancel. */
  function SystemCancelled(s: State, p: string, who: string, now: int): State
    requires p in s.payments
  {
    PutPayment(s, p, PL.Cancelled(s.payments[p].content, Some("invalid at approval"), who, now), now)
    .(systemCancelled := s.systemCancelled + {p})
  }

  lemma {:induction false} SystemCancelReplaces(s: State, n: CallId, p: string, who: string, now: int)
    requires QuietAt(s, n) && p in s.payments && s.payments[p].content.status == PL.SUBMITTED
    requires !Passes(s, s.payments[p].content, KApprove, now)
    ensures Replaces(s, SystemCancelled(s, p, who, now), n, p,
                     PL.Cancelled(s.payments[p].content, Some("invalid at approval"), who, now), now)
  {
    SystemCancelRuns(s, n, p, who, now);
    ReachableOn(s, [LoadPayment(n, p, KApprove, who), CheckInstruction(n, now), WritePayment(n, now)],
                SystemCancelled(s, p, who, now));
  }

  lemma {:induction false} EndCallReplaces(s: State, n: CallId, p: string, kind: Kind, who: string, now: int)
    requires QuietAt(s, n) && p in s.payments && Accepts(kind, s.payments[p].content.status)
    requires s.payments[p].content.instructionId in s.instructions && (kind.KReject? || kind.KCancel?)
    ensures var ended := Written(CallOf(s, p, kind, who).(stage := Ready), now);
      Replaces(s, AfterEnd(s, p, ended, now), n, p, ended, now)
  {
    EndCallRuns(s, n, p, kind, who, now);
    ReachableOn(s, [LoadPayment(n, p, kind, who), CheckInstruction(n, now), WritePayment(n, now)] + [SendRelease(n)],
                AfterEnd(s, p, Written(CallOf(s, p, kind, who).(stage := Ready), now), now));
  }

  lemma {:induction false} QuietSubmit(s: State, n: CallId, id: string, p: string, payment: PL.Payment, listed: set<string>,
                                       who: string, now: int) returns (after: State)
    requires QuietAt(s, n) && CanSubmit(s, n, 0, id, p, listed, now)
    requires payment == PL.Submitted(s.payments[p].content.(instructionVersion := s.instructions[id].version + 1), who, now)
    ensures after == AfterSubmit(s, n, id, p, who, now)
    ensures QuietAt(after, n + 1) && after.instructions == Operated(s, id, IL.Use(p), who, now).instructions
    ensures after.payments == s.payments[p := Current(s.payments[p].version + 1, now, payment)]
  {
    after := AfterSubmit(s, n, id, p, who, now);
    SubmitSucceeds(s, n, 0, id, p, listed, who, now, true);
    ReachableOn(s, SubmitScript(n, 0, id, p, listed, who, now), after);
  }

  lemma {:induction false} LostReplyStaysQuiet(s: State, n: CallId, id: string, p: string, listed: set<string>, who: string, now: int)
    requires QuietAt(s, n) && CanSubmit(s, n, 0, id, p, listed, now)
    ensures var after := Used(s, n, id, p, who, now);
      && QuietAt(after, n + 1) && after.instructions == Operated(s, id, IL.Use(p), who, now).instructions
      && after.payments == s.payments
  {
    SubmitStopsAfterUse(s, n, 0, id, p, listed, who, now);
    ReachableOn(s, CheckPart(n, p, listed, who, now) + UsePart(n, 0, id, p, who, now) + [DropPaymentCall(n)],
                Used(s, n, id, p, who, now));
  }

  const LIST_LIMIT := 100

  /** One of the newest entries. */
  method Newest(rows: map<string, Storage.Document<PL.Payment>>) returns (newest: string)
    requires rows != map[]
    ensures newest in rows && forall p :: p in rows ==> rows[p].validIn <= rows[newest].validIn
  {
    newest :| newest in rows;
    var left := rows.Keys - {newest};
    while left != {}
      invariant newest in rows && left <= rows.Keys
      invariant forall p :: p in rows.Keys - left ==> rows[p].validIn <= rows[newest].validIn
      decreases left
    {
      var p :| p in left;
      left := left - {p};
      if rows[p].validIn > rows[newest].validIn { newest := p; }
    }
  }

  /** `sort("in", -1).limit(n)`: the newest n entries. */
  method NewestFirst(rows: map<string, Storage.Document<PL.Payment>>, limit: nat) returns (taken: set<string>)
    ensures taken <= rows.Keys && |taken| <= limit && (|taken| < limit ==> taken == rows.Keys)
    ensures forall p, q :: p in taken && q in rows.Keys - taken ==> rows[q].validIn <= rows[p].validIn
  {
    taken := {};
    var left := rows;
    while left != map[] && |taken| < limit
      invariant left.Keys <= rows.Keys && taken == rows.Keys - left.Keys && |taken| <= limit
      invariant forall p :: p in left ==> left[p] == rows[p]
      invariant forall p, q :: p in taken && q in left ==> rows[q].validIn <= rows[p].validIn
      decreases left.Keys
    {
      var newest := Newest(left);
      taken := taken + {newest};
      left := left - {newest};
      assert rows.Keys - left.Keys == taken;
    }
  }

  /** The newest rows carry the validity times of the current rows. */
  ghost predicate TimesOf(s: State, rows: map<string, Storage.Document<PL.Payment>>) {
    forall p :: p in rows ==> p in s.payments && s.payments[p].validIn == rows[p].validIn
  }

  lemma {:induction false} NewestIsValidListing(s: State, id: string, rows: map<string, Storage.Document<PL.Payment>>, taken: set<string>)
    requires rows.Keys == Siblings(s, id) && TimesOf(s, rows)
    requires taken <= rows.Keys && |taken| <= LIST_LIMIT && (|taken| < LIST_LIMIT ==> taken == rows.Keys)
    requires forall p, q :: p in taken && q in rows.Keys - taken ==> rows[q].validIn <= rows[p].validIn
    ensures ValidListing(s, id, taken)
  {
    forall p, q | p in taken && q in Siblings(s, id) - taken
      ensures s.payments[q].validIn <= s.payments[p].validIn
    {
      assert rows[q].validIn <= rows[p].validIn;
    }
  }

  /** What appending the next version of a payment keeps. */
  lemma {:induction false} NextVersion(rows: Rows<PL.Payment>, current: map<string, Current<PL.Payment>>, id: string,
                                       payment: PL.Payment, now: Clock)
    requires WellFormed(rows) && Mirrors(rows, current) && PaymentRows.LogsReplay(rows) && id in current
    requires PaymentRows.Extends(current[id].content, payment) && PaymentLog.AgreesWithLog(payment, current[id].version + 1)
    ensures IsOpen(rows, id, current[id].version)
    ensures var after := AppendRow(rows, id, current[id].version, payment, now);
      && PaymentRows.LogsReplay(after)
      && Mirrors(after, current[id := Current(current[id].version + 1, now, payment)])
  {
    var v := current[id].version;
    CurrentRowIsOpen(rows, current, id);
    AppendMovesCurrent(rows, current, id, v, payment, now);
    AppendKeepsChains(rows, id, v, payment, now);
    PaymentRows.AppendKeepsLogs(rows, id, v, payment, now);
  }

  // ----- The service object ----------------------------------------------------------------------

  class PaymentService {
    const repo: Storage.VersionCollection<PL.Payment>
    const instructions: IS.InstructionService
    const excluded: set<string>
    var securityEvents: seq<Event>
    /** The saga state the stores stand for, and a call number not used yet. */
    ghost var saga: State
    ghost var nextCall: CallId

    ghost predicate Stored()
      reads this, repo
    {
      && repo.Valid() && Mirrors(repo.rows, saga.payments)
      && EventsMatch(repo.rows, Author, securityEvents, excluded) && PaymentRows.LogsReplay(repo.rows)
    }

    ghost predicate Instructed()
      reads this, instructions, instructions.repository
    {
      instructions.Valid() && Mirrors(instructions.repository.rows, saga.instructions)
    }

    ghost predicate Apart()
      reads this, instructions
    {
      var mine: object, theirs: object, service: object := repo, instructions.repository, instructions;
      mine != theirs && mine != service
    }

    ghost predicate Quiet()
      reads this
    {
      QuietAt(saga, nextCall)
    }

    ghost predicate InStep()
      reads this, repo, instructions, instructions.repository
    {
      Apart() && Stored() && Instructed() && Quiet()
    }

    /** Between calls no request is on its way either: each was served, refused or lost within its call. */
    ghost predicate Valid()
      reads this, repo, instructions, instructions.repository
    {
      InStep() && saga.pending == {}
    }

    // ----- What a call leaves behind, given the events before it -----------------------------------

    ghost predicate Unlogged(before: seq<Event>)
      reads this
    {
      securityEvents == before
    }

    ghost predicate Denied(before: seq<Event>, action: PL.PaymentAction, who: string, subject: Key)
      reads this
    {
      Logs(before, securityEvents, excluded, action, false, who, subject)
    }

    ghost predicate Noted(before: seq<Event>, action: PL.PaymentAction, who: string, subject: Key)
      reads this
    {
      Logs(before, securityEvents, excluded, action, true, who, subject)
    }

    /** The caller is handed the payment's stored version. */
    ghost predicate Replied(paymentId: string, r: Result<SavedPayment, Error>)
      reads this
    {
      && r.Success? && paymentId in saga.payments
      && r.value == SavedPayment(saga.payments[paymentId].version, saga.payments[paymentId].content)
    }

    /** Both stores start empty. */
    constructor (repo: Storage.VersionCollection<PL.Payment>, instructions: IS.InstructionService, excluded: set<string>)
      requires repo.Valid() && repo.rows == map[] && instructions.Valid() && instructions.repository.rows == map[]
      requires var mine: object, theirs: object, service: object := repo, instructions.repository, instructions;
        mine != theirs && mine != service
      ensures Valid() && saga == START
      ensures this.repo == repo && this.instructions == instructions && this.excluded == excluded
    {
      this.repo, this.instructions, this.excluded := repo, instructions, excluded;
      securityEvents := [];
      saga, nextCall := START, 0;
      new;
      EmptyMirrors<PL.Payment>();
      EmptyMirrors<IL.Instruction>();
      assert START == Run(START, [], true);
    }

    method EmitEvent(e: Event)
      modifies this`securityEvents
      ensures securityEvents == Recorded(old(securityEvents), excluded, e)
    {
      if e.actor !in excluded {
        securityEvents := securityEvents + [e];
      }
    }

    /** A denial is recorded against the version the call has read. */
    method RecordDenial(action: PL.PaymentAction, who: string, subject: Key)
      requires Stored()
      modifies this`securityEvents
      ensures Stored()
      ensures Logs(old(securityEvents), securityEvents, excluded, action, false, who, subject)
    {
      EventKeepsMatch(repo.rows, repo.rows, Author, securityEvents, excluded, SecurityEvent(action, false, who, subject));
      EmitEvent(SecurityEvent(action, false, who, subject));
    }

    method GetCurrent(paymentId: string) returns (r: Result<SavedPayment, Error>)
      requires Stored()
      ensures r == if paymentId !in saga.payments then Failure(PaymentNotFound)
                   else Success(SavedPayment(saga.payments[paymentId].version, saga.payments[paymentId].content))
    {
      var current := repo.GetCurrent(paymentId);
      if current.Failure? {
        NoOpenRowNoCurrent(repo.rows, saga.payments, paymentId);
        return Failure(PaymentNotFound);
      }
      OpenRowIsCurrent(repo.rows, saga.payments, paymentId, current.value.versionNumber);
      r := Success(SavedPayment(current.value.versionNumber, current.value.row.payload));
    }

    /** GET /instructions/{id}: 404 before 403. */
    method GetInstruction(id: string, mayView: bool) returns (r: Result<Current<IL.Instruction>, Error>)
      requires Instructed()
      ensures r == if id !in saga.instructions then Failure(InstructionMissing)
                   else if !mayView then Failure(PermissionDenied)
                   else Success(saga.instructions[id])
    {
      var current := instructions.repository.GetCurrent(id);
      if current.Failure? {
        NoOpenRowNoCurrent(instructions.repository.rows, saga.instructions, id);
        return Failure(InstructionMissing);
      }
      OpenRowIsCurrent(instructions.repository.rows, saga.instructions, id, current.value.versionNumber);
      if !mayView { return Failure(PermissionDenied); }
      r := Success(Current(current.value.versionNumber, current.value.row.validIn, current.value.row.payload));
    }

    /** Appends the version and writes its security event, as one transaction. */
    method Persist(paymentId: string, payment: PL.Payment, action: PL.PaymentAction, now: Clock) returns (saved: SavedPayment)
      requires repo.Valid() && EventsMatch(repo.rows, Author, securityEvents, excluded)
      requires paymentId in saga.payments && IsOpen(repo.rows, paymentId, saga.payments[paymentId].version)
      modifies this`securityEvents, repo
      ensures repo.Valid() && EventsMatch(repo.rows, Author, securityEvents, excluded)
      ensures saved == SavedPayment(saga.payments[paymentId].version + 1, payment)
      ensures repo.rows == AppendRow(old(repo.rows), paymentId, saga.payments[paymentId].version, payment, now)
      ensures Logs(old(securityEvents), securityEvents, excluded, action, true, Author(payment), Key(paymentId, saved.version))
    {
      ghost var before := repo.rows;
      ghost var v := saga.payments[paymentId].version;
      AppendKeepsChains(before, paymentId, v, payment, now);
      var appended := repo.AppendVersion(paymentId, payment, now);
      if appended.Success? { OnlyOneOpen(before, paymentId, v, appended.value.versionNumber - 1); }
      var event := SecurityEvent(action, true, Author(payment), Key(paymentId, appended.value.versionNumber));
      EventKeepsMatch(before, repo.rows, Author, securityEvents, excluded, event);
      EmitEvent(event);
      saved := SavedPayment(appended.value.versionNumber, appended.value.row.payload);
    }

    // ----- The release after a reject or cancel ------------------------------------------

    /** Best effort, once: without a user token no request is sent, and a refusal is final. */
    method TryRelease(paymentId: string, payment: PL.Payment, token: bool, who: string, allowed: bool, now: Clock)
      requires InStep()
      requires saga.pending == if PL.ReleasesOnEnd(payment) && token then {ReleaseRequest(payment.instructionId, paymentId)} else {}
      modifies this`saga, instructions, instructions.repository
      ensures Valid()
      ensures saga == Released(old(saga), paymentId, payment, token && allowed, who, now)
      ensures payment.instructionId in old(saga).instructions ==>
        FreesIfHeld(old(saga), saga, payment.instructionId, paymentId,
                    token && allowed && payment.instructionType == IL.SINGLE_USE && payment.submittedAt.Some?
                    && (payment.status == PL.REJECTED || payment.status == PL.CANCELLED), who, now)
    {
      if payment.instructionId in saga.instructions {
        ReleasedFrees(saga, paymentId, payment, token && allowed, who, now);
      }
      if payment.instructionType != IL.SINGLE_USE { return; }
      if payment.submittedAt.None? { return; }
      if payment.status != PL.REJECTED && payment.status != PL.CANCELLED { return; }
      if !token { return; }
      ReleaseUse(payment.instructionId, paymentId, who, allowed, now);
    }

    /** POST /instructions/{id}/release-use: served at once, or refused for good. */
    method ReleaseUse(id: string, paymentId: string, who: string, allowed: bool, now: Clock)
      requires InStep() && saga.pending == {ReleaseRequest(id, paymentId)}
      modifies this`saga, instructions, instructions.repository
      ensures Valid()
      ensures saga == if allowed && Releasable(old(saga), id, paymentId)
                      then Operated(old(saga), id, IL.ReleaseUse(paymentId), who, now).(pending := {})
                      else old(saga).(pending := {})
    {
      var released := PostReleaseUse(id, paymentId, who, allowed, now);
      assert Stored();
      ghost var after := (if released then Operated(saga, id, IL.ReleaseUse(paymentId), who, now) else saga).(pending := {});
      if released { ReleaseReaches(saga, id, paymentId, who, now); } else { RefusalReaches(saga, ReleaseRequest(id, paymentId)); }
      assert after.payments == saga.payments;
      saga := after;
      assert Quiet() && Instructed();
    }

    method PostReleaseUse(id: string, paymentId: string, who: string, allowed: bool, now: Clock) returns (ok: bool)
      requires Instructed()
      modifies instructions, instructions.repository
      ensures instructions.Valid() && (ok <==> allowed && Releasable(saga, id, paymentId))
      ensures Mirrors(instructions.repository.rows,
                      if ok then Operated(saga, id, IL.ReleaseUse(paymentId), who, now).instructions else saga.instructions)
    {
      OperateOnCurrent(instructions.Db(), saga.instructions, instructions.excluded, id, IL.ReleaseUse(paymentId), who, allowed, now);
      var released := instructions.ReleaseUse(id, paymentId, who, allowed, now);
      ok := released.Success?;
    }

    /** POST /instructions/{id}/use; a failure says whether the status refused it (409). */
    method PostUse(id: string, paymentId: string, who: string, allowed: bool, now: Clock) returns (r: Result<nat, IS.ServiceError>)
      requires Instructed()
      modifies instructions, instructions.repository
      ensures instructions.Valid()
      ensures r.Success? <==> Usable(saga, id, allowed)
      ensures r == Failure(IS.InvalidStateTransition) <==> RefusesUse(saga, id)
      ensures Mirrors(instructions.repository.rows,
                      if r.Success? then Operated(saga, id, IL.Use(paymentId), who, now).instructions else saga.instructions)
    {
      OperateOnCurrent(instructions.Db(), saga.instructions, instructions.excluded, id, IL.Use(paymentId), who, allowed, now);
      var used := instructions.Use(id, paymentId, who, allowed, now);
      r := if used.Success? then Success(used.value.version) else Failure(used.error);
    }

    // ----- Create and update ----------------------------------------------------------------

    method Create(paymentId: string, instructionId: string, terms: Terms, who: string, answers: Answers, now: Clock)
      returns (r: Result<SavedPayment, Error>)
      requires Valid()
      modifies this, repo
      ensures Valid()
      ensures r.Success? ==> instructionId in old(saga).instructions && saga == Drafted(old(saga), instructionId, paymentId, terms, who, now)
      ensures r.Failure? ==> saga == old(saga)
      ensures
        if instructionId !in old(saga).instructions then r == Failure(InstructionMissing) && Unlogged(old(securityEvents))
        else if !answers.mayView then r == Failure(PermissionDenied) && Unlogged(old(securityEvents))
        else
          var i := old(saga).instructions[instructionId];
          if i.content.status !in {IL.DRAFT, IL.SUBMITTED, IL.APPROVED} || i.content.route.endDate < now
          then r == Failure(InstructionUnusable) && Unlogged(old(securityEvents))
          else if !answers.allowed then r == Failure(PermissionDenied) && Denied(old(securityEvents), PL.CREATE, who, Key(paymentId, 0))
          else if paymentId in old(saga).payments then r == Failure(DuplicateId) && Unlogged(old(securityEvents))
          else
            && r == Success(SavedPayment(1, PL.Payment(
                 instructionId, i.version, i.content.route.instructionType, PL.DRAFT, terms.amount, terms.valueDate, who, now,
                 None, None, None, None, None, None, None, None, None, None,
                 [PL.PaymentEvent(PL.CREATE, who, None), PL.PaymentEvent(PL.CREATE, who, None)])))
            && Replied(paymentId, r) && Noted(old(securityEvents), PL.CREATE, who, Key(paymentId, 1))
    {
      var instruction := GetInstruction(instructionId, answers.mayView);
      if instruction.Failure? { return Failure(instruction.error); }
      var view := View(instruction.value);
      if !PL.BacksDraft(view, now) { return Failure(InstructionUnusable); }
      var payment := PL.NewPayment(instructionId, view, terms.amount, terms.valueDate, who, now);
      if !answers.allowed {
        RecordDenial(PL.CREATE, who, Key(paymentId, 0));
        return Failure(PermissionDenied);
      }
      ghost var before, rows := saga, repo.rows;
      var inserted := repo.InsertInitial(paymentId, payment, now);
      if inserted.Failure? {
        ghost var n := VersionsAreOneToN(rows, paymentId, 1);
        OpenRowIsCurrent(rows, saga.payments, paymentId, n);
        return Failure(DuplicateId);
      }
      InsertAddsCurrent(rows, before.payments, paymentId, payment, now);
      PaymentLog.NewAgrees(instructionId, view, terms.amount, terms.valueDate, who, now);
      PaymentRows.InsertKeepsLogs(rows, paymentId, payment, now);
      EventKeepsMatch(rows, repo.rows, Author, securityEvents, excluded, SecurityEvent(PL.CREATE, true, who, Key(paymentId, 1)));
      EmitEvent(SecurityEvent(PL.CREATE, true, who, Key(paymentId, 1)));
      DraftSucceeds(before, nextCall, instructionId, paymentId, terms, who, now, true);
      saga := Drafted(before, instructionId, paymentId, terms, who, now);
      ReachableOn(before, DraftScript(nextCall, instructionId, paymentId, terms, who, now), saga);
      r := Success(SavedPayment(inserted.value.versionNumber, inserted.value.row.payload));
    }

    /** Persist a next version and follow it in the saga state, the instruction rows already being there. */
    method PersistAs(paymentId: string, payment: PL.Payment, action: PL.PaymentAction, now: Clock, ghost after: State, ghost n: CallId)
      returns (saved: SavedPayment)
      requires Apart() && Stored() && paymentId in saga.payments && QuietAt(after, n)
      requires after.payments == saga.payments[paymentId := Current(saga.payments[paymentId].version + 1, now, payment)]
      requires PaymentRows.Extends(saga.payments[paymentId].content, payment)
      requires instructions.Valid() && Mirrors(instructions.repository.rows, after.instructions)
      modifies this`securityEvents, this`saga, this`nextCall, repo
      ensures InStep() && saga == after && nextCall == n
      ensures saved == SavedPayment(saga.payments[paymentId].version, payment)
      ensures Logs(old(securityEvents), securityEvents, excluded, action, true, Author(payment), Key(paymentId, saved.version))
    {
      ghost var rows := instructions.repository.rows;
      PaymentLog.PaymentLogsReplay(after, paymentId);
      NextVersion(repo.rows, saga.payments, paymentId, payment, now);
      saved := Persist(paymentId, payment, action, now);
      assert instructions.Valid() && instructions.repository.rows == rows;
      nextCall := n;
      Follow(after);
    }

    /** The saga state catches up with the stores. */
    ghost method Follow(after: State)
      requires Apart() && repo.Valid() && EventsMatch(repo.rows, Author, securityEvents, excluded) && instructions.Valid()
      requires PaymentRows.LogsReplay(repo.rows)
      requires Mirrors(repo.rows, after.payments) && Mirrors(instructions.repository.rows, after.instructions)
      requires QuietAt(after, nextCall)
      modifies this`saga
      ensures InStep() && saga == after
    {
      saga := after;
    }

    method Update(paymentId: string, instructionId: string, terms: Terms, who: string, answers: Answers, now: Clock)
      returns (r: Result<SavedPayment, Error>)
      requires Valid()
      modifies this`securityEvents, this`saga, this`nextCall, repo
      ensures Valid()
      ensures r.Success? ==> saga == Revised(old(saga), paymentId, terms, who, now)
      ensures r.Failure? ==> saga == old(saga)
      ensures
        if paymentId !in old(saga).payments then r == Failure(PaymentNotFound) && Unlogged(old(securityEvents))
        else
          var p := old(saga).payments[paymentId];
          if p.content.status != PL.DRAFT then r == Failure(InvalidStateTransition) && Unlogged(old(securityEvents))
          else if p.content.instructionId != instructionId then r == Failure(InstructionChanged) && Unlogged(old(securityEvents))
          else if instructionId !in old(saga).instructions then r == Failure(InstructionMissing) && Unlogged(old(securityEvents))
          else if !answers.mayView then r == Failure(PermissionDenied) && Unlogged(old(securityEvents))
          else
            var i := old(saga).instructions[instructionId];
            if i.content.status !in {IL.DRAFT, IL.SUBMITTED, IL.APPROVED} || i.content.route.endDate < now
            then r == Failure(InstructionUnusable) && Unlogged(old(securityEvents))
            else if !answers.allowed
            then r == Failure(PermissionDenied) && Denied(old(securityEvents), PL.UPDATE, who, Key(paymentId, p.version))
            else
              && r == Success(SavedPayment(p.version + 1, p.content.(
                   amount := terms.amount, valueDate := terms.valueDate, instructionVersion := i.version, updatedAt := now,
                   lifecycleEvents := p.content.lifecycleEvents + [PL.PaymentEvent(PL.UPDATE, who, None)])))
              && Replied(paymentId, r) && Noted(old(securityEvents), PL.UPDATE, who, Key(paymentId, p.version + 1))
    {
      var current := GetCurrent(paymentId);
      if current.Failure? { return Failure(current.error); }
      var payment := current.value.payment;
      if payment.status != PL.DRAFT { return Failure(InvalidStateTransition); }
      if payment.instructionId != instructionId { return Failure(InstructionChanged); }
      var instruction := GetInstruction(instructionId, answers.mayView);
      if instruction.Failure? { return Failure(instruction.error); }
      if !PL.BacksDraft(View(instruction.value), now) { return Failure(InstructionUnusable); }
      payment := payment.(amount := terms.amount, valueDate := terms.valueDate);
      payment := payment.(instructionVersion := instruction.value.version, updatedAt := now);
      if !answers.allowed {
        RecordDenial(PL.UPDATE, who, Key(paymentId, current.value.version));
        return Failure(PermissionDenied);
      }
      payment := PL.Record(payment, PL.PaymentEvent(PL.UPDATE, who, None));
      DirectCallReplaces(saga, nextCall, paymentId, KUpdate(terms.amount, terms.valueDate), who, now);
      var saved := PersistAs(paymentId, payment, PL.UPDATE, now, PutPayment(saga, paymentId, payment, now), nextCall);
      r := Success(saved);
    }

    // ----- Submit -------------------------------------------------------------------------------

    /** The open rows of one instruction's payments. */
    method FindAssociated(instructionId: string) returns (rows: map<string, Storage.Document<PL.Payment>>)
      requires Stored()
      ensures rows.Keys == Siblings(saga, instructionId)
      ensures TimesOf(saga, rows) && forall p :: p in rows ==> rows[p].payload == saga.payments[p].content
    {
      var open := repo.FindAllOpen();
      forall p
        ensures p in open <==> p in saga.payments
        ensures p in open ==> saga.payments[p] == Current(open[p].versionNumber, open[p].validIn, open[p].payload)
      {
        if p in open {
          assert repo.IsOpenDocument(p, open[p]);
          OpenRowIsCurrent(repo.rows, saga.payments, p, open[p].versionNumber);
        }
        if p in saga.payments { CurrentRowIsOpen(repo.rows, saga.payments, p); }
      }
      rows := map p | p in open && open[p].payload.instructionId == instructionId :: open[p];
    }

    /** list_current for one instruction: the newest 100 open rows. */
    method ListAssociated(instructionId: string) returns (listed: map<string, PL.Payment>)
      requires Stored()
      ensures ValidListing(saga, instructionId, listed.Keys)
      ensures forall p :: p in listed ==> p in saga.payments && listed[p] == saga.payments[p].content
    {
      var rows := FindAssociated(instructionId);
      var taken := NewestFirst(rows, LIST_LIMIT);
      NewestIsValidListing(saga, instructionId, rows, taken);
      listed := map p | p in taken :: rows[p].payload;
      assert listed.Keys == taken;
    }

    /** The USE request with its possible fates, and the re-read of the instruction's version. */
    method MarkUsed(id: string, paymentId: string, who: string, allowed: bool, delivery: Delivery, now: Clock)
      returns (r: Result<nat, Error>)
      requires Instructed()
      modifies instructions, instructions.repository
      ensures instructions.Valid()
      ensures r.Success? <==> Usable(saga, id, allowed) && delivery == Delivered
      ensures r == Failure(CannotMarkUsed) <==> RefusesUse(saga, id) && delivery != Unreachable
      ensures r.Failure? ==> r.error == CannotMarkUsed || r.error == ServiceUnavailable
      ensures Mirrors(instructions.repository.rows,
                      if Usable(saga, id, allowed) && delivery != Unreachable then Operated(saga, id, IL.Use(paymentId), who, now).instructions
                      else saga.instructions)
      ensures r.Success? ==> r.value == saga.instructions[id].version + 1
    {
      if delivery == Unreachable { return Failure(ServiceUnavailable); }
      var used := PostUse(id, paymentId, who, allowed, now);
      if used.Failure? { return Failure(if used.error == IS.InvalidStateTransition then CannotMarkUsed else ServiceUnavailable); }
      if delivery == ReplyLost { return Failure(ServiceUnavailable); }
      var again := instructions.repository.GetCurrent(id);
      ghost var marked := Operated(saga, id, IL.Use(paymentId), who, now).instructions;
      if again.Failure? { NoOpenRowNoCurrent(instructions.repository.rows, marked, id); }
      OpenRowIsCurrent(instructions.repository.rows, marked, id, again.value.versionNumber);
      r := Success(again.value.versionNumber);
    }

    /** Fills in the submission, the log entry included. */
    method FillSubmission(current: PL.Payment, instructionVersion: nat, who: string, now: Clock) returns (payment: PL.Payment)
      ensures payment == PL.Submitted(current.(instructionVersion := instructionVersion), who, now)
    {
      payment := current.(instructionVersion := instructionVersion);
      payment := payment.(status := PL.SUBMITTED);
      payment := payment.(submittedBy := Some(who), submittedAt := Some(now), updatedAt := now);
      payment := PL.Record(payment, PL.PaymentEvent(PL.SUBMIT, who, None));
    }

    /** Where a failed USE leaves the saga state: nowhere, unless only the reply was lost. */
    ghost method FollowFailedUse(id: string, paymentId: string, listed: set<string>, who: string, answers: Answers, now: Clock)
      requires Apart() && Stored() && Quiet() && saga.pending == {} && CanSubmit(saga, nextCall, 0, id, paymentId, listed, now)
      requires instructions.Valid()
      requires Mirrors(instructions.repository.rows,
                      if answers.mayUse && answers.delivery == ReplyLost then Operated(saga, id, IL.Use(paymentId), who, now).instructions
                      else saga.instructions)
      modifies this`saga, this`nextCall
      ensures Valid()
      ensures FailsWith(old(saga), saga, old(nextCall), paymentId, ServiceUnavailable, who, answers, now)
    {
      if answers.mayUse && answers.delivery == ReplyLost {
        ghost var before, n := saga, nextCall;
        LostReplyStaysQuiet(before, n, id, paymentId, listed, who, now);
        UsedFields(before, n, paymentId, who, now);
        nextCall := n + 1;
        Follow(Used(before, n, id, paymentId, who, now));
      }
    }

    /** The SINGLE_USE part of submit, from the USE request on. */
    method SubmitSingleUse(paymentId: string, current: SavedPayment, who: string, answers: Answers, now: Clock, ghost listed: set<string>)
      returns (r: Result<SavedPayment, Error>)
      requires Valid() && CanSubmit(saga, nextCall, 0, current.payment.instructionId, paymentId, listed, now)
      requires current == SavedPayment(saga.payments[paymentId].version, saga.payments[paymentId].content)
      modifies this`securityEvents, this`saga, this`nextCall, repo, instructions, instructions.repository
      ensures Valid()
      ensures r.Success? <==> answers.mayUse && answers.delivery == Delivered
      ensures r.Success? ==> saga == AfterSubmit(old(saga), old(nextCall), current.payment.instructionId, paymentId, who, now)
      ensures r.Success? ==> Replied(paymentId, r) && Noted(old(securityEvents), PL.SUBMIT, who, Key(paymentId, current.version + 1))
      ensures r.Failure? ==> r.error == ServiceUnavailable && Denied(old(securityEvents), PL.SUBMIT, who, Key(paymentId, current.version))
      ensures r.Failure? ==> FailsWith(old(saga), saga, old(nextCall), paymentId, ServiceUnavailable, who, answers, now)
    {
      var id := current.payment.instructionId;
      var marked := MarkUsed(id, paymentId, who, answers.mayUse, answers.delivery, now);
      assert Stored();
      if marked.Failure? {
        RecordDenial(PL.SUBMIT, who, Key(paymentId, current.version));
        FollowFailedUse(id, paymentId, listed, who, answers, now);
        return Failure(marked.error);
      }
      var saved := WriteAfterUse(id, paymentId, current.payment, marked.value, who, now, listed);
      r := Success(saved);
    }

    /** The payment's own write, against the version its USE left behind. */
    method WriteAfterUse(id: string, paymentId: string, current: PL.Payment, version: nat, who: string, now: Clock, ghost listed: set<string>)
      returns (saved: SavedPayment)
      requires Apart() && Stored() && Quiet() && saga.pending == {} && CanSubmit(saga, nextCall, 0, id, paymentId, listed, now)
      requires current == saga.payments[paymentId].content && version == saga.instructions[id].version + 1
      requires instructions.Valid()
      requires Mirrors(instructions.repository.rows, Operated(saga, id, IL.Use(paymentId), who, now).instructions)
      modifies this`securityEvents, this`saga, this`nextCall, repo
      ensures Valid() && saga == AfterSubmit(old(saga), old(nextCall), id, paymentId, who, now)
      ensures Replied(paymentId, Success(saved))
      ensures Noted(old(securityEvents), PL.SUBMIT, who, Key(paymentId, old(saga).payments[paymentId].version + 1))
    {
      var payment := FillSubmission(current, version, who, now);
      ghost var after := QuietSubmit(saga, nextCall, id, paymentId, payment, listed, who, now);
      saved := PersistAs(paymentId, payment, PL.SUBMIT, now, after, nextCall + 1);
    }

    /** The reads of submit: the DRAFT, its APPROVED instruction, and the sibling check. */
    method LoadForSubmit(paymentId: string, mayView: bool, now: Clock)
      returns (r: Result<SavedPayment, Error>, instructionVersion: nat, ghost listed: set<string>)
      requires Valid()
      ensures
        if paymentId !in saga.payments then r == Failure(PaymentNotFound)
        else
          var p := saga.payments[paymentId].content;
          if p.status != PL.DRAFT then r == Failure(InvalidStateTransition)
          else if p.instructionId !in saga.instructions then r == Failure(InstructionMissing)
          else if !mayView then r == Failure(PermissionDenied)
          else
            var i := saga.instructions[p.instructionId].content;
            if i.status != IL.APPROVED || i.route.endDate < now then r == Failure(InstructionUnusable)
            else if p.instructionType == IL.SINGLE_USE && TwoUnfinished(saga, listed) then r == Failure(SiblingConflict)
            else r.Success?
      ensures r.Success? || r == Failure(SiblingConflict) ==> RivalDecides(saga, paymentId, listed)
      ensures r.Success? ==>
        Submittable(saga, paymentId, now) && r.value == SavedPayment(saga.payments[paymentId].version, saga.payments[paymentId].content)
      ensures r.Success? ==> instructionVersion == saga.instructions[r.value.payment.instructionId].version
      ensures r.Success? && r.value.payment.instructionType == IL.SINGLE_USE ==>
        CanSubmit(saga, nextCall, 0, r.value.payment.instructionId, paymentId, listed, now)
    {
      listed, instructionVersion := {}, 0;
      r := GetCurrent(paymentId);
      if r.Failure? { return; }
      var payment := r.value.payment;
      if payment.status != PL.DRAFT { r := Failure(InvalidStateTransition); return; }
      var id := payment.instructionId;
      var instruction := GetInstruction(id, mayView);
      if instruction.Failure? { r := Failure(instruction.error); return; }
      if !PL.BacksSubmit(View(instruction.value), now) { r := Failure(InstructionUnusable); return; }
      instructionVersion := instruction.value.version;
      if payment.instructionType == IL.SINGLE_USE {
        var associated := ListAssociated(id);
        var active := set p | p in associated && (associated[p].status == PL.DRAFT || associated[p].status == PL.SUBMITTED);
        listed := associated.Keys;
        assert active == ActiveAmong(saga, listed);
        ListingDecides(saga, paymentId, listed);
        if |active| > 1 { r := Failure(SiblingConflict); }
      }
    }

    /** `listed` is what list_current returned for the sibling check. */
    method Submit(paymentId: string, who: string, answers: Answers, now: Clock)
      returns (r: Result<SavedPayment, Error>, ghost listed: set<string>)
      requires Valid()
      modifies this`securityEvents, this`saga, this`nextCall, repo, instructions, instructions.repository
      ensures Valid()
      ensures
        if paymentId !in old(saga).payments then r == Failure(PaymentNotFound) && Unlogged(old(securityEvents))
        else
          var p := old(saga).payments[paymentId];
          if p.content.status != PL.DRAFT then r == Failure(InvalidStateTransition) && Unlogged(old(securityEvents))
          else if p.content.instructionId !in old(saga).instructions
          then r == Failure(InstructionMissing) && Unlogged(old(securityEvents))
          else if !answers.mayView then r == Failure(PermissionDenied) && Unlogged(old(securityEvents))
          else
            var i := old(saga).instructions[p.content.instructionId];
            var single := p.content.instructionType == IL.SINGLE_USE;
            if i.content.status != IL.APPROVED || i.content.route.endDate < now
            then r == Failure(InstructionUnusable) && Unlogged(old(securityEvents))
            else if single && TwoUnfinished(old(saga), listed) then r == Failure(SiblingConflict) && Unlogged(old(securityEvents))
            else if !answers.allowed || (single && !(answers.mayUse && answers.delivery == Delivered))
            then r == Failure(if answers.allowed then ServiceUnavailable else PermissionDenied)
                 && Denied(old(securityEvents), PL.SUBMIT, who, Key(paymentId, p.version))
            else
              && r == Success(SavedPayment(p.version + 1, p.content.(
                   status := PL.SUBMITTED, submittedBy := Some(who), submittedAt := Some(now), updatedAt := now,
                   instructionVersion := if single then i.version + 1 else i.version,
                   lifecycleEvents := p.content.lifecycleEvents + [PL.PaymentEvent(PL.SUBMIT, who, None)])))
              && Replied(paymentId, r) && Noted(old(securityEvents), PL.SUBMIT, who, Key(paymentId, p.version + 1))
      ensures r.Success? || r == Failure(SiblingConflict) ==> RivalDecides(old(saga), paymentId, listed)
      ensures SubmitLeaves(old(saga), saga, old(nextCall), paymentId, r, who, answers, now)
    {
      var current, version;
      current, version, listed := LoadForSubmit(paymentId, answers.mayView, now);
      r := current;
      if current.Success? { r := FinishSubmit(paymentId, current.value, version, who, answers, now, listed); }
    }

    /** Submit after its reads: authorization, USE if the snapshot is SINGLE_USE, and the write. */
    method FinishSubmit(paymentId: string, current: SavedPayment, version: nat, who: string, answers: Answers, now: Clock,
                        ghost listed: set<string>)
      returns (r: Result<SavedPayment, Error>)
      requires Valid() && Submittable(saga, paymentId, now)
      requires current == SavedPayment(saga.payments[paymentId].version, saga.payments[paymentId].content)
      requires version == saga.instructions[current.payment.instructionId].version
      requires current.payment.instructionType == IL.SINGLE_USE ==>
                 CanSubmit(saga, nextCall, 0, current.payment.instructionId, paymentId, listed, now)
      modifies this`securityEvents, this`saga, this`nextCall, repo, instructions, instructions.repository
      ensures Valid()
      ensures
        var single := current.payment.instructionType == IL.SINGLE_USE;
        if !answers.allowed || (single && !(answers.mayUse && answers.delivery == Delivered))
        then r == Failure(if answers.allowed then ServiceUnavailable else PermissionDenied)
             && Denied(old(securityEvents), PL.SUBMIT, who, Key(paymentId, current.version))
        else
          && r == Success(SavedPayment(current.version + 1, current.payment.(
               status := PL.SUBMITTED, submittedBy := Some(who), submittedAt := Some(now), updatedAt := now,
               instructionVersion := if single then version + 1 else version,
               lifecycleEvents := current.payment.lifecycleEvents + [PL.PaymentEvent(PL.SUBMIT, who, None)])))
          && Replied(paymentId, r) && Noted(old(securityEvents), PL.SUBMIT, who, Key(paymentId, current.version + 1))
      ensures SubmitLeaves(old(saga), saga, old(nextCall), paymentId, r, who, answers, now)
    {
      if !answers.allowed {
        RecordDenial(PL.SUBMIT, who, Key(paymentId, current.version));
        return Failure(PermissionDenied);
      }
      SubmittedFields(saga, nextCall, paymentId, who, now);
      if current.payment.instructionType == IL.SINGLE_USE {
        r := SubmitSingleUse(paymentId, current, who, answers, now, listed);
      } else {
        var saved := SubmitStanding(paymentId, current.payment, version, who, now);
        r := Success(saved);
      }
    }

    /** The rest of submit for a STANDING snapshot: no USE, just the write. */
    method SubmitStanding(paymentId: string, payment: PL.Payment, version: nat, who: string, now: Clock) returns (saved: SavedPayment)
      requires Valid() && Submittable(saga, paymentId, now)
      requires payment == saga.payments[paymentId].content && payment.instructionType != IL.SINGLE_USE
      requires version == saga.instructions[payment.instructionId].version
      modifies this`securityEvents, this`saga, this`nextCall, repo
      ensures Valid()
      ensures saga == PutPayment(old(saga), paymentId, PL.Submitted(payment.(instructionVersion := version), who, now), now)
      ensures Replied(paymentId, Success(saved))
      ensures Noted(old(securityEvents), PL.SUBMIT, who, Key(paymentId, old(saga).payments[paymentId].version + 1))
    {
      DirectCallReplaces(saga, nextCall, paymentId, KSubmit, who, now);
      var submitted := FillSubmission(payment, version, who, now);
      saved := PersistAs(paymentId, submitted, PL.SUBMIT, now, PutPayment(saga, paymentId, submitted, now), nextCall);
    }

    // ----- Approve, reject, cancel -------------------------------------------------------------

    /** A payment whose check fails is cancelled instead; its release is asked for without a user token. */
    method Approve(paymentId: string, who: string, answers: Answers, now: Clock) returns (r: Result<SavedPayment, Error>)
      requires Valid()
      modifies this`securityEvents, this`saga, this`nextCall, repo, instructions, instructions.repository
      ensures Valid()
      ensures r.Failure? ==> saga == old(saga)
      ensures r.Success? ==> saga == Decided(old(saga), paymentId, who, now)
      ensures
        if paymentId !in old(saga).payments then r == Failure(PaymentNotFound) && Unlogged(old(securityEvents))
        else
          var p := old(saga).payments[paymentId];
          if p.content.status != PL.SUBMITTED then r == Failure(InvalidStateTransition) && Unlogged(old(securityEvents))
          else if p.content.instructionId in old(saga).instructions && !answers.mayView
          then r == Failure(PermissionDenied) && Unlogged(old(securityEvents))
          else if !StillValid(old(saga), paymentId, now) then
            && r == Success(SavedPayment(p.version + 1, p.content.(
                 status := PL.CANCELLED, cancelledBy := Some(who), cancelledAt := Some(now), updatedAt := now,
                 cancellationReason := Some("invalid at approval"),
                 lifecycleEvents := p.content.lifecycleEvents
                                    + [PL.PaymentEvent(PL.CANCEL, who, Some("invalid at approval"))])))
            && Replied(paymentId, r) && Noted(old(securityEvents), PL.CANCEL, who, Key(paymentId, p.version + 1))
          else if !answers.allowed
          then r == Failure(PermissionDenied) && Denied(old(securityEvents), PL.APPROVE, who, Key(paymentId, p.version))
          else
            && r == Success(SavedPayment(p.version + 1, p.content.(
                 status := PL.APPROVED, approvedBy := Some(who), approvedAt := Some(now), updatedAt := now,
                 lifecycleEvents := p.content.lifecycleEvents + [PL.PaymentEvent(PL.APPROVE, who, None)])))
            && Replied(paymentId, r) && Noted(old(securityEvents), PL.APPROVE, who, Key(paymentId, p.version + 1))
    {
      var current := GetCurrent(paymentId);
      if current.Failure? { return Failure(current.error); }
      var payment := current.value.payment;
      if payment.status != PL.SUBMITTED { return Failure(InvalidStateTransition); }
      var instruction := GetInstruction(payment.instructionId, answers.mayView);
      if instruction.Failure? && instruction.error != InstructionMissing { return Failure(instruction.error); }
      var valid := instruction.Success? && PL.CheckForApproval(payment, View(instruction.value), now).None?;
      assert valid <==> StillValid(saga, paymentId, now);
      r := Decide(paymentId, current.value, valid, who, answers.allowed, now);
    }

    /** Cancels what is no longer valid; otherwise approves if the caller may. */
    method Decide(paymentId: string, current: SavedPayment, valid: bool, who: string, allowed: bool, now: Clock)
      returns (r: Result<SavedPayment, Error>)
      requires Valid() && paymentId in saga.payments
      requires current == SavedPayment(saga.payments[paymentId].version, saga.payments[paymentId].content)
      requires current.payment.status == PL.SUBMITTED && (valid <==> Passes(saga, current.payment, KApprove, now))
      modifies this`securityEvents, this`saga, this`nextCall, repo, instructions, instructions.repository
      ensures Valid()
      ensures
        if !valid then
          && r == Success(SavedPayment(current.version + 1, current.payment.(
               status := PL.CANCELLED, cancelledBy := Some(who), cancelledAt := Some(now), updatedAt := now,
               cancellationReason := Some("invalid at approval"),
               lifecycleEvents := current.payment.lifecycleEvents
                                  + [PL.PaymentEvent(PL.CANCEL, who, Some("invalid at approval"))])))
          && Replied(paymentId, r) && Noted(old(securityEvents), PL.CANCEL, who, Key(paymentId, current.version + 1))
        else if !allowed
        then r == Failure(PermissionDenied) && Denied(old(securityEvents), PL.APPROVE, who, Key(paymentId, current.version))
        else
          && r == Success(SavedPayment(current.version + 1, current.payment.(
               status := PL.APPROVED, approvedBy := Some(who), approvedAt := Some(now), updatedAt := now,
               lifecycleEvents := current.payment.lifecycleEvents + [PL.PaymentEvent(PL.APPROVE, who, None)])))
          && Replied(paymentId, r) && Noted(old(securityEvents), PL.APPROVE, who, Key(paymentId, current.version + 1))
      ensures saga == if r.Success? then Decided(old(saga), paymentId, who, now) else old(saga)
    {
      if !valid {
        var cancelled := CancelBySystem(paymentId, current.payment, who, now);
        return Success(cancelled);
      }
      var payment := current.payment.(status := PL.APPROVED);
      payment := payment.(approvedBy := Some(who), approvedAt := Some(now), updatedAt := now);
      if !allowed {
        RecordDenial(PL.APPROVE, who, Key(paymentId, current.version));
        return Failure(PermissionDenied);
      }
      payment := PL.Record(payment, PL.PaymentEvent(PL.APPROVE, who, None));
      var saved := SaveApproval(paymentId, payment, who, now);
      r := Success(saved);
    }

    method SaveApproval(paymentId: string, approved: PL.Payment, who: string, now: Clock) returns (saved: SavedPayment)
      requires Valid() && paymentId in saga.payments && saga.payments[paymentId].content.status == PL.SUBMITTED
      requires Passes(saga, saga.payments[paymentId].content, KApprove, now)
      requires approved == PL.Approved(saga.payments[paymentId].content, who, now)
      modifies this`securityEvents, this`saga, this`nextCall, repo
      ensures Valid() && saga == PutPayment(old(saga), paymentId, approved, now)
      ensures saved == SavedPayment(old(saga).payments[paymentId].version + 1, approved)
      ensures Replied(paymentId, Success(saved)) && Noted(old(securityEvents), PL.APPROVE, who, Key(paymentId, saved.version))
    {
      DirectCallReplaces(saga, nextCall, paymentId, KApprove, who, now);
      saved := PersistAs(paymentId, approved, PL.APPROVE, now, PutPayment(saga, paymentId, approved, now), nextCall);
    }

    /** `_cancel`: no authorization, and the release attempt carries no token. */
    method CancelBySystem(paymentId: string, current: PL.Payment, who: string, now: Clock) returns (saved: SavedPayment)
      requires Valid() && paymentId in saga.payments && current == saga.payments[paymentId].content
      requires current.status == PL.SUBMITTED && !Passes(saga, current, KApprove, now)
      modifies this`securityEvents, this`saga, this`nextCall, repo, instructions, instructions.repository
      ensures Valid() && saga == SystemCancelled(old(saga), paymentId, who, now)
      ensures saved == SavedPayment(old(saga).payments[paymentId].version + 1, current.(
                status := PL.CANCELLED, cancelledBy := Some(who), cancelledAt := Some(now), updatedAt := now,
                cancellationReason := Some("invalid at approval"),
                lifecycleEvents := current.lifecycleEvents + [PL.PaymentEvent(PL.CANCEL, who, Some("invalid at approval"))]))
      ensures Replied(paymentId, Success(saved)) && Noted(old(securityEvents), PL.CANCEL, who, Key(paymentId, saved.version))
    {
      var payment := current.(status := PL.CANCELLED);
      payment := payment.(cancelledBy := Some(who), cancelledAt := Some(now));
      payment := payment.(cancellationReason := Some("invalid at approval"), updatedAt := now);
      payment := PL.Record(payment, PL.PaymentEvent(PL.CANCEL, who, Some("invalid at approval")));
      SystemCancelReplaces(saga, nextCall, paymentId, who, now);
      saved := PersistAs(paymentId, payment, PL.CANCEL, now, SystemCancelled(saga, paymentId, who, now), nextCall);
      TryRelease(paymentId, saved.payment, false, who, false, now);
    }

    /** The end of reject and of cancel: save the terminal version, then ask once for the release. */
    method SaveAndRelease(paymentId: string, ended: PL.Payment, action: PL.PaymentAction, ghost kind: Kind, who: string,
                          mayUse: bool, now: Clock)
      returns (saved: SavedPayment)
      requires Valid() && paymentId in saga.payments && Accepts(kind, saga.payments[paymentId].content.status)
      requires saga.payments[paymentId].content.instructionId in saga.instructions && (kind.KReject? || kind.KCancel?)
      requires ended == Written(CallOf(saga, paymentId, kind, who).(stage := Ready), now)
      modifies this`securityEvents, this`saga, this`nextCall, repo, instructions, instructions.repository
      ensures Valid()
      ensures saga == Released(AfterEnd(old(saga), paymentId, ended, now), paymentId, ended, mayUse, who, now)
      ensures saved == SavedPayment(old(saga).payments[paymentId].version + 1, ended)
      ensures Replied(paymentId, Success(saved)) && Noted(old(securityEvents), action, who, Key(paymentId, saved.version))
      ensures GivesBackIfHeld(old(saga), saga, paymentId, mayUse, who, now)
    {
      ghost var before := saga;
      EndCallReplaces(saga, nextCall, paymentId, kind, who, now);
      saved := PersistAs(paymentId, ended, action, now, AfterEnd(saga, paymentId, ended, now), nextCall);
      TryRelease(paymentId, saved.payment, true, who, mayUse, now);
      EndedGivesBack(before, paymentId, ended, mayUse, who, now);
    }

    method Reject(paymentId: string, reason: string, who: string, answers: Answers, now: Clock)
      returns (r: Result<SavedPayment, Error>)
      requires Valid()
      modifies this`securityEvents, this`saga, this`nextCall, repo, instructions, instructions.repository
      ensures Valid()
      ensures r.Failure? ==> saga == old(saga)
      ensures
        if paymentId !in old(saga).payments then r == Failure(PaymentNotFound) && Unlogged(old(securityEvents))
        else
          var p := old(saga).payments[paymentId];
          if p.content.status != PL.SUBMITTED then r == Failure(InvalidStateTransition) && Unlogged(old(securityEvents))
          else if p.content.instructionId !in old(saga).instructions
          then r == Failure(InstructionMissing) && Unlogged(old(securityEvents))
          else if !answers.mayView then r == Failure(PermissionDenied) && Unlogged(old(securityEvents))
          else if !answers.allowed
          then r == Failure(PermissionDenied) && Denied(old(securityEvents), PL.REJECT, who, Key(paymentId, p.version))
          else
            && r == Success(SavedPayment(p.version + 1, p.content.(
                 status := PL.REJECTED, rejectedBy := Some(who), rejectedAt := Some(now), rejectionReason := Some(reason),
                 updatedAt := now,
                 lifecycleEvents := p.content.lifecycleEvents + [PL.PaymentEvent(PL.REJECT, who, Some(reason))])))
            && Replied(paymentId, r) && Noted(old(securityEvents), PL.REJECT, who, Key(paymentId, p.version + 1))
      ensures r.Success? ==> GivesBackIfHeld(old(saga), saga, paymentId, answers.mayUse, who, now)
      ensures r.Success? ==>
        saga == Ended(old(saga), paymentId, PL.Rejected(old(saga).payments[paymentId].content, reason, who, now), answers, who, now)
    {
      var current := GetCurrent(paymentId);
      if current.Failure? { return Failure(current.error); }
      var payment := current.value.payment;
      if payment.status != PL.SUBMITTED { return Failure(InvalidStateTransition); }
      var instruction := GetInstruction(payment.instructionId, answers.mayView);
      if instruction.Failure? { return Failure(instruction.error); }
      payment := payment.(status := PL.REJECTED);
      payment := payment.(rejectedBy := Some(who), rejectionReason := Some(reason), rejectedAt := Some(now), updatedAt := now);
      if !answers.allowed {
        RecordDenial(PL.REJECT, who, Key(paymentId, current.value.version));
        return Failure(PermissionDenied);
      }
      payment := PL.Record(payment, PL.PaymentEvent(PL.REJECT, who, Some(reason)));
      var saved := SaveAndRelease(paymentId, payment, PL.REJECT, KReject(reason), who, answers.mayUse, now);
      r := Success(saved);
    }

    /** Authorized before the status changes, unlike reject. */
    method Cancel(paymentId: string, why: Option<string>, who: string, answers: Answers, now: Clock)
      returns (r: Result<SavedPayment, Error>)
      requires Valid()
      modifies this`securityEvents, this`saga, this`nextCall, repo, instructions, instructions.repository
      ensures Valid()
      ensures r.Failure? ==> saga == old(saga)
      ensures
        if paymentId !in old(saga).payments then r == Failure(PaymentNotFound) && Unlogged(old(securityEvents))
        else
          var p := old(saga).payments[paymentId];
          if p.content.status != PL.DRAFT && p.content.status != PL.SUBMITTED then r == Failure(InvalidStateTransition) && Unlogged(old(securityEvents))
          else if p.content.instructionId !in old(saga).instructions
          then r == Failure(InstructionMissing) && Unlogged(old(securityEvents))
          else if !answers.mayView then r == Failure(PermissionDenied) && Unlogged(old(securityEvents))
          else if !answers.allowed
          then r == Failure(PermissionDenied) && Denied(old(securityEvents), PL.CANCEL, who, Key(paymentId, p.version))
          else
            && r == Success(SavedPayment(p.version + 1, p.content.(
                 status := PL.CANCELLED, cancelledBy := Some(who), cancelledAt := Some(now), cancellationReason := why,
                 updatedAt := now,
                 lifecycleEvents := p.content.lifecycleEvents + [PL.PaymentEvent(PL.CANCEL, who, why)])))
            && Replied(paymentId, r) && Noted(old(securityEvents), PL.CANCEL, who, Key(paymentId, p.version + 1))
      ensures r.Success? ==> GivesBackIfHeld(old(saga), saga, paymentId, answers.mayUse, who, now)
      ensures r.Success? ==>
        saga == Ended(old(saga), paymentId, PL.Cancelled(old(saga).payments[paymentId].content, why, who, now), answers, who, now)
    {
      var current := GetCurrent(paymentId);
      if current.Failure? { return Failure(current.error); }
      var payment := current.value.payment;
      if payment.status != PL.DRAFT && payment.status != PL.SUBMITTED { return Failure(InvalidStateTransition); }
      var instruction := GetInstruction(payment.instructionId, answers.mayView);
      if instruction.Failure? { return Failure(instruction.error); }
      if !answers.allowed {
        RecordDenial(PL.CANCEL, who, Key(paymentId, current.value.version));
        return Failure(PermissionDenied);
      }
      payment := payment.(status := PL.CANCELLED);
      payment := payment.(cancelledBy := Some(who), cancellationReason := why, cancelledAt := Some(now), updatedAt := now);
      payment := PL.Record(payment, PL.PaymentEvent(PL.CANCEL, who, why));
      var saved := SaveAndRelease(paymentId, payment, PL.CANCEL, KCancel(why), who, answers.mayUse, now);
      r := Success(saved);
    }

    // ----- Instruction calls made by users ---------------------------------------------------------

    method CreateInstruction(id: string, route: IL.Route, who: string, allowed: bool, now: Clock)
      returns (r: Result<IS.Saved, IS.ServiceError>)
      requires Valid()
      modifies this`saga, instructions, instructions.repository
      ensures Valid()
      ensures saga == if r.Success? then Step(old(saga), Saga.CreateInstruction(id, route, who, now), true) else old(saga)
      ensures r.Success? <==> allowed && Key(id, 1) !in old(instructions.repository.rows)
      ensures r.Failure? ==> r.error == if allowed then IS.DuplicateId else IS.PermissionDenied
      ensures r.Success? ==> id in saga.instructions && r.value == IS.Saved(1, saga.instructions[id].content)
    {
      ghost var before := instructions.repository.rows;
      r := instructions.Create(id, route, who, allowed, now);
      if r.Success? {
        InsertAddsCurrent(before, saga.instructions, id, IL.NewInstruction(route, who, now), now);
        ghost var after := Created(saga, nextCall, id, route, who, now);
        Follow(after);
      }
    }

    /** Update, cancel, submit, approve, reject, suspend or reactivate. */
    method OperateInstruction(id: string, op: IL.Operation, who: string, allowed: bool, now: Clock)
      returns (r: Result<IS.Saved, IS.ServiceError>)
      requires Valid() && UserOperation(op)
      modifies this`saga, instructions, instructions.repository
      ensures Valid()
      ensures r.Success? <==> Serves(old(saga).instructions, id, op, allowed)
      ensures r.Success? ==> saga == Operated(old(saga), id, op, who, now)
      ensures r.Success? ==> id in saga.instructions && r.value == IS.Saved(saga.instructions[id].version, saga.instructions[id].content)
      ensures r.Failure? ==> saga == old(saga)
      ensures r.Failure? ==> r.error == if id !in saga.instructions then IS.NotFound
                                        else if !IL.Permits(saga.instructions[id].content, op) then IS.InvalidStateTransition
                                        else IS.PermissionDenied
    {
      OperateOnCurrent(instructions.Db(), saga.instructions, instructions.excluded, id, op, who, allowed, now);
      r := Dispatch(id, op, who, allowed, now);
      if r.Success? {
        ghost var after := OperatedQuietly(saga, nextCall, id, op, who, now);
        Follow(after);
      }
    }

    /** The route of each instruction endpoint. */
    method Dispatch(id: string, op: IL.Operation, who: string, allowed: bool, now: Clock)
      returns (r: Result<IS.Saved, IS.ServiceError>)
      requires instructions.Valid() && UserOperation(op)
      modifies instructions, instructions.repository
      ensures instructions.Valid()
      ensures (instructions.Db(), r) == IS.Serve(old(instructions.Db()), instructions.excluded, id, IS.Operate(op), who, allowed, now)
    {
      match op
      case Update(route) => r := instructions.Update(id, route, who, allowed, now);
      case Cancel(reason) => r := instructions.Cancel(id, reason, who, allowed, now);
      case Submit => r := instructions.Submit(id, who, allowed, now);
      case Approve => r := instructions.Approve(id, who, allowed, now);
      case Reject(why) => r := instructions.Reject(id, why, who, allowed, now);
      case Suspend => r := instructions.Suspend(id, who, allowed, now);
      case Reactivate => r := instructions.Reactivate(id, who, allowed, now);
    }

    // ----- What the stores promise --------------------------------------------------------------------

    /**
     In the stored rows, after any calls: of all open payment rows SUBMITTED or APPROVED against one
     SINGLE_USE instruction with a SINGLE_USE snapshot there is at most one, and the instruction's
     open row is USED by it.
     */
    lemma StoredHolderIsUnique(id: string, u: nat, p: string, v: nat, q: string, w: nat)
      requires Valid()
      requires IsOpen(instructions.repository.rows, id, u) && IsOpen(repo.rows, p, v) && IsOpen(repo.rows, q, w)
      requires instructions.repository.rows[Key(id, u)].payload.route.instructionType == IL.SINGLE_USE
      requires ClaimsRow(repo.rows[Key(p, v)].payload, id) && ClaimsRow(repo.rows[Key(q, w)].payload, id)
      ensures p == q && v == w
      ensures var i := instructions.repository.rows[Key(id, u)].payload;
        i.status == IL.USED && i.usedBy == Some(p) && repo.rows[Key(p, v)].payload.instructionVersion == u
    {
      OpenRowIsCurrent(instructions.repository.rows, saga.instructions, id, u);
      OpenRowIsCurrent(repo.rows, saga.payments, p, v);
      OpenRowIsCurrent(repo.rows, saga.payments, q, w);
      AtMostOneHolder(saga, id, p, q);
      ReachableInv(saga);
      ClaimIsHeld(saga, id, p);
    }

    /** And at most one open payment row is APPROVED on it, whatever snapshot the rows carry. */
    lemma StoredApprovalIsUnique(id: string, u: nat, p: string, v: nat, q: string, w: nat)
      requires Valid()
      requires IsOpen(instructions.repository.rows, id, u) && IsOpen(repo.rows, p, v) && IsOpen(repo.rows, q, w)
      requires instructions.repository.rows[Key(id, u)].payload.route.instructionType == IL.SINGLE_USE
      requires repo.rows[Key(p, v)].payload.instructionId == id == repo.rows[Key(q, w)].payload.instructionId
      requires repo.rows[Key(p, v)].payload.status == PL.APPROVED == repo.rows[Key(q, w)].payload.status
      ensures p == q && v == w
      ensures var i := instructions.repository.rows[Key(id, u)].payload;
        i.status == IL.USED && i.usedBy == Some(p)
    {
      OpenRowIsCurrent(instructions.repository.rows, saga.instructions, id, u);
      OpenRowIsCurrent(repo.rows, saga.payments, p, v);
      OpenRowIsCurrent(repo.rows, saga.payments, q, w);
      SagaApproval.ApprovedIsUnique(saga, id, p, q);
    }

    /**
     And whatever calls came before: some continuation gives a stored USED instruction back exactly when
     its holder's open row is SUBMITTED. After a reject or cancel whose release was refused, or a submit
     whose reply was lost, none does.
     */
    lemma StoredHoldIsFinal(id: string, u: nat, p: string, v: nat)
      requires Valid()
      requires IsOpen(instructions.repository.rows, id, u) && IsOpen(repo.rows, p, v)
      requires var i := instructions.repository.rows[Key(id, u)].payload;
        i.route.instructionType == IL.SINGLE_USE && i.status == IL.USED && i.usedBy == Some(p)
      ensures SagaRelease.CanBeReleased(saga, id, p) <==> repo.rows[Key(p, v)].payload.status == PL.SUBMITTED
    {
      OpenRowIsCurrent(instructions.repository.rows, saga.instructions, id, u);
      OpenRowIsCurrent(repo.rows, saga.payments, p, v);
      SagaHolders.HolderReleasableIff(saga, id, p);
    }

    /** Every stored version v of a payment is what its event log says, and that log is the newest one cut after entry v. */
    lemma StoredPaymentReplays(p: string, n: nat, v: nat)
      requires Valid() && IsOpen(repo.rows, p, n) && Key(p, v) in repo.rows
      ensures PaymentLog.AgreesWithLog(repo.rows[Key(p, v)].payload, v)
      ensures v <= n && |repo.rows[Key(p, n)].payload.lifecycleEvents| == n + 1
      ensures repo.rows[Key(p, v)].payload.lifecycleEvents == repo.rows[Key(p, n)].payload.lifecycleEvents[..v + 1]
    {
      assert PaymentRows.LogAt(repo.rows, Key(p, v)) && WellFormedAt(repo.rows, Key(p, v));
      var last := VersionsAreOneToN(repo.rows, p, v);
      OnlyOneOpen(repo.rows, p, n, last);
      PaymentRows.RowsShareTheLog(repo.rows, p, n, v);
    }
  }

  /** A payment row that claims a SINGLE_USE instruction for itself. */
  predicate ClaimsRow(payment: PL.Payment, id: string) {
    && payment.instructionId == id && payment.instructionType == IL.SINGLE_USE
    && (payment.status == PL.SUBMITTED || payment.status == PL.APPROVED)
  }

  lemma {:induction false} Created(s: State, n: CallId, id: string, route: IL.Route, who: string, now: int) returns (after: State)
    requires QuietAt(s, n) && id !in s.instructions
    ensures after == Step(s, Saga.CreateInstruction(id, route, who, now), true) && QuietAt(after, n)
    ensures after.payments == s.payments
    ensures after.instructions == s.instructions[id := Current(1, now, IL.NewInstruction(route, who, now))]
  {
    var create := Saga.CreateInstruction(id, route, who, now);
    after := Step(s, create, true);
    RunCons(s, create, [], true);
    assert [create] == [create] + [];
    ReachableOn(s, [create], after);
  }

  lemma {:induction false} OperatedQuietly(s: State, n: CallId, id: string, op: IL.Operation, who: string, now: int) returns (after: State)
    requires QuietAt(s, n) && Serves(s.instructions, id, op, true) && UserOperation(op)
    ensures after == Operated(s, id, op, who, now) && QuietAt(after, n) && after.payments == s.payments
  {
    after := Operated(s, id, op, who, now);
    OperateSucceeds(s, 0, id, op, who, now, true);
    ReachableOn(s, OperateScript(0, id, op, who, now), after);
  }

  // ----- What the calls amount to -------------------------------------------------------------------

  /** Two of the listed payments are DRAFT or SUBMITTED. */
  predicate TwoUnfinished(s: State, listed: set<string>) {
    exists p, q | p in listed && q in listed ::
      p != q && p in s.payments && q in s.payments
      && s.payments[p].content.status in {PL.DRAFT, PL.SUBMITTED} && s.payments[q].content.status in {PL.DRAFT, PL.SUBMITTED}
  }

  /** Another payment of the same instruction is DRAFT or SUBMITTED. */
  predicate HasRival(s: State, p: string)
    requires p in s.payments
  {
    exists q | q in s.payments ::
      q != p && s.payments[q].content.instructionId == s.payments[p].content.instructionId
      && s.payments[q].content.status in {PL.DRAFT, PL.SUBMITTED}
  }

  /** The listing is one the repository may return; when it cannot have been cut, its answer is whether there is a rival. */
  predicate RivalDecides(s: State, p: string, listed: set<string>) {
    p in s.payments && s.payments[p].content.instructionType == IL.SINGLE_USE ==>
      && ValidListing(s, s.payments[p].content.instructionId, listed)
      && (FewSiblings(s, p) ==> (TwoUnfinished(s, listed) <==> HasRival(s, p)))
  }

  /** The instruction of a SINGLE_USE payment is USED by it, one version on; a STANDING one is not touched. */
  predicate UsesIfSingle(before: State, after: State, p: string, who: string, now: int)
    requires p in before.payments && before.payments[p].content.instructionId in before.instructions
  {
    var id := before.payments[p].content.instructionId;
    var i := before.instructions[id];
    if before.payments[p].content.instructionType != IL.SINGLE_USE then after.instructions == before.instructions
    else
      && after.instructions.Keys == before.instructions.Keys
      && (forall other :: other in before.instructions && other != id ==> after.instructions[other] == before.instructions[other])
      && after.instructions[id].version == i.version + 1 && after.instructions[id].content.usageCount == i.content.usageCount + 1
      && (i.content.route.instructionType == IL.SINGLE_USE ==> HeldBy(after, id, p))
  }

  lemma {:induction false} SubmittedFields(s: State, call: CallId, p: string, who: string, now: int)
    requires p in s.payments && s.payments[p].content.instructionId in s.instructions
    ensures var end, before, i := SubmittedState(s, call, p, who, now), s.payments[p], s.instructions[s.payments[p].content.instructionId];
      && UsesIfSingle(s, end, p, who, now) && p in end.payments && end.payments[p].version == before.version + 1
      && end.payments[p].content == before.content.(
           status := PL.SUBMITTED, submittedBy := Some(who), submittedAt := Some(now), updatedAt := now,
           instructionVersion := if before.content.instructionType == IL.SINGLE_USE then i.version + 1 else i.version,
           lifecycleEvents := before.content.lifecycleEvents + [PL.PaymentEvent(PL.SUBMIT, who, None)])
  {
  }

  lemma {:induction false} UsedFields(s: State, call: CallId, p: string, who: string, now: int)
    requires p in s.payments && s.payments[p].content.instructionId in s.instructions
    requires s.payments[p].content.instructionType == IL.SINGLE_USE
    ensures var end := Used(s, call, s.payments[p].content.instructionId, p, who, now);
      end.payments == s.payments && UsesIfSingle(s, end, p, who, now)
  {
  }

  predicate FewSiblings(s: State, p: string) {
    p in s.payments
    && |set q | q in s.payments && s.payments[q].content.instructionId == s.payments[p].content.instructionId| <= 100
  }

  /** What approval asks of the instruction again. */
  predicate StillValid(s: State, p: string, now: int)
    requires p in s.payments
  {
    var payment := s.payments[p].content;
    && payment.instructionId in s.instructions
    && var i := s.instructions[payment.instructionId];
       && i.version == payment.instructionVersion && i.content.route.instructionType == payment.instructionType
       && (i.content.status == IL.APPROVED || (i.content.status == IL.USED && payment.instructionType == IL.SINGLE_USE))
       && i.content.route.effectiveDate <= now <= i.content.route.endDate
  }

  /** A release that is due frees the instruction if the payment holds it; nothing else is touched. */
  predicate FreesIfHeld(before: State, after: State, id: string, p: string, due: bool, who: string, now: int)
    requires id in before.instructions
  {
    var i := before.instructions[id];
    if due && i.content.route.instructionType == IL.SINGLE_USE && i.content.status == IL.USED && i.content.usedBy == Some(p)
    then
      && i.content.usageCount == 1
      && after.instructions == before.instructions[id := Current(i.version + 1, now, i.content.(
           status := IL.APPROVED, usedBy := None, usageCount := 0, updatedAt := now,
           lifecycleEvents := i.content.lifecycleEvents + [IL.LifecycleEvent(IL.RELEASE_USE, who, Some(p), None)]))]
    else after.instructions == before.instructions
  }

  /** The release of a payment that was submitted with a SINGLE_USE snapshot is due, if the caller may ask for it. */
  predicate GivesBackIfHeld(before: State, after: State, p: string, granted: bool, who: string, now: int)
    requires p in before.payments && before.payments[p].content.instructionId in before.instructions
  {
    var payment := before.payments[p].content;
    FreesIfHeld(before, after, payment.instructionId, p,
                granted && payment.instructionType == IL.SINGLE_USE && payment.submittedAt.Some?, who, now)
  }

  /** What the release attempt after an end does, by the fields of the ended payment. */
  lemma {:induction false} ReleasedFrees(s: State, p: string, payment: PL.Payment, granted: bool, who: string, now: int)
    requires Reachable(s) && payment.instructionId in s.instructions
    ensures FreesIfHeld(s, Released(s, p, payment, granted, who, now), payment.instructionId, p,
              granted && payment.instructionType == IL.SINGLE_USE && payment.submittedAt.Some?
              && (payment.status == PL.REJECTED || payment.status == PL.CANCELLED), who, now)
  {
    var id := payment.instructionId;
    if IsSingleUse(s, id) && HeldBy(s, id, p) { InstructionLog.HeldIsUsedOnce(s, id, p); }
  }

  lemma {:induction false} EndedGivesBack(s: State, p: string, ended: PL.Payment, granted: bool, who: string, now: int)
    requires Reachable(s) && p in s.payments && s.payments[p].content.instructionId in s.instructions
    requires ended.status == PL.REJECTED || ended.status == PL.CANCELLED
    requires ended.instructionId == s.payments[p].content.instructionId
    requires ended.instructionType == s.payments[p].content.instructionType && ended.submittedAt == s.payments[p].content.submittedAt
    ensures GivesBackIfHeld(s, Released(AfterEnd(s, p, ended, now), p, ended, granted, who, now), p, granted, who, now)
  {
    var id := ended.instructionId;
    if IsSingleUse(s, id) && HeldBy(s, id, p) { InstructionLog.HeldIsUsedOnce(s, id, p); }
  }

  /** The check's count, in terms of statuses. */
  lemma {:induction false} ActivesAreUnfinished(s: State, listed: set<string>)
    ensures |ActiveAmong(s, listed)| <= 1 <==> !TwoUnfinished(s, listed)
  {
    var active := ActiveAmong(s, listed);
    if TwoUnfinished(s, listed) {
      var p, q :| p in listed && q in listed && p != q && p in s.payments && q in s.payments
        && s.payments[p].content.status in {PL.DRAFT, PL.SUBMITTED} && s.payments[q].content.status in {PL.DRAFT, PL.SUBMITTED};
      assert active == {p, q} + (active - {p, q});
    } else if active != {} {
      var p :| p in active;
      assert active == {p};
    }
  }

  predicate Submittable(s: State, p: string, now: int) {
    && p in s.payments && s.payments[p].content.status == PL.DRAFT
    && s.payments[p].content.instructionId in s.instructions
    && PL.BacksSubmit(View(s.instructions[s.payments[p].content.instructionId]), now)
  }

  /** With at most 100 payments on the instruction the check of a DRAFT asks whether another one is DRAFT or SUBMITTED. */
  lemma {:induction false} SiblingCheckIsExact(s: State, p: string, listed: set<string>)
    requires FewSiblings(s, p) && ValidListing(s, s.payments[p].content.instructionId, listed)
    requires s.payments[p].content.status == PL.DRAFT
    ensures TwoUnfinished(s, listed) <==> HasRival(s, p)
  {
    var all := Siblings(s, s.payments[p].content.instructionId);
    assert all == set q | q in s.payments && s.payments[q].content.instructionId == s.payments[p].content.instructionId;
    if |listed| == LIST_LIMIT { SubsetOfSameSize(listed, all); }
    assert listed == all && p in listed;
  }

  /** Whatever the listing, its actives tell; uncut, they tell whether there is a rival. */
  lemma {:induction false} ListingDecides(s: State, p: string, listed: set<string>)
    requires p in s.payments && s.payments[p].content.status == PL.DRAFT
    requires ValidListing(s, s.payments[p].content.instructionId, listed)
    ensures |ActiveAmong(s, listed)| <= 1 <==> !TwoUnfinished(s, listed)
    ensures RivalDecides(s, p, listed)
  {
    ActivesAreUnfinished(s, listed);
    if FewSiblings(s, p) { SiblingCheckIsExact(s, p, listed); }
  }

  /** Beyond 100 the listing is still determined, unless two payments of the instruction have rows of the same time. */
  lemma {:induction false} ListingIsDetermined(s: State, id: string, listed: set<string>, other: set<string>)
    requires ValidListing(s, id, listed) && ValidListing(s, id, other)
    requires forall p, q :: p in Siblings(s, id) && q in Siblings(s, id) && p != q ==> s.payments[p].validIn != s.payments[q].validIn
    ensures listed == other
  {
    forall p, q | p in listed - other && q in other - listed ensures p == q {}
    if |listed| == |other| == LIST_LIMIT {
      if other <= listed { SubsetOfSameSize(other, listed); } else { SubsetOfSameSize(listed, other); }
    } else if |other| == LIST_LIMIT {
      SubsetOfSameSize(other, listed);
    } else if |listed| == LIST_LIMIT {
      SubsetOfSameSize(listed, other);
    }
  }

  lemma {:induction false} SubsetOfSameSize<T>(a: set<T>, b: set<T>)
    requires a <= b && |b| <= |a|
    ensures a == b
  {
    assert b == a + (b - a) && |b| == |a| + |b - a|;
  }

  /** SUBMITTED, against the version left behind by the payment's own USE if it is SINGLE_USE. */
  function SubmittedState(s: State, call: CallId, p: string, who: string, now: int): State {
    if p !in s.payments || s.payments[p].content.instructionId !in s.instructions then s
    else
      var payment := s.payments[p].content;
      var id := payment.instructionId;
      if payment.instructionType == IL.SINGLE_USE then AfterSubmit(s, call, id, p, who, now)
      else PutPayment(s, p, PL.Submitted(payment.(instructionVersion := s.instructions[id].version), who, now), now)
  }

  /** What submit leaves of the instruction and of the run, after a success and after each failure. */
  predicate SubmitLeaves(s: State, t: State, call: CallId, p: string, r: Result<SavedPayment, Error>, who: string, answers: Answers,
                         now: int)
  {
    if r.Failure? then FailsWith(s, t, call, p, r.error, who, answers, now)
    else
      && p in s.payments && s.payments[p].content.instructionId in s.instructions
      && t == SubmittedState(s, call, p, who, now) && UsesIfSingle(s, t, p, who, now)
  }

  /** What a failed submit leaves: the instruction USED by a payment that is still DRAFT if only the reply of its USE was lost. */
  predicate FailsWith(s: State, t: State, call: CallId, p: string, error: Error, who: string, answers: Answers, now: int) {
    if error == ServiceUnavailable && answers.mayUse && answers.delivery == ReplyLost then
      && p in s.payments && s.payments[p].content.instructionId in s.instructions
      && s.payments[p].content.instructionType == IL.SINGLE_USE
      && t == Used(s, call, s.payments[p].content.instructionId, p, who, now)
      && t.payments == s.payments && UsesIfSingle(s, t, p, who, now)
    else t == s
  }

  /** The draft's next version: new terms, and the instruction version they were checked against. */
  function Revised(s: State, p: string, terms: Terms, who: string, now: int): State {
    if p !in s.payments || s.payments[p].content.instructionId !in s.instructions then s
    else
      var payment := s.payments[p].content;
      var checked := payment.(instructionVersion := s.instructions[payment.instructionId].version);
      PutPayment(s, p, PL.Updated(checked, terms.amount, terms.valueDate, who, now), now)
  }

  /** APPROVED when the check passes, cancelled by the system when it does not. */
  function Decided(s: State, p: string, who: string, now: int): State {
    if p !in s.payments then s
    else if Passes(s, s.payments[p].content, KApprove, now)
    then PutPayment(s, p, PL.Approved(s.payments[p].content, who, now), now)
    else SystemCancelled(s, p, who, now)
  }

  /** The terminal version, and the instruction given back when its holder may release it. */
  function Ended(s: State, p: string, ended: PL.Payment, answers: Answers, who: string, now: int): State
    requires p in s.payments
  {
    Released(AfterEnd(s, p, ended, now), p, ended, answers.mayUse, who, now)
  }

  /** USE goes through: the instruction is there, APPROVED, and the caller may use it. */
  predicate Usable(s: State, id: string, allowed: bool) {
    allowed && id in s.instructions && s.instructions[id].content.status == IL.APPROVED
  }

  /** USE is answered with a conflict: the instruction is there but not, or no longer, APPROVED. */
  predicate RefusesUse(s: State, id: string) {
    id in s.instructions && s.instructions[id].content.status != IL.APPROVED
  }

  predicate Releasable(s: State, id: string, p: string) {
    id in s.instructions && IL.Permits(s.instructions[id].content, IL.ReleaseUse(p))
  }

  lemma {:induction false} ReleaseReaches(s: State, id: string, p: string, who: string, now: int)
    requires Reachable(s) && s.pending == {ReleaseRequest(id, p)} && s.instructionCalls == map[] && Releasable(s, id, p)
    ensures Reachable(Operated(s, id, IL.ReleaseUse(p), who, now).(pending := {}))
  {
    ReleaseRuns(s, 0, id, p, who, now);
    assert s.pending - {ReleaseRequest(id, p)} == {};
    ReachableOn(s, [ReceiveRequest(0, ReleaseRequest(id, p), who), WriteInstruction(0, now)],
                Operated(s, id, IL.ReleaseUse(p), who, now).(pending := {}));
  }

  lemma {:induction false} RefusalReaches(s: State, m: Message)
    requires Reachable(s) && s.pending == {m}
    ensures Reachable(s.(pending := {}))
  {
    RunCons(s, LoseRequest(m), [], true);
    assert s.pending - {m} == {} && [LoseRequest(m)] == [LoseRequest(m)] + [];
    ReachableOn(s, [LoseRequest(m)], s.(pending := {}));
  }

  /** The one release request is spent; the instruction is given back if it was granted and is still held. */
  function Released(s: State, p: string, payment: PL.Payment, granted: bool, who: string, now: int): State {
    var id, spent := payment.instructionId, s.(pending := {});
    if PL.ReleasesOnEnd(payment) && granted && Releasable(s, id, p)
    then Operated(spent, id, IL.ReleaseUse(p), who, now) else spent
  }
}
