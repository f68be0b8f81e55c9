/**
 Uninterrupted calls on the current rows of both stores: each is a run of the interleaved saga,
 so what holds of every run holds of the stores behind the service object.
 */
module PaymentCalls {
  import opened Wrappers
  import opened VersionStore
  import opened Saga
  import opened SagaSafety
  import opened SagaTheorems
  import opened SagaScripts
  import IL = InstructionLifecycle
  import PL = PaymentLifecycle

  // ----- Current rows of a store ------------------------------------------------------------

  ghost predicate Shows<P>(rows: Rows<P>, current: map<string, Current<P>>, k: Key) {
    k in rows && rows[k].validOut.None? ==>
      k.id in current && current[k.id] == Current(k.version, rows[k].validIn, rows[k].payload)
  }

  ghost predicate Backed<P>(rows: Rows<P>, current: map<string, Current<P>>, id: string) {
    id in current ==> IsOpen(rows, id, current[id].version)
  }

  /** `current` holds exactly the open rows. */
  ghost predicate Mirrors<P>(rows: Rows<P>, current: map<string, Current<P>>) {
    && (forall k: Key {:trigger Shows(rows, current, k)} :: Shows(rows, current, k))
    && (forall id: string {:trigger Backed(rows, current, id)} :: Backed(rows, current, id))
  }

  lemma {:induction false} EmptyMirrors<P>()
    ensures Mirrors<P>(map[], map[])
  {
    forall k: Key ensures Shows<P>(map[], map[], k) {}
    forall id: string ensures Backed<P>(map[], map[], id) {}
  }

  lemma {:induction false} OpenRowIsCurrent<P>(rows: Rows<P>, current: map<string, Current<P>>, id: string, v: nat)
    requires Mirrors(rows, current) && IsOpen(rows, id, v)
    ensures id in current && current[id] == Current(v, rows[Key(id, v)].validIn, rows[Key(id, v)].payload)
  {
    assert Shows(rows, current, Key(id, v));
  }

  lemma {:induction false} CurrentRowIsOpen<P>(rows: Rows<P>, current: map<string, Current<P>>, id: string)
    requires Mirrors(rows, current) && id in current
    ensures var v := current[id].version;
      IsOpen(rows, id, v) && current[id] == Current(v, rows[Key(id, v)].validIn, rows[Key(id, v)].payload)
  {
    assert Backed(rows, current, id);
    OpenRowIsCurrent(rows, current, id, current[id].version);
  }

  lemma {:induction false} NoOpenRowNoCurrent<P>(rows: Rows<P>, current: map<string, Current<P>>, id: string)
    requires Mirrors(rows, current) && forall v: nat :: !IsOpen(rows, id, v)
    ensures id !in current
  {
    assert Backed(rows, current, id);
  }

  /** Appending moves exactly one current row. */
  lemma {:induction false} AppendMovesCurrent<P>(rows: Rows<P>, current: map<string, Current<P>>, id: string, v: nat,
                                                 content: P, now: Clock)
    requires WellFormed(rows) && Mirrors(rows, current) && IsOpen(rows, id, v)
    ensures Mirrors(AppendRow(rows, id, v, content, now), current[id := Current(v + 1, now, content)])
  {
    var after, moved := AppendRow(rows, id, v, content, now), current[id := Current(v + 1, now, content)];
    forall k: Key
      ensures Shows(after, moved, k)
    {
      assert Shows(rows, current, k);
      if k.id == id && k in rows { OnlyOneOpen(rows, id, v, k.version); }
    }
    forall other: string
      ensures Backed(after, moved, other)
    {
      assert Backed(rows, current, other);
    }
  }

  lemma {:induction false} InsertAddsCurrent<P>(rows: Rows<P>, current: map<string, Current<P>>, id: string, content: P, now: Clock)
    requires WellFormed(rows) && Mirrors(rows, current) && Key(id, 1) !in rows
    ensures id !in current
    ensures Mirrors(rows[Key(id, 1) := Row(now, None, content)], current[id := Current(1, now, content)])
  {
    var after, added := rows[Key(id, 1) := Row(now, None, content)], current[id := Current(1, now, content)];
    if id in current {
      CurrentRowIsOpen(rows, current, id);
      assert WellFormedAt(rows, Key(id, current[id].version));
      ContiguousBelow(rows, id, current[id].version, 1);
      assert false;
    }
    forall k: Key
      ensures Shows(after, added, k)
    {
      assert Shows(rows, current, k);
    }
    forall other: string
      ensures Backed(after, added, other)
    {
      assert Backed(rows, current, other);
    }
  }

  // ----- Calls as runs ----------------------------------------------------------------------------

  predicate FreshCall(s: State, call: CallId) {
    && call !in s.paymentCalls && call !in s.drafts
    && forall m :: m in s.sent ==> !(m.UseRequest? && m.call == call)
  }

  /** The payment's current row replaced by its next version. */
  function PutPayment(s: State, p: string, content: PL.Payment, now: int): State
    requires p in s.payments
  {
    s.(payments := s.payments[p := Current(s.payments[p].version + 1, now, content)])
  }

  /** The backing instruction was found and let the call pass. */
  predicate Passes(s: State, payment: PL.Payment, kind: Kind, now: int) {
    && payment.instructionId in s.instructions
    && var view := View(s.instructions[payment.instructionId]);
       match kind
       case KUpdate(_, _) => PL.BacksDraft(view, now)
       case KSubmit => PL.BacksSubmit(view, now) && payment.instructionType != IL.SINGLE_USE
       case KApprove => PL.CheckForApproval(payment, view, now).None?
       case KReject(_) => true
       case KCancel(_) => true
  }

  /** The payment as the call has it when it comes to write. */
  function Checked(s: State, payment: PL.Payment, kind: Kind): PL.Payment {
    if (kind.KUpdate? || kind.KSubmit?) && payment.instructionId in s.instructions
    then payment.(instructionVersion := s.instructions[payment.instructionId].version)
    else payment
  }

  function CallOf(s: State, p: string, kind: Kind, who: string): PaymentCall
    requires p in s.payments
  {
    PaymentCall(kind, p, s.payments[p].version, s.payments[p].content, who, Loaded)
  }

  lemma {:induction false} CheckPasses(s: State, call: CallId, loaded: PaymentCall, now: int)
    requires loaded.stage == Loaded && Passes(s, loaded.payment, loaded.kind, now)
    ensures CheckedInstruction(WithCall(s, call, loaded), call, now)
         == WithCall(s, call, loaded.(stage := Ready, payment := Checked(s, loaded.payment, loaded.kind)))
  {
    var t := WithCall(s, call, loaded);
    var ready := loaded.(stage := Ready, payment := Checked(s, loaded.payment, loaded.kind));
    assert t.paymentCalls[call] == loaded && t.instructions == s.instructions;
    assert CheckedInstruction(t, call, now) == WithCall(t, call, ready);
    Overwrite(s, call, loaded, ready);
  }

  lemma {:induction false} Overwrite(s: State, call: CallId, c: PaymentCall, d: PaymentCall)
    ensures WithCall(WithCall(s, call, c), call, d) == WithCall(s, call, d)
  {
    assert s.paymentCalls[call := c][call := d] == s.paymentCalls[call := d];
  }

  /** Update, approve and a submit against a STANDING snapshot: read, check, write. */
  lemma {:induction false} DirectCallRuns(s: State, call: CallId, p: string, kind: Kind, who: string, now: int)
    requires FreshCall(s, call) && p in s.payments && Accepts(kind, s.payments[p].content.status)
    requires Passes(s, s.payments[p].content, kind, now) && !kind.KReject? && !kind.KCancel?
    ensures Run(s, [LoadPayment(call, p, kind, who), CheckInstruction(call, now), WritePayment(call, now)], true)
         == PutPayment(s, p, Written(CallOf(s, p, kind, who).(stage := Ready, payment := Checked(s, s.payments[p].content, kind)), now), now)
  {
    var loaded := CallOf(s, p, kind, who);
    RunThree(s, LoadPayment(call, p, kind, who), CheckInstruction(call, now), WritePayment(call, now), true);
    LoadThenCheck(s, call, loaded, now, true);
    CheckPasses(s, call, loaded, now);
    WriteEndsCall(s, call, loaded.(stage := Ready, payment := Checked(s, loaded.payment, kind)), now, true);
  }

  /** Approve of a payment whose check fails, the missing instruction included: cancelled by the system. */
  lemma {:induction false} SystemCancelRuns(s: State, call: CallId, p: string, who: string, now: int)
    requires FreshCall(s, call) && p in s.payments && s.payments[p].content.status == PL.SUBMITTED
    requires !Passes(s, s.payments[p].content, KApprove, now)
    ensures Run(s, [LoadPayment(call, p, KApprove, who), CheckInstruction(call, now), WritePayment(call, now)], true)
         == PutPayment(s, p, PL.Cancelled(s.payments[p].content, Some("invalid at approval"), who, now), now)
            .(systemCancelled := s.systemCancelled + {p})
  {
    var loaded := CallOf(s, p, KApprove, who);
    RunThree(s, LoadPayment(call, p, KApprove, who), CheckInstruction(call, now), WritePayment(call, now), true);
    LoadThenCheck(s, call, loaded, now, true);
    var checked := CheckedInstruction(WithCall(s, call, loaded), call, now);
    assert call in checked.paymentCalls && checked == WithCall(s, call, checked.paymentCalls[call]);
    WriteEndsCall(s, call, checked.paymentCalls[call], now, true);
  }

  /** What a reject or a cancel leaves behind: the terminal row, and the release request if one is due. */
  function AfterEnd(s: State, p: string, ended: PL.Payment, now: int): State
    requires p in s.payments
  {
    var put := PutPayment(s, p, ended, now);
    if PL.ReleasesOnEnd(ended) then Sending(put, ReleaseRequest(ended.instructionId, p)) else put
  }

  lemma {:induction false} EndCallRuns(s: State, call: CallId, p: string, kind: Kind, who: string, now: int)
    requires FreshCall(s, call) && p in s.payments && Accepts(kind, s.payments[p].content.status)
    requires s.payments[p].content.instructionId in s.instructions && (kind.KReject? || kind.KCancel?)
    ensures Run(s, [LoadPayment(call, p, kind, who), CheckInstruction(call, now), WritePayment(call, now)] + [SendRelease(call)], true)
         == AfterEnd(s, p, Written(CallOf(s, p, kind, who).(stage := Ready), now), now)
  {
    var loaded := CallOf(s, p, kind, who);
    var ready := loaded.(stage := Ready);
    var first := [LoadPayment(call, p, kind, who), CheckInstruction(call, now), WritePayment(call, now)];
    RunThree(s, LoadPayment(call, p, kind, who), CheckInstruction(call, now), WritePayment(call, now), true);
    LoadThenCheck(s, call, loaded, now, true);
    CheckPasses(s, call, loaded, now);
    EndWrites(s, call, ready, now);
    RunConcat(s, first, [SendRelease(call)], true);
    EndReleases(s, call, ready, Written(ready, now), now);
  }

  lemma {:induction false} EndReleases(s: State, call: CallId, ready: PaymentCall, ended: PL.Payment, now: int)
    requires call !in s.paymentCalls && ready.paymentId in s.payments
    ensures Run(WithCall(PutPayment(s, ready.paymentId, ended, now), call, ready.(stage := Persisted, payment := ended)), [SendRelease(call)], true)
         == AfterEnd(s, ready.paymentId, ended, now)
  {
    var persisted := WithCall(PutPayment(s, ready.paymentId, ended, now), call, ready.(stage := Persisted, payment := ended));
    RunCons(persisted, SendRelease(call), [], true);
    assert [SendRelease(call)] == [SendRelease(call)] + [];
    assert persisted.paymentCalls - {call} == s.paymentCalls;
  }

  lemma {:induction false} EndWrites(s: State, call: CallId, ready: PaymentCall, now: int)
    requires ready.paymentId in s.payments && ready.version == s.payments[ready.paymentId].version
    requires ready.stage == Ready && (ready.kind.KReject? || ready.kind.KCancel?)
    ensures Step(WithCall(s, call, ready), WritePayment(call, now), true)
         == WithCall(PutPayment(s, ready.paymentId, Written(ready, now), now), call,
                     ready.(stage := Persisted, payment := Written(ready, now)))
  {
  }

  /** Instruction-service serving the release request at once. */
  lemma {:induction false} ReleaseRuns(s: State, server: CallId, id: string, p: string, who: string, now: int)
    requires ReleaseRequest(id, p) in s.pending && id in s.instructions && server !in s.instructionCalls
    requires IL.Permits(s.instructions[id].content, IL.ReleaseUse(p))
    ensures Run(s, [ReceiveRequest(server, ReleaseRequest(id, p), who), WriteInstruction(server, now)], true)
         == Operated(s, id, IL.ReleaseUse(p), who, now).(pending := s.pending - {ReleaseRequest(id, p)})
  {
    var m := ReleaseRequest(id, p);
    var receive := ReceiveRequest(server, m, who);
    var serving := InstructionCall(id, s.instructions[id].version, s.instructions[id].content, IL.ReleaseUse(p), who, Some(m));
    RunTwo(s, receive, WriteInstruction(server, now), true);
    assert Step(s, receive, true) == s.(pending := s.pending - {m}, instructionCalls := s.instructionCalls[server := serving]);
    assert s.instructionCalls[server := serving] - {server} == s.instructionCalls;
  }
}
