/**
 InstructionService over its version store and security-event collection. Authorization is an
 input of every call: `allowed` is the decision the policy engine returned.
 */
module InstructionService {
  import opened Wrappers
  import opened VersionStore
  import Storage
  import opened SecurityEvents
  import opened InstructionLifecycle

  datatype ServiceError = NotFound | InvalidStateTransition | PermissionDenied | DuplicateId

  datatype Request = Create(route: Route) | Operate(op: Operation)

  datatype Saved = Saved(version: nat, instruction: Instruction)

  datatype Database = Database(rows: Rows<Instruction>, events: seq<Event>)

  type Event = SecurityEvent<LifecycleAction>

  function ActionFor(request: Request): LifecycleAction {
    if request.Create? then CREATE else ActionOf(request.op)
  }

  function WithEvent(db: Database, excluded: set<string>, e: Event): Database {
    db.(events := Recorded(db.events, excluded, e))
  }

  /** One service call as a function of the database: the specification of the methods below. */
  ghost function Serve(db: Database, excluded: set<string>, id: string, request: Request, who: string,
                       allowed: bool, now: Clock): (Database, Result<Saved, ServiceError>)
  {
    match request
    case Create(route) =>
      if !allowed then
        (WithEvent(db, excluded, SecurityEvent(CREATE, false, who, Key(id, 0))), Failure(PermissionDenied))
      else if Key(id, 1) in db.rows then (db, Failure(DuplicateId))
      else
        var created := NewInstruction(route, who, now);
        (WithEvent(db.(rows := db.rows[Key(id, 1) := Row(now, None, created)]), excluded,
                   SecurityEvent(CREATE, true, who, Key(id, 1))),
         Success(Saved(1, created)))
    case Operate(op) =>
      var open := OpenVersion(db.rows, id);
      if open.None? then (db, Failure(NotFound))
      else
        var v := open.value;
        var current := db.rows[Key(id, v)].payload;
        if !Permits(current, op) then (db, Failure(InvalidStateTransition))
        else if !allowed then
          (WithEvent(db, excluded, SecurityEvent(ActionOf(op), false, who, Key(id, v))), Failure(PermissionDenied))
        else
          var after := Apply(current, op, who, now);
          (WithEvent(db.(rows := AppendRow(db.rows, id, v, after, now)), excluded,
                     SecurityEvent(ActionOf(op), true, who, Key(id, v + 1))),
           Success(Saved(v + 1, after)))
  }

  // ----- What every call keeps ---------------------------------------------------

  /** Row v of an entity is a faithful summary of its log, and extends row v - 1 by one event. */
  ghost predicate LogAt(rows: Rows<Instruction>, k: Key)
    requires k in rows
  {
    var events := rows[k].payload.lifecycleEvents;
    && AgreesWithLog(rows[k].payload, k.version) && StampsAgree(rows[k].payload)
    && (k.version > 1 && Key(k.id, k.version - 1) in rows ==>
          OneOperation(rows[Key(k.id, k.version - 1)].payload, rows[k].payload))
  }

  ghost predicate OneOperation(before: Instruction, after: Instruction) {
    exists op: Operation, who: string, now: int :: Permits(before, op) && after == Apply(before, op, who, now)
  }

  ghost predicate LogsReplay(rows: Rows<Instruction>) {
    forall k {:trigger LogAt(rows, k)} :: k in rows ==> LogAt(rows, k)
  }

  /** Who wrote a row: the actor of its last event. */
  function Author(i: Instruction): string {
    if i.lifecycleEvents == [] then "" else i.lifecycleEvents[|i.lifecycleEvents| - 1].actor
  }

  ghost predicate EventsMatchRows(db: Database, excluded: set<string>) {
    EventsMatch(db.rows, Author, db.events, excluded)
  }

  ghost predicate Inv(db: Database, excluded: set<string>) {
    WellFormed(db.rows) && LogsReplay(db.rows) && EventsMatchRows(db, excluded)
  }

  lemma {:induction false} AppendKeepsLogs(rows: Rows<Instruction>, id: string, v: nat, op: Operation, who: string,
                                           now: Clock, content: Instruction)
    requires WellFormed(rows) && LogsReplay(rows) && IsOpen(rows, id, v)
    requires Permits(rows[Key(id, v)].payload, op) && content == Apply(rows[Key(id, v)].payload, op, who, now)
    ensures LogsReplay(AppendRow(rows, id, v, content, now))
  {
    var after := AppendRow(rows, id, v, content, now);
    AppendKeepsChains(rows, id, v, content, now);
    forall k | k in after
      ensures LogAt(after, k)
    {
      if k in rows { OldLogStays(rows, id, v, content, now, k); } else { NewLogAgrees(rows, id, v, op, who, now, content); }
    }
  }

  lemma {:induction false} OldLogStays(rows: Rows<Instruction>, id: string, v: nat, content: Instruction, now: Clock, k: Key)
    requires WellFormed(rows) && LogsReplay(rows) && IsOpen(rows, id, v) && k in rows
    ensures LogAt(AppendRow(rows, id, v, content, now), k)
  {
    assert LogAt(rows, k) && WellFormedAt(rows, k) && WellFormedAt(rows, Key(id, v));
    SameContentSameLog(rows, AppendRow(rows, id, v, content, now), k);
  }

  lemma {:induction false} SameContentSameLog(rows: Rows<Instruction>, after: Rows<Instruction>, k: Key)
    requires k in rows && k in after && after[k].payload == rows[k].payload && LogAt(rows, k)
    requires k.version > 1 ==>
      var before := Key(k.id, k.version - 1);
      before in rows && before in after && after[before].payload == rows[before].payload
    ensures LogAt(after, k)
  {
  }

  lemma {:induction false} NewLogAgrees(rows: Rows<Instruction>, id: string, v: nat, op: Operation, who: string,
                                        now: Clock, content: Instruction)
    requires WellFormed(rows) && LogsReplay(rows) && IsOpen(rows, id, v)
    requires Permits(rows[Key(id, v)].payload, op) && content == Apply(rows[Key(id, v)].payload, op, who, now)
    ensures LogAt(AppendRow(rows, id, v, content, now), Key(id, v + 1))
  {
    assert LogAt(rows, Key(id, v));
    ApplyAgreesWithLog(rows[Key(id, v)].payload, op, who, now, v);
    ApplyKeepsStamps(rows[Key(id, v)].payload, op, who, now);
  }

  lemma {:induction false} CreateKeepsInv(db: Database, excluded: set<string>, id: string, route: Route,
                                          who: string, now: Clock)
    requires Inv(db, excluded) && Key(id, 1) !in db.rows
    ensures Inv(Serve(db, excluded, id, Create(route), who, true, now).0, excluded)
  {
    var created := NewInstruction(route, who, now);
    var rows := db.rows[Key(id, 1) := Row(now, None, created)];
    InsertKeepsChains(db.rows, id, created, now);
    NewAgreesWithLog(route, who, now);
    NewStampsAgree(route, who, now);
    forall k | k in rows
      ensures LogAt(rows, k)
    {
      if k in db.rows { assert LogAt(db.rows, k) && WellFormedAt(db.rows, k); }
    }
    EventKeepsMatch(db.rows, rows, Author, db.events, excluded, SecurityEvent(CREATE, true, who, Key(id, 1)));
  }

  lemma {:induction false} AppendKeepsMatch(db: Database, excluded: set<string>, id: string, v: nat,
                                            content: Instruction, action: LifecycleAction, now: Clock)
    requires WellFormed(db.rows) && EventsMatchRows(db, excluded) && IsOpen(db.rows, id, v)
    ensures var rows := AppendRow(db.rows, id, v, content, now);
      && WellFormed(rows)
      && EventsMatchRows(WithEvent(db.(rows := rows), excluded,
                                   SecurityEvent(action, true, Author(content), Key(id, v + 1))), excluded)
  {
    AppendKeepsChains(db.rows, id, v, content, now);
    EventKeepsMatch(db.rows, AppendRow(db.rows, id, v, content, now), Author, db.events, excluded,
                    SecurityEvent(action, true, Author(content), Key(id, v + 1)));
  }

  lemma {:induction false} OperateAppends(db: Database, excluded: set<string>, id: string, v: nat, op: Operation,
                                          who: string, now: Clock, content: Instruction)
    requires OpenVersion(db.rows, id) == Some(v) && Permits(db.rows[Key(id, v)].payload, op)
    requires content == Apply(db.rows[Key(id, v)].payload, op, who, now)
    ensures Author(content) == who
    ensures Serve(db, excluded, id, Operate(op), who, true, now)
      == (WithEvent(db.(rows := AppendRow(db.rows, id, v, content, now)), excluded,
                    SecurityEvent(ActionOf(op), true, Author(content), Key(id, v + 1))),
          Success(Saved(v + 1, content)))
  {
    assert EventOf(op, who).actor == who;
  }

  lemma {:induction false} OperateKeepsInv(db: Database, excluded: set<string>, id: string, v: nat, op: Operation,
                                           who: string, now: Clock, content: Instruction)
    requires Inv(db, excluded)
    requires OpenVersion(db.rows, id) == Some(v) && Permits(db.rows[Key(id, v)].payload, op)
    requires content == Apply(db.rows[Key(id, v)].payload, op, who, now)
    ensures Inv(Serve(db, excluded, id, Operate(op), who, true, now).0, excluded)
  {
    OperateAppends(db, excluded, id, v, op, who, now, content);
    AppendKeepsLogs(db.rows, id, v, op, who, now, content);
    AppendKeepsMatch(db, excluded, id, v, content, ActionOf(op), now);
  }

  lemma {:induction false} ServeKeepsInv(db: Database, excluded: set<string>, id: string, request: Request,
                                         who: string, allowed: bool, now: Clock)
    requires Inv(db, excluded)
    ensures Inv(Serve(db, excluded, id, request, who, allowed, now).0, excluded)
  {
    match request
    case Create(route) =>
      if !allowed {
        EventKeepsMatch(db.rows, db.rows, Author, db.events, excluded, SecurityEvent(CREATE, false, who, Key(id, 0)));
      } else if Key(id, 1) !in db.rows {
        CreateKeepsInv(db, excluded, id, route, who, now);
      }
    case Operate(op) =>
      var open := OpenVersion(db.rows, id);
      if open.Some? && Permits(db.rows[Key(id, open.value)].payload, op) {
        if allowed {
          OperateKeepsInv(db, excluded, id, open.value, op, who, now,
                          Apply(db.rows[Key(id, open.value)].payload, op, who, now));
        } else {
          EventKeepsMatch(db.rows, db.rows, Author, db.events, excluded, SecurityEvent(ActionOf(op), false, who, Key(id, open.value)));
        }
      }
  }

  datatype Call = Call(id: string, request: Request, who: string, allowed: bool, now: Clock)

  ghost function ServeAll(calls: seq<Call>, excluded: set<string>): Database {
    if calls == [] then Database(map[], [])
    else
      var c := calls[|calls| - 1];
      Serve(ServeAll(calls[..|calls| - 1], excluded), excluded, c.id, c.request, c.who, c.allowed, c.now).0
  }

  /**
   Over every sequence of calls: rows are chains 1..n, every row agrees with its event log,
   each version adds one operation to the previous one, and mutation events match rows.
   */
  lemma {:induction false} EveryHistoryReplays(calls: seq<Call>, excluded: set<string>)
    ensures Inv(ServeAll(calls, excluded), excluded)
    decreases |calls|
  {
    if calls != [] {
      EveryHistoryReplays(calls[..|calls| - 1], excluded);
      var c := calls[|calls| - 1];
      ServeKeepsInv(ServeAll(calls[..|calls| - 1], excluded), excluded, c.id, c.request, c.who, c.allowed, c.now);
    }
  }

  /** What the replay says about a stored row, spelled out. */
  lemma {:induction false} StoredRowsReplay(calls: seq<Call>, excluded: set<string>, id: string, v: nat)
    requires Key(id, v) in ServeAll(calls, excluded).rows
    ensures var i := ServeAll(calls, excluded).rows[Key(id, v)].payload;
      && |i.lifecycleEvents| == v
      && Replay(i.lifecycleEvents, i.route.instructionType) == Some(i.status)
      && i.usageCount == CountOf(i.lifecycleEvents, USE) - CountOf(i.lifecycleEvents, RELEASE_USE)
      && (i.route.instructionType == SINGLE_USE ==>
            (i.status == USED <==> i.usageCount == 1) && (i.status == USED <==> i.usedBy.Some?))
      && StampsAgree(i)
    ensures v > 1 ==>
      var rows := ServeAll(calls, excluded).rows;
      && Key(id, v - 1) in rows
      && rows[Key(id, v)].payload.lifecycleEvents[..v - 1] == rows[Key(id, v - 1)].payload.lifecycleEvents
  {
    EveryHistoryReplays(calls, excluded);
    var rows := ServeAll(calls, excluded).rows;
    assert LogAt(rows, Key(id, v)) && WellFormedAt(rows, Key(id, v));
    if v > 1 {
      var before := rows[Key(id, v - 1)].payload;
      assert LogAt(rows, Key(id, v - 1));
      var op, who, now :| Permits(before, op) && rows[Key(id, v)].payload == Apply(before, op, who, now);
      ApplyAgreesWithLog(before, op, who, now, v - 1);
    }
  }

  // ----- What a call does, field by field ---------------------------------------------

  /**
   A call on the open row v: refused by status, denied by policy, or served. Served, it closes row
   v, inserts `written` as row v + 1, logs the action and replies with the new row.
   */
  ghost predicate Done(before: Database, after: Database, r: Result<Saved, ServiceError>, excluded: set<string>,
                       id: string, v: nat, permitted: bool, allowed: bool, action: LifecycleAction, who: string,
                       now: Clock, written: Instruction)
    requires Key(id, v) in before.rows
  {
    if !permitted then r == Failure(InvalidStateTransition) && after == before
    else if !allowed then
      && r == Failure(PermissionDenied) && after.rows == before.rows
      && Logs(before.events, after.events, excluded, action, false, who, Key(id, v))
    else
      && r == Success(Saved(v + 1, written))
      && after.rows == before.rows[Key(id, v) := before.rows[Key(id, v)].(validOut := Some(now))]
                                  [Key(id, v + 1) := Row(now, None, written)]
      && Logs(before.events, after.events, excluded, action, true, who, Key(id, v + 1))
  }

  /** Without an open row nothing is done. */
  ghost predicate Missing(before: Database, after: Database, r: Result<Saved, ServiceError>, id: string) {
    (forall v: nat :: !IsOpen(before.rows, id, v)) ==> r == Failure(NotFound) && after == before
  }

  // ----- The service object ---------------------------------------------------------

  class InstructionService {
    const repository: Storage.VersionCollection<Instruction>
    const excluded: set<string>
    var securityEvents: seq<Event>

    ghost predicate Valid()
      reads this, repository
    {
      repository.Valid()
    }

    ghost function Db(): Database
      reads this, repository
    {
      Database(repository.rows, securityEvents)
    }

    constructor (repository: Storage.VersionCollection<Instruction>, excluded: set<string>)
      requires repository.Valid()
      ensures Valid() && this.repository == repository && this.excluded == excluded
      ensures Db() == Database(repository.rows, [])
    {
      this.repository, this.excluded := repository, excluded;
      securityEvents := [];
    }

    method EmitEvent(e: Event)
      modifies this`securityEvents
      ensures Db() == WithEvent(old(Db()), excluded, e)
    {
      if e.actor !in excluded {
        securityEvents := securityEvents + [e];
      }
    }

    /** get_current followed by the operation's status guard. */
    method Load(id: string, op: Operation) returns (r: Result<Saved, ServiceError>)
      requires Valid()
      ensures var open := OpenVersion(repository.rows, id);
        r == if open.None? then Failure(NotFound)
             else if !Permits(repository.rows[Key(id, open.value)].payload, op) then Failure(InvalidStateTransition)
             else Success(Saved(open.value, repository.rows[Key(id, open.value)].payload))
      ensures forall v: nat :: IsOpen(repository.rows, id, v) ==> OpenVersion(repository.rows, id) == Some(v)
    {
      forall v: nat | IsOpen(repository.rows, id, v)
        ensures OpenVersion(repository.rows, id) == Some(v)
      {
        OnlyOneOpen(repository.rows, id, v, OpenVersion(repository.rows, id).value);
      }
      var current := repository.GetCurrent(id);
      if current.Failure? { return Failure(NotFound); }
      OnlyOneOpen(repository.rows, id, current.value.versionNumber, OpenVersion(repository.rows, id).value);
      if !Permits(current.value.row.payload, op) { return Failure(InvalidStateTransition); }
      r := Success(Saved(current.value.versionNumber, current.value.row.payload));
    }

    /** Appends the event to the log, closes and inserts the rows, and writes the security event. */
    method PersistNewVersion(id: string, changed: Instruction, e: LifecycleEvent, now: Clock, ghost v: nat)
      returns (r: Result<Saved, ServiceError>)
      requires Valid() && OpenVersion(repository.rows, id) == Some(v)
      modifies this`securityEvents, repository
      ensures Valid()
      ensures var content := Record(changed, e).(updatedAt := now);
        && r == Success(Saved(v + 1, content))
        && Db() == WithEvent(old(Db()).(rows := AppendRow(old(repository.rows), id, v, content, now)), excluded,
                             SecurityEvent(e.action, true, e.actor, Key(id, v + 1)))
    {
      var instruction := changed.(lifecycleEvents := changed.lifecycleEvents + [e]);
      instruction := instruction.(updatedAt := now);
      ghost var before := repository.rows;
      var saved := repository.AppendVersion(id, instruction, now);
      if saved.Success? { OnlyOneOpen(before, id, v, saved.value.versionNumber - 1); }
      EmitEvent(SecurityEvent(e.action, true, e.actor, Key(id, saved.value.versionNumber)));
      r := Success(Saved(saved.value.versionNumber, saved.value.row.payload));
    }

    method Create(id: string, route: Route, who: string, allowed: bool, now: Clock)
      returns (r: Result<Saved, ServiceError>)
      requires Valid()
      modifies this`securityEvents, repository
      ensures Valid()
      ensures (Db(), r) == Serve(old(Db()), excluded, id, Request.Create(route), who, allowed, now)
      ensures r.Failure? ==> r.error == (if allowed then DuplicateId else PermissionDenied)
      ensures r.Success? <==> allowed && Key(id, 1) !in old(repository.rows)
      ensures r.Failure? ==> repository.rows == old(repository.rows)
      ensures r.Success? ==>
        && r.value.version == 1 && repository.rows == old(repository.rows)[Key(id, 1) := Row(now, None, r.value.instruction)]
        && r.value.instruction
           == Instruction(route, DRAFT, who, now, None, None, None, None, None, None, None, None, None, None, 0, None,
                          [LifecycleEvent(CREATE, who, None, None)])
      ensures if allowed && r.Failure? then securityEvents == old(securityEvents)
              else Logs(old(securityEvents), securityEvents, excluded, CREATE, allowed, who, Key(id, if allowed then 1 else 0))
    {
      var instruction := NewInstruction(route, who, now).(lifecycleEvents := []);
      if !allowed {
        EmitEvent(SecurityEvent(CREATE, false, who, Key(id, 0)));
        return Failure(PermissionDenied);
      }
      instruction := instruction.(lifecycleEvents := instruction.lifecycleEvents + [LifecycleEvent(CREATE, who, None, None)]);
      assert instruction == NewInstruction(route, who, now);
      var saved := repository.InsertInitial(id, instruction, now);
      if saved.Failure? { return Failure(DuplicateId); }
      EmitEvent(SecurityEvent(CREATE, true, who, Key(id, 1)));
      r := Success(Saved(saved.value.versionNumber, saved.value.row.payload));
    }

    /** The request replaces the whole route, the instruction type included. */
    method Update(id: string, route: Route, who: string, allowed: bool, now: Clock) returns (r: Result<Saved, ServiceError>)
      requires Valid()
      modifies this`securityEvents, repository
      ensures Valid()
      ensures (Db(), r) == Serve(old(Db()), excluded, id, Operate(Operation.Update(route)), who, allowed, now)
      ensures Missing(old(Db()), Db(), r, id)
      ensures forall v: nat :: IsOpen(old(repository.rows), id, v) ==>
        var i := old(repository.rows)[Key(id, v)].payload;
        Done(old(Db()), Db(), r, excluded, id, v, i.status == DRAFT, allowed, UPDATE, who, now,
             i.(route := route, updatedAt := now, lifecycleEvents := i.lifecycleEvents + [LifecycleEvent(UPDATE, who, None, None)]))
    {
      var current := Load(id, Operation.Update(route));
      if current.Failure? { return Failure(current.error); }
      var instruction := current.value.instruction;
      if !allowed {
        EmitEvent(SecurityEvent(UPDATE, false, who, Key(id, current.value.version)));
        return Failure(PermissionDenied);
      }
      instruction := instruction.(route := route);
      r := PersistNewVersion(id, instruction, LifecycleEvent(UPDATE, who, None, None), now, current.value.version);
    }

    /** DRAFT or SUBMITTED only. */
    method Cancel(id: string, reason: Option<string>, who: string, allowed: bool, now: Clock) returns (r: Result<Saved, ServiceError>)
      requires Valid()
      modifies this`securityEvents, repository
      ensures Valid()
      ensures (Db(), r) == Serve(old(Db()), excluded, id, Operate(Operation.Cancel(reason)), who, allowed, now)
      ensures Missing(old(Db()), Db(), r, id)
      ensures forall v: nat :: IsOpen(old(repository.rows), id, v) ==>
        var i := old(repository.rows)[Key(id, v)].payload;
        Done(old(Db()), Db(), r, excluded, id, v, i.status == DRAFT || i.status == SUBMITTED, allowed, CANCEL, who, now,
             i.(status := CANCELLED, cancelledAt := Some(now), updatedAt := now,
                lifecycleEvents := i.lifecycleEvents + [LifecycleEvent(CANCEL, who, None, reason)]))
    {
      var current := Load(id, Operation.Cancel(reason));
      if current.Failure? { return Failure(current.error); }
      var instruction := current.value.instruction;
      if !allowed {
        EmitEvent(SecurityEvent(CANCEL, false, who, Key(id, current.value.version)));
        return Failure(PermissionDenied);
      }
      instruction := instruction.(status := CANCELLED);
      instruction := instruction.(cancelledAt := Some(now));
      r := PersistNewVersion(id, instruction, LifecycleEvent(CANCEL, who, None, reason), now, current.value.version);
    }

    /** DRAFT to SUBMITTED. */
    method Submit(id: string, who: string, allowed: bool, now: Clock) returns (r: Result<Saved, ServiceError>)
      requires Valid()
      modifies this`securityEvents, repository
      ensures Valid()
      ensures (Db(), r) == Serve(old(Db()), excluded, id, Operate(Operation.Submit), who, allowed, now)
      ensures Missing(old(Db()), Db(), r, id)
      ensures forall v: nat :: IsOpen(old(repository.rows), id, v) ==>
        var i := old(repository.rows)[Key(id, v)].payload;
        Done(old(Db()), Db(), r, excluded, id, v, i.status == DRAFT, allowed, SUBMIT, who, now,
             i.(status := SUBMITTED, submittedAt := Some(now), updatedAt := now,
                lifecycleEvents := i.lifecycleEvents + [LifecycleEvent(SUBMIT, who, None, None)]))
    {
      var current := Load(id, Operation.Submit);
      if current.Failure? { return Failure(current.error); }
      var instruction := current.value.instruction;
      if !allowed {
        EmitEvent(SecurityEvent(SUBMIT, false, who, Key(id, current.value.version)));
        return Failure(PermissionDenied);
      }
      instruction := instruction.(status := SUBMITTED);
      instruction := instruction.(submittedAt := Some(now));
      r := PersistNewVersion(id, instruction, LifecycleEvent(SUBMIT, who, None, None), now, current.value.version);
    }

    /** SUBMITTED to APPROVED. */
    method Approve(id: string, who: string, allowed: bool, now: Clock) returns (r: Result<Saved, ServiceError>)
      requires Valid()
      modifies this`securityEvents, repository
      ensures Valid()
      ensures (Db(), r) == Serve(old(Db()), excluded, id, Operate(Operation.Approve), who, allowed, now)
      ensures Missing(old(Db()), Db(), r, id)
      ensures forall v: nat :: IsOpen(old(repository.rows), id, v) ==>
        var i := old(repository.rows)[Key(id, v)].payload;
        Done(old(Db()), Db(), r, excluded, id, v, i.status == SUBMITTED, allowed, APPROVE, who, now,
             i.(status := APPROVED, approvedBy := Some(who), approvedAt := Some(now), updatedAt := now,
                lifecycleEvents := i.lifecycleEvents + [LifecycleEvent(APPROVE, who, None, None)]))
    {
      var current := Load(id, Operation.Approve);
      if current.Failure? { return Failure(current.error); }
      var instruction := current.value.instruction;
      if !allowed {
        EmitEvent(SecurityEvent(APPROVE, false, who, Key(id, current.value.version)));
        return Failure(PermissionDenied);
      }
      instruction := instruction.(status := APPROVED);
      instruction := instruction.(approvedBy := Some(who));
      instruction := instruction.(approvedAt := Some(now));
      r := PersistNewVersion(id, instruction, LifecycleEvent(APPROVE, who, None, None), now, current.value.version);
    }

    /** SUBMITTED to REJECTED. */
    method Reject(id: string, why: string, who: string, allowed: bool, now: Clock) returns (r: Result<Saved, ServiceError>)
      requires Valid()
      modifies this`securityEvents, repository
      ensures Valid()
      ensures (Db(), r) == Serve(old(Db()), excluded, id, Operate(Operation.Reject(why)), who, allowed, now)
      ensures Missing(old(Db()), Db(), r, id)
      ensures forall v: nat :: IsOpen(old(repository.rows), id, v) ==>
        var i := old(repository.rows)[Key(id, v)].payload;
        Done(old(Db()), Db(), r, excluded, id, v, i.status == SUBMITTED, allowed, REJECT, who, now,
             i.(status := REJECTED, rejectedBy := Some(who), rejectedAt := Some(now), rejectionReason := Some(why), updatedAt := now,
                lifecycleEvents := i.lifecycleEvents + [LifecycleEvent(REJECT, who, None, Some(why))]))
    {
      var current := Load(id, Operation.Reject(why));
      if current.Failure? { return Failure(current.error); }
      var instruction := current.value.instruction;
      if !allowed {
        EmitEvent(SecurityEvent(REJECT, false, who, Key(id, current.value.version)));
        return Failure(PermissionDenied);
      }
      instruction := instruction.(status := REJECTED);
      instruction := instruction.(rejectedBy := Some(who));
      instruction := instruction.(rejectedAt := Some(now));
      instruction := instruction.(rejectionReason := Some(why));
      r := PersistNewVersion(id, instruction, LifecycleEvent(REJECT, who, None, Some(why)), now, current.value.version);
    }

    /** APPROVED to SUSPENDED. */
    method Suspend(id: string, who: string, allowed: bool, now: Clock) returns (r: Result<Saved, ServiceError>)
      requires Valid()
      modifies this`securityEvents, repository
      ensures Valid()
      ensures (Db(), r) == Serve(old(Db()), excluded, id, Operate(Operation.Suspend), who, allowed, now)
      ensures Missing(old(Db()), Db(), r, id)
      ensures forall v: nat :: IsOpen(old(repository.rows), id, v) ==>
        var i := old(repository.rows)[Key(id, v)].payload;
        Done(old(Db()), Db(), r, excluded, id, v, i.status == APPROVED, allowed, SUSPEND, who, now,
             i.(status := SUSPENDED, suspendedBy := Some(who), suspendedAt := Some(now), updatedAt := now,
                lifecycleEvents := i.lifecycleEvents + [LifecycleEvent(SUSPEND, who, None, None)]))
    {
      var current := Load(id, Operation.Suspend);
      if current.Failure? { return Failure(current.error); }
      var instruction := current.value.instruction;
      if !allowed {
        EmitEvent(SecurityEvent(SUSPEND, false, who, Key(id, current.value.version)));
        return Failure(PermissionDenied);
      }
      instruction := instruction.(status := SUSPENDED);
      instruction := instruction.(suspendedBy := Some(who));
      instruction := instruction.(suspendedAt := Some(now));
      r := PersistNewVersion(id, instruction, LifecycleEvent(SUSPEND, who, None, None), now, current.value.version);
    }

    /** SUSPENDED back to APPROVED. */
    method Reactivate(id: string, who: string, allowed: bool, now: Clock) returns (r: Result<Saved, ServiceError>)
      requires Valid()
      modifies this`securityEvents, repository
      ensures Valid()
      ensures (Db(), r) == Serve(old(Db()), excluded, id, Operate(Operation.Reactivate), who, allowed, now)
      ensures Missing(old(Db()), Db(), r, id)
      ensures forall v: nat :: IsOpen(old(repository.rows), id, v) ==>
        var i := old(repository.rows)[Key(id, v)].payload;
        Done(old(Db()), Db(), r, excluded, id, v, i.status == SUSPENDED, allowed, REACTIVATE, who, now,
             i.(status := APPROVED, suspendedBy := None, suspendedAt := None, updatedAt := now,
                lifecycleEvents := i.lifecycleEvents + [LifecycleEvent(REACTIVATE, who, None, None)]))
    {
      var current := Load(id, Operation.Reactivate);
      if current.Failure? { return Failure(current.error); }
      var instruction := current.value.instruction;
      if !allowed {
        EmitEvent(SecurityEvent(REACTIVATE, false, who, Key(id, current.value.version)));
        return Failure(PermissionDenied);
      }
      instruction := instruction.(status := APPROVED);
      instruction := instruction.(suspendedBy := None);
      instruction := instruction.(suspendedAt := None);
      r := PersistNewVersion(id, instruction, LifecycleEvent(REACTIVATE, who, None, None), now, current.value.version);
    }

    /** Counts the use; a SINGLE_USE instruction becomes USED by the payment. */
    method Use(id: string, paymentReference: string, who: string, allowed: bool, now: Clock) returns (r: Result<Saved, ServiceError>)
      requires Valid()
      modifies this`securityEvents, repository
      ensures Valid()
      ensures (Db(), r) == Serve(old(Db()), excluded, id, Operate(Operation.Use(paymentReference)), who, allowed, now)
      ensures Missing(old(Db()), Db(), r, id)
      ensures forall v: nat :: IsOpen(old(repository.rows), id, v) ==>
        var i := old(repository.rows)[Key(id, v)].payload;
        Done(old(Db()), Db(), r, excluded, id, v, i.status == APPROVED, allowed, USE, who, now,
             i.(status := if i.route.instructionType == SINGLE_USE then USED else APPROVED,
                usedBy := if i.route.instructionType == SINGLE_USE then Some(paymentReference) else i.usedBy,
                usageCount := i.usageCount + 1, lastUsedAt := Some(now), updatedAt := now,
                lifecycleEvents := i.lifecycleEvents + [LifecycleEvent(USE, who, Some(paymentReference), None)]))
    {
      var current := Load(id, Operation.Use(paymentReference));
      if current.Failure? { return Failure(current.error); }
      var instruction := current.value.instruction;
      if !allowed {
        EmitEvent(SecurityEvent(USE, false, who, Key(id, current.value.version)));
        return Failure(PermissionDenied);
      }
      instruction := instruction.(usageCount := instruction.usageCount + 1);
      instruction := instruction.(lastUsedAt := Some(now));
      if instruction.route.instructionType == SINGLE_USE {
        instruction := instruction.(status := USED);
        instruction := instruction.(usedBy := Some(paymentReference));
      }
      r := PersistNewVersion(id, instruction, LifecycleEvent(USE, who, Some(paymentReference), None), now, current.value.version);
    }

    /** USED back to APPROVED, for the payment that holds the instruction only. */
    method ReleaseUse(id: string, paymentReference: string, who: string, allowed: bool, now: Clock) returns (r: Result<Saved, ServiceError>)
      requires Valid()
      modifies this`securityEvents, repository
      ensures Valid()
      ensures (Db(), r) == Serve(old(Db()), excluded, id, Operate(Operation.ReleaseUse(paymentReference)), who, allowed, now)
      ensures Missing(old(Db()), Db(), r, id)
      ensures forall v: nat :: IsOpen(old(repository.rows), id, v) ==>
        var i := old(repository.rows)[Key(id, v)].payload;
        Done(old(Db()), Db(), r, excluded, id, v, i.route.instructionType == SINGLE_USE && i.status == USED && i.usedBy == Some(paymentReference), allowed, RELEASE_USE, who, now,
             i.(status := APPROVED, usedBy := None, usageCount := if i.usageCount > 0 then i.usageCount - 1 else i.usageCount, updatedAt := now,
                lifecycleEvents := i.lifecycleEvents + [LifecycleEvent(RELEASE_USE, who, Some(paymentReference), None)]))
    {
      var current := Load(id, Operation.ReleaseUse(paymentReference));
      if current.Failure? { return Failure(current.error); }
      var instruction := current.value.instruction;
      if !allowed {
        EmitEvent(SecurityEvent(RELEASE_USE, false, who, Key(id, current.value.version)));
        return Failure(PermissionDenied);
      }
      instruction := instruction.(status := APPROVED);
      instruction := instruction.(usedBy := None);
      if instruction.usageCount > 0 {
        instruction := instruction.(usageCount := instruction.usageCount - 1);
      }
      r := PersistNewVersion(id, instruction, LifecycleEvent(RELEASE_USE, who, Some(paymentReference), None), now, current.value.version);
    }
  }
}
