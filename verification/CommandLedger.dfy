/** The command ledger: how acknowledgements, state reports, publication results
    and deadlines move one durable row, and the service that applies them. */
module CommandLedger {
  import opened Common
  import opened CommandRecords
  import opened ControlClock
  import opened ControlAuthority

  /** The clock readings one operation takes; each use of the clock has its own. */
  datatype Stamps = Stamps(expire: int, ack: int, update: int, dispatch: int, report: int, finish: int)

  // ----- one row -----

  function Finish(row: CommandRow, status: Status, code: Option<FailureCode>, at: int): CommandRow {
    row.(status := status, failureCode := code, updatedAt := at, completedAt := Some(at))
  }

  function ExpireRow(row: CommandRow, expired: bool, at: int): CommandRow {
    if Pending(row.status) && expired then Finish(row, TimedOut, Some(DeadlineExceeded), at) else row
  }

  predicate Eligible(row: CommandRow, retained: bool) {
    !retained && Pending(row.status) && row.dispatchStartedAt.Some?
  }

  predicate Confirmed(row: CommandRow, bound: bool) {
    && row.ackStatus == Some(AckApplied) && bound
    && row.stateReceivedAt.Some? && row.reportedOn == Some(row.requestedOn)
  }

  function Confirm(row: CommandRow, bound: bool, at: int): CommandRow {
    if Confirmed(row, bound) then Finish(row, Applied, None, at) else row
  }

  predicate Negative(s: AckStatus) {
    s.Rejected? || s.AckFailed?
  }

  function OrElse(x: Option<int>, y: int): Option<int> {
    if x.Some? then x else Some(y)
  }

  /** `bound` tells that a permit binding is stored, or that none is needed. */
  function AckRow(row: CommandRow, status: AckStatus, retained: bool, expired: bool, bound: bool, t: Stamps): CommandRow {
    var r := ExpireRow(row, expired, t.expire);
    if !Eligible(r, retained) || (status.AckApplied? && !bound) then r
    else if Negative(status) then
      Finish(r.(ackStatus := Some(status), ackReceivedAt := Some(t.ack)), Failed,
        Some(if status.Rejected? then DeviceRejected else DeviceFailed), t.finish)
    else if r.ackStatus == Some(AckApplied) || r.ackStatus == Some(status) then r
    else
      Confirm(r.(ackStatus := Some(status), ackReceivedAt := Some(t.ack), updatedAt := t.update,
                 status := Dispatched, dispatchedAt := OrElse(r.dispatchedAt, t.dispatch)), bound, t.finish)
  }

  /** `on` is the reported value if it is a boolean at all. */
  function ReportRow(row: CommandRow, on: Option<bool>, retained: bool, expired: bool, bound: bool, t: Stamps): CommandRow {
    var r := ExpireRow(row, expired, t.expire);
    if !Eligible(r, retained) || !bound || on.None? then r
    else Confirm(r.(reportedOn := on, stateReceivedAt := Some(t.report), updatedAt := t.update), bound, t.finish)
  }

  function PublishedRow(row: CommandRow, expired: bool, t: Stamps): CommandRow {
    var r := ExpireRow(row, expired, t.expire);
    if Pending(r.status)
    then r.(status := Dispatched, dispatchedAt := OrElse(r.dispatchedAt, t.dispatch), updatedAt := t.update)
    else r
  }

  function PublishFailedRow(row: CommandRow, expired: bool, t: Stamps): CommandRow {
    var r := ExpireRow(row, expired, t.expire);
    if Pending(r.status) then Finish(r, Failed, Some(PublishUnconfirmed), t.finish) else r
  }

  lemma RowOperationsPreserve(row: CommandRow, status: AckStatus, on: Option<bool>, retained: bool, expired: bool, bound: bool, t: Stamps)
    ensures Preserves(row, ExpireRow(row, expired, t.expire))
    ensures Preserves(row, AckRow(row, status, retained, expired, bound, t))
    ensures Preserves(row, ReportRow(row, on, retained, expired, bound, t))
    ensures Preserves(row, PublishedRow(row, expired, t))
    ensures Preserves(row, PublishFailedRow(row, expired, t))
  {
  }

  // ----- the service -----

  /** The readings behind one operation: the software clock or the control tick for
      the expiry test, and the stamps for what it writes. */
  datatype Probe = Probe(now: int, tick: TickReading, stamps: Stamps)

  datatype AckEnvelope = AckEnvelope(commandId: Id, correlationId: Id, status: AckStatus)
  datatype StateEnvelope = StateEnvelope(correlationId: Id, on: Option<bool>)

  /** Control commands are judged by the permit authority, others by the calendar. */
  function Verdict(a: Authority, db: Database, c: Id, p: Probe): (Authority, Outcome<bool>)
    requires c in db.commands
  {
    if !Pending(db.commands[c].status) then (a, Done(false))
    else if c in db.controls then ExpiredStep(a, c, db.controls[c], p.tick)
    else (a, Done(db.commands[c].expiresAt <= p.now))
  }

  predicate Bound(db: Database, c: Id) {
    c in db.controls ==> db.controls[c].binding.Some?
  }

  /** Applies a row operation after the expiry test; an unavailable clock aborts it. */
  function Touch(a: Authority, db: Database, c: Id, p: Probe, change: (CommandRow, bool) -> CommandRow): Result<()>
    requires c in db.commands
  {
    var (a1, expired) := Verdict(a, db, c, p);
    if expired.Refused? then Result(a1, db, Refused(expired.error))
    else Result(a1, db.(commands := db.commands[c := change(db.commands[c], expired.value)]), Done(()))
  }

  predicate FoundExactly(db: Database, at: Device, e: AckEnvelope) {
    Found(db, at, e.commandId) && db.commands[e.commandId].correlationId == e.correlationId
  }

  function AckStep(a: Authority, db: Database, at: Device, e: AckEnvelope, retained: bool, p: Probe): Result<()> {
    if !FoundExactly(db, at, e) then Result(a, db, Done(()))
    else Touch(a, db, e.commandId, p, (row: CommandRow, expired: bool) =>
      AckRow(row, e.status, retained, expired, Bound(db, e.commandId), p.stamps))
  }

  function StateStep(a: Authority, db: Database, c: Id, e: StateEnvelope, retained: bool, p: Probe): Result<()>
    requires c in db.commands
  {
    Touch(a, db, c, p, (row: CommandRow, expired: bool) =>
      ReportRow(row, e.on, retained, expired, Bound(db, c), p.stamps))
  }

  function GetStep(a: Authority, db: Database, c: Id, p: Probe): Result<()>
    requires c in db.commands
  {
    Touch(a, db, c, p, (row: CommandRow, expired: bool) => ExpireRow(row, expired, p.stamps.expire))
  }

  predicate Correlated(db: Database, at: Device, correlationId: Id, c: Id) {
    Found(db, at, c) && db.commands[c].correlationId == correlationId
  }

  /** Who decides that a command is overdue: nobody once it is decided, the permit
      authority for control commands, the calendar for all others. */
  lemma OverdueExactlyWhen(a: Authority, db: Database, c: Id, p: Probe)
    requires c in db.commands
    ensures var row, (a', o) := db.commands[c], Verdict(a, db, c, p);
            && (row.status != Queued && row.status != Dispatched ==> a' == a && o == Done(false))
            && ((row.status == Queued || row.status == Dispatched) && c !in db.controls ==> a' == a && o == Done(row.expiresAt <= p.now))
            && ((row.status == Queued || row.status == Dispatched) && c in db.controls ==>
                  (a', o) == ExpiredStep(a, c, db.controls[c], p.tick))
  {
  }

  /** The permit that a control command needs is there. */
  predicate Permitted(db: Database, c: Id) {
    c !in db.controls || db.controls[c].binding.Some?
  }

  /** An acknowledgement reaches the row with its command identifier if house, device and
      correlation match too, and no row otherwise. */
  lemma AckReaches(a: Authority, db: Database, at: Device, e: AckEnvelope, retained: bool, p: Probe)
    ensures var c, r := e.commandId, AckStep(a, db, at, e, retained, p);
            var meant := c in db.commands && db.commands[c].houseId == at.houseId && db.commands[c].deviceId == at.deviceId
                         && db.commands[c].correlationId == e.correlationId;
            && (!meant ==> r == Result(a, db, Done(())))
            && (meant ==>
                  var v := Verdict(a, db, c, p);
                  && r.auth == v.0
                  && (v.1.Refused? ==> r.db == db && r.answer == Refused(v.1.error))
                  && (v.1.Done? ==>
                        && r.answer == Done(())
                        && r.db == db.(commands := db.commands[c :=
                             AckRow(db.commands[c], e.status, retained, v.1.value, Permitted(db, c), p.stamps)])))
  {
    hide AckRow, Verdict;
    assert Bound(db, e.commandId) == Permitted(db, e.commandId);
  }

  /** A state report reaches the row of its house, device and correlation. */
  lemma ReportReaches(a: Authority, db: Database, at: Device, c: Id, e: StateEnvelope, retained: bool, p: Probe)
    requires c in db.commands
    ensures Correlated(db, at, e.correlationId, c) <==>
              db.commands[c].houseId == at.houseId && db.commands[c].deviceId == at.deviceId && db.commands[c].correlationId == e.correlationId
    ensures var r, v := StateStep(a, db, c, e, retained, p), Verdict(a, db, c, p);
            && r.auth == v.0
            && (v.1.Refused? ==> r.db == db && r.answer == Refused(v.1.error))
            && (v.1.Done? ==>
                  && r.answer == Done(())
                  && r.db == db.(commands := db.commands[c :=
                       ReportRow(db.commands[c], e.on, retained, v.1.value, Permitted(db, c), p.stamps)]))
  {
    hide ReportRow, Verdict;
    assert Bound(db, c) == Permitted(db, c);
  }

  class CommandService {
    const session: Session
    const authority: ControlAuthority

    constructor (session: Session, authority: ControlAuthority)
      ensures this.session == session && this.authority == authority
    {
      this.session := session;
      this.authority := authority;
    }

    /** Tests the deadline and stores a timeout; the refusal is the raised error. */
    method Expire(c: Id, p: Probe) returns (o: Outcome<()>)
      requires c in session.commands
      modifies session`commands, authority.clock
      ensures Result(authority.Model(), session.Db(), o) == GetStep(old(authority.Model()), old(session.Db()), c, p)
    {
      var row := session.commands[c];
      if !Pending(row.status) {
        assert session.commands == session.commands[c := row];
        return Done(());
      }
      var expired := Done(row.expiresAt <= p.now);
      if c in session.controls {
        expired := authority.Expired(c, session.controls[c], p.tick);
        if expired.Refused? {
          return Refused(expired.error);
        }
      }
      if expired.value {
        row := Finish(row, TimedOut, Some(DeadlineExceeded), p.stamps.expire);
      }
      session.commands := session.commands[c := row];
      return Done(());
    }

    /** A committed acknowledgement; after a refusal the transaction is rolled back. */
    method Ack(at: Device, e: AckEnvelope, retained: bool, p: Probe) returns (o: Outcome<()>)
      modifies session`commands, authority.clock
      ensures Result(authority.Model(), session.Db(), o) == AckStep(old(authority.Model()), old(session.Db()), at, e, retained, p)
    {
      if !FoundExactly(session.Db(), at, e) {
        return Done(());
      }
      var c := e.commandId;
      o := Expire(c, p);
      if o.Refused? {
        return;
      }
      var row, t := session.commands[c], p.stamps;
      if Eligible(row, retained) && !(e.status.AckApplied? && !Bound(session.Db(), c)) {
        if Negative(e.status) || (row.ackStatus != Some(AckApplied) && row.ackStatus != Some(e.status)) {
          row := row.(ackStatus := Some(e.status), ackReceivedAt := Some(t.ack), updatedAt := t.update);
          if Negative(e.status) {
            row := Finish(row, Failed, Some(if e.status.Rejected? then DeviceRejected else DeviceFailed), t.finish);
          } else {
            row := row.(status := Dispatched, dispatchedAt := OrElse(row.dispatchedAt, t.dispatch));
            row := Confirm(row, Bound(session.Db(), c), t.finish);
          }
        }
      }
      session.commands := session.commands[c := row];
    }

    method FindByCorrelation(at: Device, correlationId: Id) returns (found: Option<Id>)
      ensures found.Some? ==> Correlated(session.Db(), at, correlationId, found.value)
      ensures found.None? ==> forall c :: !Correlated(session.Db(), at, correlationId, c)
    {
      var matching := set c | c in session.commands && Correlated(session.Db(), at, correlationId, c);
      assert forall c :: Correlated(session.Db(), at, correlationId, c) ==> c in matching;
      if matching == {} {
        return None;
      }
      var c :| c in matching;
      return Some(c);
    }

    /** State reports are matched by correlation, which the ledger keeps unique. */
    method State(at: Device, e: StateEnvelope, retained: bool, p: Probe) returns (o: Outcome<()>)
      requires LedgerConstraints(session.commands)
      modifies session`commands, authority.clock
      ensures forall c :: Correlated(old(session.Db()), at, e.correlationId, c) ==>
                Result(authority.Model(), session.Db(), o) == StateStep(old(authority.Model()), old(session.Db()), c, e, retained, p)
      ensures (forall c :: !Correlated(old(session.Db()), at, e.correlationId, c)) ==>
                Result(authority.Model(), session.Db(), o) == Result(old(authority.Model()), old(session.Db()), Done(()))
    {
      var found := FindByCorrelation(at, e.correlationId);
      if found.None? {
        return Done(());
      }
      ghost var before := session.Db();
      assert forall d :: Correlated(before, at, e.correlationId, d) ==> d == found.value by {
        assert Correlated(before, at, e.correlationId, found.value);
      }
      o := Report(found.value, e, retained, p);
    }

    /** The report for a row that was found. */
    method Report(c: Id, e: StateEnvelope, retained: bool, p: Probe) returns (o: Outcome<()>)
      requires c in session.commands
      modifies session`commands, authority.clock
      ensures Result(authority.Model(), session.Db(), o) == StateStep(old(authority.Model()), old(session.Db()), c, e, retained, p)
    {
      ghost var was, expired := session.commands[c], Verdict(authority.Model(), session.Db(), c, p).1;
      o := Expire(c, p);
      if o.Refused? {
        return;
      }
      var row, t := session.commands[c], p.stamps;
      if Eligible(row, retained) && Bound(session.Db(), c) && e.on.Some? {
        row := row.(reportedOn := e.on, stateReceivedAt := Some(t.report), updatedAt := t.update);
        row := Confirm(row, Bound(session.Db(), c), t.finish);
      }
      session.commands := session.commands[c := row];
      assert row == ReportRow(was, e.on, retained, expired.value, Bound(session.Db(), c), p.stamps);
    }
  }
}
