/** The transactions around provisioning attempts: create, read and cancel. */
module ProvisioningService {
  import opened Common
  import opened S = ProvisioningState

  const TTL := 300_000_000

  /** An application error, a missing permission, or a refusal of the state machine itself. */
  datatype Fault = App(error: Common.Error) | Forbidden | StateFailure(failure: Failure)

  datatype Reply<+T> = Ok(value: T) | Raised(fault: Fault)

  datatype CancelMark = CancelMark(keyHash: Id, actorId: Id, revision: nat)

  datatype Row = Row(
    houseId: Id, roomId: Id, deviceId: Id, actorId: Id, name: Id, status: Status, revision: nat,
    createdAt: int, expiresAt: int, challengeHash: Id, tokenHash: Id, createKey: Id, requestHash: Id,
    cancelled: Option<CancelMark>)

  type Sessions = map<Id, Row>

  datatype PublicStatus = PublicStatus(
    sessionId: Id, houseId: Id, deviceId: Id, roomId: Id, status: Status, revision: nat, expiresAt: int)

  function StateOf(id: Id, row: Row): State {
    State(id, row.houseId, row.deviceId, row.roomId, row.createdAt, row.expiresAt, row.challengeHash,
          row.status, row.revision, false, None)
  }

  function Public(id: Id, row: Row): PublicStatus {
    PublicStatus(id, row.houseId, row.deviceId, row.roomId, row.status, row.revision, row.expiresAt)
  }

  /** UNIQUE and CHECK constraints of the table. */
  predicate Clash(x: Row, y: Row) {
    || (x.houseId == y.houseId && x.actorId == y.actorId && x.createKey == y.createKey)
    || (x.deviceId == y.deviceId && x.status.Discovered? && y.status.Discovered?)
  }

  ghost predicate Constraints(t: Sessions) {
    && (forall i :: i in t ==>
          && t[i].createdAt < t[i].expiresAt
          && (t[i].status.Discovered? || t[i].status.Cancelled? || t[i].status.Expired?))
    && (forall i, j :: i in t && j in t && i != j ==> !Clash(t[i], t[j]))
  }

  function CallFor(row: Row, event: S.Event, now: int): Call {
    Call(event, row.revision, Aware(now), NoChallenge, None)
  }

  /** The guarded UPDATE of a locked row; the state machine has the first word. */
  function ApplyRow(id: Id, row: Row, event: S.Event, now: int, mark: Option<CancelMark>): Reply<Row> {
    var moved := Transition(StateOf(id, row), CallFor(row, event, now));
    if moved.Rejected? then Raised(StateFailure(moved.failure))
    else Ok(row.(status := moved.state.status, revision := moved.state.revision,
                 cancelled := if mark.Some? then mark else row.cancelled))
  }

  function ExpireRow(id: Id, row: Row, now: int): Row {
    if row.status.Discovered? && now >= row.expiresAt && ApplyRow(id, row, Expire, now, None).Ok?
    then ApplyRow(id, row, Expire, now, None).value
    else row
  }

  /** Expiry never fails on a stored row. */
  lemma ExpiryNeverFails(id: Id, row: Row, now: int)
    requires row.createdAt < row.expiresAt && row.status.Discovered? && now >= row.expiresAt
    ensures ApplyRow(id, row, Expire, now, None).Ok?
    ensures ExpireRow(id, row, now) == row.(status := Expired, revision := row.revision + 1)
  {
  }

  // ----- requests -----

  /** `codeDigest` is None when the claim code has the wrong format. */
  datatype Start = Start(houseId: Id, actorId: Id, hardwareId: Id, roomId: Id, name: Id, codeDigest: Option<Id>, key: Id, bodyHash: Id)

  datatype Item = Item(deviceId: Id, unprovisioned: bool, codeHash: Option<Id>)

  /** What the other tables answer during one transaction. */
  datatype Around = Around(access: Reply<()>, roomHouse: Option<Id>, item: Option<Item>, now: int)

  /** Identifiers and digests drawn for a new attempt. */
  datatype Draw = Draw(id: Id, challengeHash: Id, tokenHash: Id)

  predicate Created(row: Row, q: Start) {
    row.houseId == q.houseId && row.actorId == q.actorId && row.createKey == q.key
  }

  predicate IsActive(row: Row, deviceId: Id) {
    row.deviceId == deviceId && row.status.Discovered?
  }

  predicate Claimable(q: Start, around: Around) {
    && around.roomHouse == Some(q.houseId) && q.codeDigest.Some?
    && around.item.Some? && around.item.value.unprovisioned && around.item.value.codeHash == q.codeDigest
  }

  ghost predicate Finds(t: Sessions, q: Start, around: Around, previous: Option<Id>, active: Option<Id>) {
    && (if previous.Some? then previous.value in t && Created(t[previous.value], q) else forall i :: i in t ==> !Created(t[i], q))
    && (around.item.Some? ==>
          if active.Some? then active.value in t && IsActive(t[active.value], around.item.value.deviceId)
          else forall i :: i in t ==> !IsActive(t[i], around.item.value.deviceId))
  }

  function NewRow(q: Start, deviceId: Id, draw: Draw, now: int): Row {
    Row(q.houseId, q.roomId, deviceId, q.actorId, q.name, Discovered, 0, now, now + TTL,
        draw.challengeHash, draw.tokenHash, q.key, q.bodyHash, None)
  }

  /** The row fits beside all others. */
  predicate Fits(t: Sessions, id: Id, row: Row) {
    id !in t && forall i :: i in t ==> !Clash(t[i], row)
  }

  /** The table with the overdue attempt of the device, if any, moved out of the way. */
  function Vacated(t: Sessions, active: Option<Id>, now: int): Sessions
    requires active.Some? ==> active.value in t
  {
    if active.Some? then t[active.value := ExpireRow(active.value, t[active.value], now)] else t
  }

  function CreateStep(t: Sessions, q: Start, around: Around, previous: Option<Id>, active: Option<Id>, draw: Draw)
    : (Sessions, Reply<PublicStatus>)
    requires previous.Some? ==> previous.value in t
    requires active.Some? ==> active.value in t
  {
    if q.codeDigest.None? then (t, Raised(App(InvalidReference)))
    else if around.access.Raised? then (t, Raised(around.access.fault))
    else if previous.Some? then
      var i, row := previous.value, t[previous.value];
      if row.requestHash != q.bodyHash then (t, Raised(App(Conflict)))
      else (t[i := ExpireRow(i, row, around.now)], Ok(Public(i, ExpireRow(i, row, around.now))))
    else if !Claimable(q, around) then (t, Raised(App(NotFound)))
    else
      var t1 := Vacated(t, active, around.now);
      var row := NewRow(q, around.item.value.deviceId, draw, around.now);
      if active.Some? && t1[active.value].status.Discovered? then (t, Raised(App(Conflict)))
      else if !Fits(t1, draw.id, row) then (t, Raised(App(Conflict)))
      else (t1[draw.id := row], Ok(Public(draw.id, row)))
  }

  predicate Visible(t: Sessions, houseId: Id, id: Id) {
    id in t && t[id].houseId == houseId
  }

  function GetStep(t: Sessions, access: Reply<()>, houseId: Id, id: Id, now: int): (Sessions, Reply<PublicStatus>) {
    if access.Raised? then (t, Raised(access.fault))
    else if !Visible(t, houseId, id) then (t, Raised(App(NotFound)))
    else (t[id := ExpireRow(id, t[id], now)], Ok(Public(id, ExpireRow(id, t[id], now))))
  }

  datatype Stop = Stop(houseId: Id, actorId: Id, id: Id, revision: nat, key: Id)

  /** Expiry is kept even when the cancellation itself comes too late. */
  function CancelStep(t: Sessions, access: Reply<()>, q: Stop, now: int): (Sessions, Reply<PublicStatus>) {
    if access.Raised? then (t, Raised(access.fault))
    else if !Visible(t, q.houseId, q.id) then (t, Raised(App(NotFound)))
    else
      var row := ExpireRow(q.id, t[q.id], now);
      var mark := CancelMark(q.key, q.actorId, q.revision);
      if row.cancelled.Some? && row.cancelled.value.keyHash == q.key && row.cancelled.value.actorId == q.actorId then
        if row.cancelled.value.revision != q.revision then (t, Raised(App(Conflict))) else (t[q.id := row], Ok(Public(q.id, row)))
      else if row.revision != q.revision || !row.status.Discovered? then (t[q.id := row], Raised(App(Conflict)))
      else
        var r := ApplyRow(q.id, row, Cancel, now, Some(mark));
        if r.Raised? then (t, Raised(r.fault)) else (t[q.id := r.value], Ok(Public(q.id, r.value)))
  }

  class ProvisioningService {
    var sessions: Sessions

    constructor ()
      ensures sessions == map[]
    {
      sessions := map[];
    }

    /** The guarded update; in an atomic transaction the row is still as it was read. */
    method Apply(id: Id, event: S.Event, now: int, mark: Option<CancelMark>) returns (r: Reply<()>)
      requires id in sessions
      modifies this
      ensures var a := ApplyRow(id, old(sessions)[id], event, now, mark);
              if a.Ok? then r == Ok(()) && sessions == old(sessions)[id := a.value]
              else r == Raised(a.fault) && sessions == old(sessions)
    {
      var row := sessions[id];
      var moved := Transition(StateOf(id, row), CallFor(row, event, now));
      if moved.Rejected? {
        return Raised(StateFailure(moved.failure));
      }
      row := row.(status := moved.state.status, revision := moved.state.revision);
      if mark.Some? {
        row := row.(cancelled := mark);
      }
      sessions := sessions[id := row];
      return Ok(());
    }

    method Expire(id: Id, now: int)
      requires id in sessions && Constraints(sessions)
      modifies this
      ensures sessions == old(sessions)[id := ExpireRow(id, old(sessions)[id], now)]
    {
      var row := sessions[id];
      if row.status.Discovered? && now >= row.expiresAt {
        ExpiryNeverFails(id, row, now);
        var _ := Apply(id, S.Event.Expire, now, None);
      } else {
        assert sessions == sessions[id := row];
      }
    }

    method Look(q: Start, around: Around) returns (previous: Option<Id>, active: Option<Id>)
      ensures Finds(sessions, q, around, previous, active)
    {
      previous, active := None, None;
      var mine := set i | i in sessions && Created(sessions[i], q);
      assert forall i :: i in sessions && Created(sessions[i], q) ==> i in mine;
      if mine != {} {
        var i :| i in mine;
        previous := Some(i);
      }
      if around.item.Some? {
        var open := set i | i in sessions && IsActive(sessions[i], around.item.value.deviceId);
        assert forall i :: i in sessions && IsActive(sessions[i], around.item.value.deviceId) ==> i in open;
        if open != {} {
          var i :| i in open;
          active := Some(i);
        }
      }
    }

    method Create(q: Start, around: Around, draw: Draw) returns (r: Reply<PublicStatus>)
      requires Constraints(sessions)
      modifies this
      ensures exists previous, active :: Finds(old(sessions), q, around, previous, active)
                && (previous.Some? ==> previous.value in old(sessions)) && (active.Some? ==> active.value in old(sessions))
                && (sessions, r) == CreateStep(old(sessions), q, around, previous, active, draw)
    {
      var before := sessions;
      var previous, active := Look(q, around);
      assert Finds(old(sessions), q, around, previous, active);
      if q.codeDigest.None? {
        return Raised(App(InvalidReference));
      }
      if around.access.Raised? {
        return Raised(around.access.fault);
      }
      if previous.Some? {
        if sessions[previous.value].requestHash != q.bodyHash {
          return Raised(App(Conflict));
        }
        Expire(previous.value, around.now);
        return Ok(Public(previous.value, sessions[previous.value]));
      }
      if !Claimable(q, around) {
        return Raised(App(NotFound));
      }
      if active.Some? {
        Expire(active.value, around.now);
        if sessions[active.value].status.Discovered? {
          sessions := before;
          return Raised(App(Conflict));
        }
      }
      var row := NewRow(q, around.item.value.deviceId, draw, around.now);
      if !Fits(sessions, draw.id, row) {
        sessions := before;
        return Raised(App(Conflict));
      }
      sessions := sessions[draw.id := row];
      return Ok(Public(draw.id, row));
    }

    method Get(access: Reply<()>, houseId: Id, id: Id, now: int) returns (r: Reply<PublicStatus>)
      requires Constraints(sessions)
      modifies this
      ensures (sessions, r) == GetStep(old(sessions), access, houseId, id, now)
    {
      if access.Raised? {
        return Raised(access.fault);
      }
      if !Visible(sessions, houseId, id) {
        return Raised(App(NotFound));
      }
      Expire(id, now);
      return Ok(Public(id, sessions[id]));
    }

    method CancelAttempt(access: Reply<()>, q: Stop, now: int) returns (r: Reply<PublicStatus>)
      requires Constraints(sessions)
      modifies this
      ensures (sessions, r) == CancelStep(old(sessions), access, q, now)
    {
      if access.Raised? {
        return Raised(access.fault);
      }
      if !Visible(sessions, q.houseId, q.id) {
        return Raised(App(NotFound));
      }
      var before := sessions;
      Expire(q.id, now);
      var row := sessions[q.id];
      if row.cancelled.Some? && row.cancelled.value.keyHash == q.key && row.cancelled.value.actorId == q.actorId {
        if row.cancelled.value.revision != q.revision {
          sessions := before;
          return Raised(App(Conflict));
        }
      } else if row.revision != q.revision || !row.status.Discovered? {
        return Raised(App(Conflict));
      } else {
        var done := Apply(q.id, S.Event.Cancel, now, Some(CancelMark(q.key, q.actorId, q.revision)));
        if done.Raised? {
          sessions := before;
          return Raised(done.fault);
        }
        var last := sessions[q.id];
        assert sessions == before[q.id := last];
      }
      return Ok(Public(q.id, sessions[q.id]));
    }
  }
}

/** Every run of the service. */
module ProvisioningRuns {
  import opened Common
  import opened S = ProvisioningState
  import opened ProvisioningService

  datatype Action =
    | Create(q: Start, around: Around, previous: Option<Id>, active: Option<Id>, draw: Draw)
    | Get(access: Reply<()>, houseId: Id, id: Id, now: int)
    | CancelAttempt(access: Reply<()>, stop: Stop, now: int)

  ghost predicate Possible(t: Sessions, act: Action) {
    act.Create? ==>
      && Finds(t, act.q, act.around, act.previous, act.active)
      && (act.active.Some? ==> act.around.item.Some?)
  }

  function Answer(t: Sessions, act: Action): (Sessions, Reply<PublicStatus>)
    requires Possible(t, act)
  {
    match act
    case Create(q, around, previous, active, draw) => CreateStep(t, q, around, previous, active, draw)
    case Get(access, houseId, id, now) => GetStep(t, access, houseId, id, now)
    case CancelAttempt(access, stop, now) => CancelStep(t, access, stop, now)
  }

  ghost predicate Follows(trace: seq<Sessions>, acts: seq<Action>) {
    && |trace| == |acts| + 1 && trace[0] == map[]
    && forall i :: 0 <= i < |acts| ==> Possible(trace[i], acts[i]) && trace[i + 1] == Answer(trace[i], acts[i]).0
  }

  /** One step of the pure state machine, by expiry or cancellation. */
  ghost predicate LegalMove(id: Id, row: Row, row': Row) {
    exists event: S.Event, now :: (event.Expire? || event.Cancel?)
      && Transition(StateOf(id, row), CallFor(row, event, now)) == Next(StateOf(id, row'))
  }

  predicate SameAttempt(row: Row, row': Row) {
    row' == row.(status := row'.status, revision := row'.revision, cancelled := row'.cancelled)
  }

  /** Rows stay, or make one legal move; terminal rows never change. */
  ghost predicate Evolves(id: Id, row: Row, row': Row) {
    && SameAttempt(row, row')
    && (row' == row || (row.status.Discovered? && LegalMove(id, row, row')))
  }

  ghost predicate RowsEvolve(t: Sessions, t': Sessions) {
    forall i :: i in t ==> i in t' && Evolves(i, t[i], t'[i])
  }

  lemma ExpiryEvolves(id: Id, row: Row, now: int)
    ensures Evolves(id, row, ExpireRow(id, row, now))
  {
    assert ExpireRow(id, row, now) != row ==>
      Transition(StateOf(id, row), CallFor(row, Expire, now)) == Next(StateOf(id, ExpireRow(id, row, now)));
  }

  lemma CancelEvolves(id: Id, row: Row, now: int, mark: CancelMark)
    requires row.status.Discovered? && ApplyRow(id, row, Cancel, now, Some(mark)).Ok?
    ensures Evolves(id, row, ApplyRow(id, row, Cancel, now, Some(mark)).value)
    ensures ApplyRow(id, row, Cancel, now, Some(mark)).value.status.Cancelled?
  {
    assert Transition(StateOf(id, row), CallFor(row, Cancel, now))
        == Next(StateOf(id, ApplyRow(id, row, Cancel, now, Some(mark)).value));
  }

  /** Changing one row by a legal move, never back to discovered, keeps the table. */
  lemma OneRowEvolves(t: Sessions, id: Id, row: Row)
    requires Constraints(t) && id in t && SameAttempt(t[id], row)
    requires row == t[id] || row.status.Cancelled? || row.status.Expired?
    ensures Constraints(t[id := row])
  {
    forall i, j | i in t && j in t && i != j
      ensures !Clash(t[id := row][i], t[id := row][j])
    {
      assert !Clash(t[i], t[j]);
    }
  }

  lemma ExpiryOutcome(id: Id, row: Row, now: int)
    ensures var row' := ExpireRow(id, row, now);
            SameAttempt(row, row') && (row' == row || row'.status.Expired?)
  {
  }

  lemma VacatedIs(t: Sessions, active: Option<Id>, now: int)
    requires active.Some? ==> active.value in t
    ensures RowsEvolve(t, Vacated(t, active, now)) && (Constraints(t) ==> Constraints(Vacated(t, active, now)))
  {
    hide ExpireRow, Evolves, Constraints;
    forall i | i in t
      ensures Evolves(i, t[i], t[i]) && Evolves(i, t[i], ExpireRow(i, t[i], now))
    {
      ExpiryEvolves(i, t[i], now);
      NothingEvolves(i, t[i]);
    }
    if active.Some? && Constraints(t) {
      ExpiryOutcome(active.value, t[active.value], now);
      OneRowEvolves(t, active.value, ExpireRow(active.value, t[active.value], now));
    }
  }

  lemma NothingEvolves(id: Id, row: Row)
    ensures Evolves(id, row, row)
  {
  }

  lemma InsertEvolves(t: Sessions, t1: Sessions, id: Id, row: Row)
    requires RowsEvolve(t, t1) && Fits(t1, id, row)
    ensures RowsEvolve(t, t1[id := row])
  {
    hide Evolves;
  }

  lemma CreateEvolves(t: Sessions, act: Action)
    requires Possible(t, act) && act.Create?
    ensures RowsEvolve(t, Answer(t, act).0) && (Constraints(t) ==> Constraints(Answer(t, act).0))
  {
    hide ExpireRow, Claimable, Constraints, Fits, RowsEvolve;
    var q, around := act.q, act.around;
    VacatedIs(t, None, around.now);
    VacatedIs(t, act.previous, around.now);
    VacatedIs(t, act.active, around.now);
    if act.previous.None? && around.item.Some? {
      var t1, row := Vacated(t, act.active, around.now), NewRow(q, around.item.value.deviceId, act.draw, around.now);
      if Fits(t1, act.draw.id, row) {
        InsertEvolves(t, t1, act.draw.id, row);
        if Constraints(t) {
          InsertKeepsConstraints(t1, act.draw.id, row);
        }
      }
    }
    assert !Claimable(q, around) || around.item.Some? by { ClaimableHasItem(q, around); }
  }

  lemma ClaimableHasItem(q: Start, around: Around)
    ensures Claimable(q, around) ==> around.item.Some?
  {
  }

  lemma StepEvolves(t: Sessions, act: Action)
    requires Possible(t, act)
    ensures RowsEvolve(t, Answer(t, act).0)
  {
    match act {
      case Create(_, _, _, _, _) => CreateEvolves(t, act);
      case Get(_, houseId, id, now) =>
        VacatedIs(t, None, now);
        if Visible(t, houseId, id) {
          VacatedIs(t, Some(id), now);
        }
      case CancelAttempt(_, stop, now) => CancelRowEvolves(t, stop, now);
    }
  }

  lemma CancelRowEvolves(t: Sessions, stop: Stop, now: int)
    ensures forall access :: RowsEvolve(t, CancelStep(t, access, stop, now).0)
  {
    hide Evolves;
    VacatedIs(t, None, now);
    if Visible(t, stop.houseId, stop.id) {
      VacatedIs(t, Some(stop.id), now);
      var row, mark := ExpireRow(stop.id, t[stop.id], now), CancelMark(stop.key, stop.actorId, stop.revision);
      ExpiryOutcome(stop.id, t[stop.id], now);
      if row.status.Discovered? && ApplyRow(stop.id, row, Cancel, now, Some(mark)).Ok? {
        CancelEvolves(stop.id, row, now, mark);
      }
    }
  }

  lemma StepKeepsConstraints(t: Sessions, act: Action)
    requires Possible(t, act) && Constraints(t)
    ensures Constraints(Answer(t, act).0)
  {
    hide ExpireRow, ApplyRow, Claimable, Constraints, Fits;
    match act {
      case Create(_, _, _, _, _) => CreateEvolves(t, act);
      case Get(_, houseId, id, now) =>
        if Visible(t, houseId, id) {
          ExpiryOutcome(id, t[id], now);
          OneRowEvolves(t, id, ExpireRow(id, t[id], now));
        }
      case CancelAttempt(_, stop, now) =>
        if Visible(t, stop.houseId, stop.id) {
          var row := ExpireRow(stop.id, t[stop.id], now);
          ExpiryOutcome(stop.id, t[stop.id], now);
          OneRowEvolves(t, stop.id, row);
          CancelKeepsConstraints(t, stop, row, now);
        }
    }
  }

  lemma CancelKeepsConstraints(t: Sessions, stop: Stop, row: Row, now: int)
    requires Constraints(t) && stop.id in t && SameAttempt(t[stop.id], row)
    ensures var r := ApplyRow(stop.id, row, Cancel, now, Some(CancelMark(stop.key, stop.actorId, stop.revision)));
            r.Ok? ==> Constraints(t[stop.id := r.value])
  {
    hide Constraints;
    var r := ApplyRow(stop.id, row, Cancel, now, Some(CancelMark(stop.key, stop.actorId, stop.revision)));
    if r.Ok? {
      OneRowEvolves(t, stop.id, r.value);
    }
  }

  lemma InsertKeepsConstraints(t: Sessions, id: Id, row: Row)
    requires Constraints(t) && Fits(t, id, row) && row.createdAt < row.expiresAt && row.status.Discovered?
    ensures Constraints(t[id := row])
  {
  }

  // ----- the theorems -----

  lemma {:induction false} AlwaysConstrained(trace: seq<Sessions>, acts: seq<Action>, i: nat)
    requires Follows(trace, acts) && i < |trace|
    ensures Constraints(trace[i])
  {
    hide Constraints, Answer, Possible;
    if i == 0 {
      EmptyTable();
    } else {
      AlwaysConstrained(trace, acts, i - 1);
      StepKeepsConstraints(trace[i - 1], acts[i - 1]);
    }
  }

  lemma EmptyTable()
    ensures Constraints(map[])
  {
  }

  lemma {:induction false} AttemptsPersist(trace: seq<Sessions>, acts: seq<Action>, i: nat, j: nat, id: Id)
    requires Follows(trace, acts) && i <= j < |trace| && id in trace[i]
    ensures id in trace[j] && SameAttempt(trace[i][id], trace[j][id])
    ensures !trace[i][id].status.Discovered? ==> trace[j][id] == trace[i][id]
    decreases j - i
  {
    hide Answer, Possible, LegalMove;
    if i < j {
      AttemptsPersist(trace, acts, i, j - 1, id);
      StepEvolves(trace[j - 1], acts[j - 1]);
    }
  }

  /** Every service step moves each stored attempt by a transition that the pure state
      machine allows at that moment, or not at all. */
  lemma EveryStepIsLegal(trace: seq<Sessions>, acts: seq<Action>, i: nat, id: Id)
    requires Follows(trace, acts) && i < |acts| && id in trace[i]
    ensures id in trace[i + 1]
    ensures trace[i + 1][id] == trace[i][id] || LegalMove(id, trace[i][id], trace[i + 1][id])
  {
    hide Answer, Possible, LegalMove;
    StepEvolves(trace[i], acts[i]);
  }

  lemma OneActiveAttemptPerDevice(trace: seq<Sessions>, acts: seq<Action>, i: nat, x: Id, y: Id)
    requires Follows(trace, acts) && i < |trace| && x in trace[i] && y in trace[i]
    requires trace[i][x].status.Discovered? && trace[i][y].status.Discovered? && trace[i][x].deviceId == trace[i][y].deviceId
    ensures x == y
  {
    hide Answer, Possible;
    AlwaysConstrained(trace, acts, i);
    assert Clash(trace[i][x], trace[i][y]);
  }

  /** A create that succeeded is answered with the same session whenever it is
      repeated, and with a conflict if the body differs. */
  lemma CreateReplays(trace: seq<Sessions>, acts: seq<Action>, i: nat, j: nat)
    requires Follows(trace, acts) && i < j < |acts| && acts[i].Create? && acts[j].Create?
    requires Answer(trace[i], acts[i]).1.Ok?
    requires var p, q := acts[i].q, acts[j].q; p.houseId == q.houseId && p.actorId == q.actorId && p.key == q.key
    requires acts[j].q.codeDigest.Some? && acts[j].around.access.Ok?
    ensures var first, again := Answer(trace[i], acts[i]).1, Answer(trace[j], acts[j]).1;
            if acts[i].q.bodyHash == acts[j].q.bodyHash then again.Ok? && again.value.sessionId == first.value.sessionId
            else again == Raised(App(Conflict))
  {
    hide Constraints, Evolves, ExpireRow, Fits, Claimable;
    var id := Answer(trace[i], acts[i]).1.value.sessionId;
    CreateStores(trace[i], acts[i]);
    AttemptsPersist(trace, acts, i + 1, j, id);
    AlwaysConstrained(trace, acts, j);
    KeyFinds(trace[j], acts[j].q, acts[j].around, acts[j].previous, acts[j].active, id);
  }

  lemma CreateStores(t: Sessions, act: Action)
    requires Possible(t, act) && act.Create? && Answer(t, act).1.Ok?
    ensures var id, t' := Answer(t, act).1.value.sessionId, Answer(t, act).0;
            id in t' && Created(t'[id], act.q) && t'[id].requestHash == act.q.bodyHash
  {
    hide Fits, Claimable, Transition;
    if act.previous.Some? {
      ExpiryOutcome(act.previous.value, t[act.previous.value], act.around.now);
    }
  }

  lemma KeyFinds(t: Sessions, q: Start, around: Around, previous: Option<Id>, active: Option<Id>, id: Id)
    requires Constraints(t) && Finds(t, q, around, previous, active) && id in t && Created(t[id], q)
    ensures previous == Some(id)
  {
    if previous.Some? && previous.value != id {
      assert Clash(t[previous.value], t[id]);
    }
  }

  /** A cancellation that succeeded is answered in exactly the same way for ever. */
  lemma CancelReplays(trace: seq<Sessions>, acts: seq<Action>, i: nat, j: nat)
    requires Follows(trace, acts) && i < j < |acts| && acts[i].CancelAttempt? && acts[j].CancelAttempt?
    requires Answer(trace[i], acts[i]).1.Ok? && acts[j].stop == acts[i].stop && acts[j].access.Ok?
    ensures Answer(trace[j], acts[j]).1 == Answer(trace[i], acts[i]).1
    ensures Answer(trace[i], acts[i]).1.value.status.Cancelled?
  {
    hide Constraints, Evolves, Transition, SameAttempt;
    MarksMeanCancelled(trace, acts, i);
    CancelStores(trace[i], acts[i]);
    AttemptsPersist(trace, acts, i + 1, j, acts[i].stop.id);
  }

  /** Only cancelled attempts carry a cancellation mark. */
  ghost predicate Marked(t: Sessions) {
    forall id :: id in t && t[id].cancelled.Some? ==> t[id].status.Cancelled?
  }

  lemma CancelStores(t: Sessions, act: Action)
    requires Possible(t, act) && act.CancelAttempt? && Answer(t, act).1.Ok? && Marked(t)
    ensures var id, t' := act.stop.id, Answer(t, act).0;
            && Visible(t', act.stop.houseId, id) && t'[id].status.Cancelled?
            && t'[id].cancelled == Some(CancelMark(act.stop.key, act.stop.actorId, act.stop.revision))
            && Answer(t, act).1 == Ok(Public(id, t'[id]))
  {
  }

  lemma StepKeepsMarks(t: Sessions, act: Action)
    requires Possible(t, act) && Marked(t)
    ensures Marked(Answer(t, act).0)
  {
    hide Fits, Claimable;
  }

  lemma {:induction false} MarksMeanCancelled(trace: seq<Sessions>, acts: seq<Action>, i: nat)
    requires Follows(trace, acts) && i < |trace|
    ensures Marked(trace[i])
  {
    hide Answer, Possible;
    if i > 0 {
      MarksMeanCancelled(trace, acts, i - 1);
      StepKeepsMarks(trace[i - 1], acts[i - 1]);
    }
  }
}
