/** Concurrent command submissions: what each stretch of `submit` between two awaits or
    commits does to the ledger, and every interleaving of such stretches with
    acknowledgements, state reports, reads, publish failures and cancellations. */
module Submissions {
  import opened Common
  import opened CommandRecords
  import opened ControlClock
  import opened CommandLedger

  datatype Request = Request(houseId: Id, deviceId: Id, userId: Id, keyHash: Id, on: bool)

  /** How the deadline of a row is judged: software commands by the calendar,
      control commands by the answer of the permit authority. */
  datatype Judgement = Calendar(now: int) | Authority(answer: bool)

  predicate Expired(row: CommandRow, j: Judgement) {
    match j
    case Calendar(now) => row.expiresAt <= now
    case Authority(answer) => answer
  }

  /** An UPDATE sent to the database in a transaction that is still open. */
  datatype Flushed = Flushed(commandId: Id, row: CommandRow)

  /** What the checks around the two look-ups answer, in the order they are asked. */
  datatype Gate = Gate(active: Outcome<()>, contract: Outcome<()>, online: bool, connected: bool)

  datatype Begun = Replay(commandId: Id) | Refuse(error: Error) | Proceed(flushed: Option<Flushed>)

  predicate ForKey(rows: map<Id, CommandRow>, q: Request, c: Id) {
    c in rows && rows[c].houseId == q.houseId && rows[c].requestedBy == q.userId && rows[c].idempotencyHash == q.keyHash
  }

  predicate ForDevice(rows: map<Id, CommandRow>, q: Request, c: Id) {
    c in rows && rows[c].deviceId == q.deviceId && Pending(rows[c].status)
  }

  /** The two look-ups return a matching row if there is any. */
  ghost predicate LookedUp(rows: map<Id, CommandRow>, q: Request, previous: Option<Id>, pending: Option<Id>) {
    && (if previous.Some? then ForKey(rows, q, previous.value) else forall c :: !ForKey(rows, q, c))
    && (if pending.Some? then ForDevice(rows, q, pending.value) else forall c :: !ForDevice(rows, q, c))
  }

  /** Up to the first await. */
  function BeginStep(rows: map<Id, CommandRow>, q: Request, previous: Option<Id>, pending: Option<Id>, gate: Gate, j: Judgement, at: int)
    : (map<Id, CommandRow>, Begun)
    requires previous.Some? ==> previous.value in rows
    requires pending.Some? ==> pending.value in rows
  {
    if gate.active.Refused? then (rows, Refuse(gate.active.error))
    else if previous.Some? then
      var row := rows[previous.value];
      if row.deviceId != q.deviceId || row.requestedOn != q.on then (rows, Refuse(Conflict))
      else (rows[previous.value := ExpireRow(row, Expired(row, j), at)], Replay(previous.value))
    else if gate.contract.Refused? then (rows, Refuse(gate.contract.error))
    else if pending.Some? && !Expired(rows[pending.value], j) then (rows, Refuse(Conflict))
    else if !gate.online then (rows, Refuse(Conflict))
    else if !gate.connected then (rows, Refuse(Unavailable))
    else if pending.Some? then (rows, Proceed(Some(Flushed(pending.value, ExpireRow(rows[pending.value], true, at)))))
    else (rows, Proceed(None))
  }

  function NewRow(q: Request, correlationId: Id, now: int): CommandRow {
    CommandRow(correlationId, q.houseId, q.deviceId, q.userId, q.keyHash, q.on, now, now + LIFETIME_US,
               Queued, None, None, None, now, Some(now), None, None, None, None)
  }

  /** What the open transaction sees. */
  function View(rows: map<Id, CommandRow>, flushed: Option<Flushed>): map<Id, CommandRow> {
    if flushed.Some? then rows[flushed.value.commandId := flushed.value.row] else rows
  }

  /** From the authorization to the commit; a constraint violation rolls everything back. */
  function RecordStep(rows: map<Id, CommandRow>, q: Request, flushed: Option<Flushed>, commandId: Id, correlationId: Id, now: int)
    : (map<Id, CommandRow>, Outcome<()>)
  {
    var view, row := View(rows, flushed), NewRow(q, correlationId, now);
    if Admits(view, commandId, row) then (view[commandId := row], Done(())) else (rows, Refused(Conflict))
  }

  /** The transaction that stores how the publication ended. */
  function SettleStep(row: CommandRow, published: bool, j: Judgement, t: Stamps): CommandRow {
    if published then PublishedRow(row, Expired(row, j), t) else PublishFailedRow(row, Expired(row, j), t)
  }

  class SubmitService {
    var rows: map<Id, CommandRow>

    constructor (rows: map<Id, CommandRow>)
      ensures this.rows == rows
    {
      this.rows := rows;
    }

    method LookUp(q: Request) returns (previous: Option<Id>, pending: Option<Id>)
      ensures LookedUp(rows, q, previous, pending)
    {
      previous, pending := None, None;
      var mine := set c | c in rows && ForKey(rows, q, c);
      var open := set c | c in rows && ForDevice(rows, q, c);
      assert forall c :: (ForKey(rows, q, c) ==> c in mine) && (ForDevice(rows, q, c) ==> c in open);
      if mine != {} {
        var c :| c in mine;
        previous := Some(c);
      }
      if open != {} {
        var c :| c in open;
        pending := Some(c);
      }
    }

    method Begin(q: Request, gate: Gate, j: Judgement, at: int) returns (b: Begun)
      modifies this
      ensures exists previous, pending :: LookedUp(old(rows), q, previous, pending)
                && (rows, b) == BeginStep(old(rows), q, previous, pending, gate, j, at)
    {
      var previous, pending := LookUp(q);
      assert LookedUp(old(rows), q, previous, pending);
      if gate.active.Refused? {
        return Refuse(gate.active.error);
      }
      if previous.Some? {
        var row := rows[previous.value];
        if row.deviceId != q.deviceId || row.requestedOn != q.on {
          return Refuse(Conflict);
        }
        if Pending(row.status) && Expired(row, j) {
          row := Finish(row, TimedOut, Some(DeadlineExceeded), at);
        }
        rows := rows[previous.value := row];
        return Replay(previous.value);
      }
      if gate.contract.Refused? {
        return Refuse(gate.contract.error);
      }
      var flushed: Option<Flushed> := None;
      if pending.Some? {
        var row := rows[pending.value];
        if !Expired(row, j) {
          return Refuse(Conflict);
        }
        flushed := Some(Flushed(pending.value, Finish(row, TimedOut, Some(DeadlineExceeded), at)));
      }
      if !gate.online {
        return Refuse(Conflict);
      }
      if !gate.connected {
        return Refuse(Unavailable);
      }
      return Proceed(flushed);
    }

    method Record(q: Request, flushed: Option<Flushed>, commandId: Id, correlationId: Id, now: int) returns (o: Outcome<()>)
      modifies this
      ensures (rows, o) == RecordStep(old(rows), q, flushed, commandId, correlationId, now)
    {
      var before := rows;
      if flushed.Some? {
        rows := rows[flushed.value.commandId := flushed.value.row];
      }
      var row := NewRow(q, correlationId, now);
      if !Admits(rows, commandId, row) {
        rows := before;
        return Refused(Conflict);
      }
      rows := rows[commandId := row];
      return Done(());
    }

    method Settle(commandId: Id, published: bool, j: Judgement, t: Stamps)
      requires commandId in rows
      modifies this
      ensures rows == old(rows)[commandId := SettleStep(old(rows)[commandId], published, j, t)]
    {
      var current := rows[commandId];
      if Pending(current.status) && Expired(current, j) {
        current := Finish(current, TimedOut, Some(DeadlineExceeded), t.expire);
      }
      if Pending(current.status) {
        if published {
          current := current.(status := Dispatched, dispatchedAt := OrElse(current.dispatchedAt, t.dispatch), updatedAt := t.update);
        } else {
          current := Finish(current, Failed, Some(PublishUnconfirmed), t.finish);
        }
      }
      rows := rows[commandId := current];
    }

    /** The read in a transaction of its own whose row the caller is given. */
    method Answer(commandId: Id, j: Judgement, at: int) returns (row: CommandRow)
      requires commandId in rows
      modifies this
      ensures row == ExpireRow(old(rows)[commandId], Expired(old(rows)[commandId], j), at)
      ensures rows == old(rows)[commandId := row]
    {
      row := rows[commandId];
      if Pending(row.status) && Expired(row, j) {
        row := Finish(row, TimedOut, Some(DeadlineExceeded), at);
      }
      rows := rows[commandId := row];
    }
  }
}

/** All interleavings. */
module SubmissionRuns {
  import opened Common
  import opened CommandRecords
  import opened ControlClock
  import opened CommandLedger
  import opened Submissions

  /** What a submission is going to send, fixed when its row was committed. */
  datatype Message = Message(
    houseId: Id, deviceId: Id, commandId: Id, correlationId: Id, timestamp: int, expiresAt: int, on: bool)

  datatype Phase = Authorizing(flushed: Option<Flushed>) | Publishing(message: Message, sent: bool) | Settled(commandId: Id)
  datatype Call = Call(request: Request, phase: Phase)

  /** A message handed to the broker, at a reading of the core's clock. */
  datatype Publication = Publication(message: Message, at: int)

  datatype Answer = Answer(request: Request, commandId: Id)

  datatype Board = Board(rows: map<Id, CommandRow>, calls: map<Id, Call>, wire: seq<Publication>, answers: seq<Answer>)

  const EMPTY := Board(map[], map[], [], [])

  datatype Action =
    | Begin(call: Id, q: Request, previous: Option<Id>, pending: Option<Id>, gate: Gate, j: Judgement, at: int)
    | Record(call: Id, commandId: Id, correlationId: Id, now: int)
    | Emit(call: Id, at: int)
    | Settle(call: Id, published: bool, j: Judgement, t: Stamps)
    | Return(call: Id, j: Judgement, at: int)                   // the final read, then the answer
    | Abandon(call: Id)                                          // refused authorization, cancellation, crash
    | Ack(c: Id, status: AckStatus, retained: bool, j: Judgement, bound: bool, t: Stamps)
    | Report(c: Id, reported: Option<bool>, retained: bool, j: Judgement, bound: bool, t: Stamps)
    | Read(c: Id, j: Judgement, at: int)
    | Prepare(c: Id, row: CommandRow)                            // a control command enters the same table
    | Stage(c: Id, at: int)

  /** A transaction that has sent an UPDATE holds the row until it ends. */
  predicate Locked(b: Board, c: Id) {
    exists k :: k in b.calls && HoldsLock(b.calls[k], c)
  }

  predicate HoldsLock(call: Call, c: Id) {
    call.phase.Authorizing? && call.phase.flushed.Some? && call.phase.flushed.value.commandId == c
  }

  predicate Free(b: Board, c: Option<Id>) {
    c.Some? ==> !Locked(b, c.value)
  }

  predicate IsPublishing(b: Board, k: Id) {
    k in b.calls && b.calls[k].phase.Publishing?
  }

  ghost predicate Possible(b: Board, act: Action) {
    match act
    case Begin(k, q, previous, pending, _, _, _) =>
      k !in b.calls && LookedUp(b.rows, q, previous, pending) && Free(b, previous) && Free(b, pending)
    case Record(k, _, _, _) => k in b.calls && b.calls[k].phase.Authorizing?
    case Emit(k, at) =>
      && IsPublishing(b, k) && !b.calls[k].phase.sent
      && (var m := b.calls[k].phase.message;
          0 < m.expiresAt - m.timestamp <= LIFETIME_US && m.timestamp <= at < m.expiresAt)
    case Settle(k, published, _, _) =>
      && IsPublishing(b, k) && !Locked(b, b.calls[k].phase.message.commandId)
      && (published ==> b.calls[k].phase.sent)
    case Return(k, _, _) => k in b.calls && b.calls[k].phase.Settled? && !Locked(b, b.calls[k].phase.commandId)
    case Abandon(k) => k in b.calls
    case Ack(c, _, _, _, _, _) => c in b.rows && !Locked(b, c)
    case Report(c, _, _, _, _, _) => c in b.rows && !Locked(b, c)
    case Read(c, _, _) => c in b.rows && !Locked(b, c)
    case Prepare(c, row) => Admits(b.rows, c, row)
    case Stage(c, _) => c in b.rows && !Locked(b, c) && Pending(b.rows[c].status) && b.rows[c].dispatchStartedAt.None?
  }

  /** The message that belongs to a stored row. */
  function MessageOf(c: Id, row: CommandRow): Message {
    Message(row.houseId, row.deviceId, c, row.correlationId, row.createdAt, row.expiresAt, row.requestedOn)
  }

  /** What `submit` hands to the transport: its own arguments and the new identifiers. */
  function MessageFor(q: Request, c: Id, correlationId: Id, now: int): Message {
    Message(q.houseId, q.deviceId, c, correlationId, now, now + LIFETIME_US, q.on)
  }

  function Without(calls: map<Id, Call>, k: Id): map<Id, Call> {
    calls - {k}
  }

  function Apply(b: Board, act: Action): Board
    requires Possible(b, act)
  {
    match act
    case Begin(k, q, previous, pending, gate, j, at) =>
      var (rows, begun) := BeginStep(b.rows, q, previous, pending, gate, j, at);
      (match begun
       case Replay(c) => b.(rows := rows, answers := b.answers + [Answer(q, c)])
       case Refuse(_) => b
       case Proceed(flushed) => b.(calls := b.calls[k := Call(q, Authorizing(flushed))]))
    case Record(k, c, correlationId, now) =>
      var (rows, o) := RecordStep(b.rows, b.calls[k].request, b.calls[k].phase.flushed, c, correlationId, now);
      if o.Done? then
        b.(rows := rows, calls := b.calls[k := Call(b.calls[k].request, Publishing(MessageFor(b.calls[k].request, c, correlationId, now), false))])
      else b.(calls := Without(b.calls, k))
    case Emit(k, at) =>
      var m := b.calls[k].phase.message;
      b.(calls := b.calls[k := Call(b.calls[k].request, Publishing(m, true))], wire := b.wire + [Publication(m, at)])
    case Settle(k, published, j, t) =>
      var c := b.calls[k].phase.message.commandId;
      if c !in b.rows then b.(calls := Without(b.calls, k))
      else
        b.(rows := b.rows[c := SettleStep(b.rows[c], published, j, t)],
           calls := b.calls[k := Call(b.calls[k].request, Settled(c))])
    case Return(k, j, at) =>
      var c := b.calls[k].phase.commandId;
      if c !in b.rows then b.(calls := Without(b.calls, k))
      else
        Board(b.rows[c := ExpireRow(b.rows[c], Expired(b.rows[c], j), at)], Without(b.calls, k), b.wire,
              b.answers + [Answer(b.calls[k].request, c)])
    case Abandon(k) => b.(calls := Without(b.calls, k))
    case Ack(c, status, retained, j, bound, t) =>
      b.(rows := b.rows[c := AckRow(b.rows[c], status, retained, Expired(b.rows[c], j), bound, t)])
    case Report(c, on, retained, j, bound, t) =>
      b.(rows := b.rows[c := ReportRow(b.rows[c], on, retained, Expired(b.rows[c], j), bound, t)])
    case Read(c, j, at) => b.(rows := b.rows[c := ExpireRow(b.rows[c], Expired(b.rows[c], j), at)])
    case Prepare(c, row) => b.(rows := b.rows[c := row])
    case Stage(c, at) => b.(rows := b.rows[c := b.rows[c].(dispatchStartedAt := Some(at))])
  }

  /** `trace` is the run: each board follows from the one before by a possible action. */
  ghost predicate Follows(trace: seq<Board>, acts: seq<Action>) {
    && |trace| == |acts| + 1 && trace[0] == EMPTY
    && forall i :: 0 <= i < |acts| ==> Possible(trace[i], acts[i]) && trace[i + 1] == Apply(trace[i], acts[i])
  }

  // ----- the invariant -----

  /** The row was asked for by this very request. */
  predicate Serves(rows: map<Id, CommandRow>, q: Request, c: Id) {
    ForKey(rows, q, c) && rows[c].deviceId == q.deviceId && rows[c].requestedOn == q.on
  }

  /** What no step ever changes about a row. */
  predicate Kept(row: CommandRow, row': CommandRow) {
    && IdentityOf(0, row') == IdentityOf(0, row) && SameKey(row, row')
    && (!Pending(row.status) ==> row' == row)
    && (row.dispatchStartedAt.Some? ==> row'.dispatchStartedAt == row.dispatchStartedAt)
  }

  ghost predicate RowsGrow(rows: map<Id, CommandRow>, rows': map<Id, CommandRow>) {
    forall c :: c in rows ==> c in rows' && Kept(rows[c], rows'[c])
  }

  ghost predicate CallOk(b: Board, k: Id)
    requires k in b.calls
  {
    var call := b.calls[k];
    match call.phase
    case Authorizing(flushed) =>
      flushed.Some? ==>
        && flushed.value.commandId in b.rows && Kept(b.rows[flushed.value.commandId], flushed.value.row)
        && !Pending(flushed.value.row.status)
        && forall l :: l in b.calls && l != k ==> !HoldsLock(b.calls[l], flushed.value.commandId)
    case Publishing(m, sent) =>
      && Serves(b.rows, call.request, m.commandId) && m == MessageOf(m.commandId, b.rows[m.commandId])
      && (!sent ==> forall i :: 0 <= i < |b.wire| ==> b.wire[i].message.commandId != m.commandId)
      && forall l :: l in b.calls && l != k && b.calls[l].phase.Publishing? ==> b.calls[l].phase.message.commandId != m.commandId
    case Settled(c) => Serves(b.rows, call.request, c)
  }

  ghost predicate WireOk(b: Board) {
    && (forall i :: 0 <= i < |b.wire| ==>
          && b.wire[i].message.commandId in b.rows
          && b.wire[i].message == MessageOf(b.wire[i].message.commandId, b.rows[b.wire[i].message.commandId]))
    && (forall i, j :: 0 <= i < j < |b.wire| ==> b.wire[i].message.commandId != b.wire[j].message.commandId)
  }

  ghost predicate AnswersOk(b: Board) {
    forall i :: 0 <= i < |b.answers| ==> Serves(b.rows, b.answers[i].request, b.answers[i].commandId)
  }

  ghost predicate Sound(b: Board) {
    && LedgerConstraints(b.rows) && WireOk(b) && AnswersOk(b)
    && forall k :: k in b.calls ==> CallOk(b, k)
  }

  lemma RowUpdateKeepsConstraints(rows: map<Id, CommandRow>, c: Id, row: CommandRow)
    requires LedgerConstraints(rows) && c in rows && Kept(rows[c], row) && (Pending(row.status) ==> Pending(rows[c].status))
    ensures LedgerConstraints(rows[c := row]) && RowsGrow(rows, rows[c := row])
  {
    forall x, y | x in rows && y in rows && x != y
      ensures !Clash(rows[c := row][x], rows[c := row][y])
    {
      assert !Clash(rows[x], rows[y]);
    }
  }

  lemma InsertKeepsConstraints(rows: map<Id, CommandRow>, c: Id, row: CommandRow)
    requires LedgerConstraints(rows) && Admits(rows, c, row)
    ensures LedgerConstraints(rows[c := row]) && RowsGrow(rows, rows[c := row])
  {
  }

  /** Rows that grow, while the calls and the logs stay, keep the invariant, as long
      as locked rows are left alone. */
  lemma GrownRows(b: Board, rows: map<Id, CommandRow>)
    requires Sound(b) && LedgerConstraints(rows) && RowsGrow(b.rows, rows)
    requires forall c :: c in b.rows && Locked(b, c) ==> rows[c] == b.rows[c]
    ensures Sound(b.(rows := rows))
  {
    hide LedgerConstraints, Kept;
    var b' := b.(rows := rows);
    forall k | k in b'.calls
      ensures CallOk(b', k)
    {
      assert CallOk(b, k);
      if b.calls[k].phase.Authorizing? && b.calls[k].phase.flushed.Some? {
        assert HoldsLock(b.calls[k], b.calls[k].phase.flushed.value.commandId);
      } else if !b.calls[k].phase.Authorizing? {
        IdentityKept(b.rows, rows, CommandOf(b.calls[k].phase));
      }
    }
    forall i | 0 <= i < |b.answers|
      ensures Serves(rows, b.answers[i].request, b.answers[i].commandId)
    {
      assert Serves(b.rows, b.answers[i].request, b.answers[i].commandId);
      IdentityKept(b.rows, rows, b.answers[i].commandId);
    }
    forall i | 0 <= i < |b.wire|
      ensures b.wire[i].message.commandId in rows
      ensures b.wire[i].message == MessageOf(b.wire[i].message.commandId, rows[b.wire[i].message.commandId])
    {
      IdentityKept(b.rows, rows, b.wire[i].message.commandId);
    }
  }

  lemma IdentityKept(rows: map<Id, CommandRow>, rows': map<Id, CommandRow>, c: Id)
    requires RowsGrow(rows, rows') && c in rows
    ensures c in rows' && IdentityOf(c, rows'[c]) == IdentityOf(c, rows[c]) && SameKey(rows[c], rows'[c])
  {
  }

  lemma DroppedCall(b: Board, k: Id)
    requires Sound(b)
    ensures Sound(b.(calls := Without(b.calls, k)))
  {
    hide LedgerConstraints, Kept, WireOk, AnswersOk;
    var b' := b.(calls := Without(b.calls, k));
    assert WireOk(b') && AnswersOk(b') by {
      assert WireOk(b) && AnswersOk(b);
      SameLogs(b, b');
    }
    forall l | l in b'.calls
      ensures CallOk(b', l)
    {
      assert CallOk(b, l);
    }
  }

  lemma SameLogs(b: Board, b': Board)
    requires b'.rows == b.rows && b'.wire == b.wire && b'.answers == b.answers
    ensures WireOk(b') == WireOk(b) && AnswersOk(b') == AnswersOk(b)
  {
  }

  // ----- the steps -----

  lemma OneRow(b: Board, c: Id, row: CommandRow)
    requires Sound(b) && c in b.rows && !Locked(b, c) && Kept(b.rows[c], row)
    requires Pending(row.status) ==> Pending(b.rows[c].status)
    ensures Sound(b.(rows := b.rows[c := row])) && RowsGrow(b.rows, b.rows[c := row])
  {
    hide Sound, Kept;
    assert LedgerConstraints(b.rows) by { LedgerOf(b); }
    RowUpdateKeepsConstraints(b.rows, c, row);
    GrownRows(b, b.rows[c := row]);
  }

  lemma LedgerOf(b: Board)
    requires Sound(b)
    ensures LedgerConstraints(b.rows)
  {
  }

  lemma EvidenceKeepsSound(b: Board, act: Action)
    requires Sound(b) && Possible(b, act) && (act.Ack? || act.Report? || act.Read? || act.Stage?)
    ensures Sound(Apply(b, act)) && RowsGrow(b.rows, Apply(b, act).rows)
  {
    hide Sound, Locked;
    OneRow(b, act.c, Apply(b, act).rows[act.c]);
  }

  lemma AnswerLogged(b: Board, a: Answer)
    requires Sound(b) && Serves(b.rows, a.request, a.commandId)
    ensures Sound(b.(answers := b.answers + [a]))
  {
    hide LedgerConstraints, Kept;
    var b' := b.(answers := b.answers + [a]);
    forall k | k in b'.calls
      ensures CallOk(b', k)
    {
      assert CallOk(b, k);
    }
  }

  lemma SettleKeepsSound(b: Board, act: Action)
    requires Sound(b) && Possible(b, act) && act.Settle?
    ensures Sound(Apply(b, act)) && RowsGrow(b.rows, Apply(b, act).rows)
  {
    hide Sound, Locked, SettleStep, Serves;
    var k := act.call;
    var c, q := b.calls[k].phase.message.commandId, b.calls[k].request;
    CallKey(b, k);
    var row := SettleStep(b.rows[c], act.published, act.j, act.t);
    SettleKeepsRow(b.rows[c], act.published, act.j, act.t);
    OneRow(b, c, row);
    var b1 := b.(rows := b.rows[c := row]);
    CallKey(b1, k);
    CallSettles(b1, k, q, c);
  }

  lemma SettleKeepsRow(row: CommandRow, published: bool, j: Judgement, t: Stamps)
    ensures var row' := SettleStep(row, published, j, t);
            Kept(row, row') && (Pending(row'.status) ==> Pending(row.status))
  {
  }

  lemma CallSettles(b: Board, k: Id, q: Request, c: Id)
    requires Sound(b) && k in b.calls && b.calls[k].phase.Publishing? && Serves(b.rows, q, c)
    ensures Sound(b.(calls := b.calls[k := Call(q, Settled(c))]))
  {
    hide LedgerConstraints, Kept, WireOk, AnswersOk;
    var b' := b.(calls := b.calls[k := Call(q, Settled(c))]);
    assert WireOk(b') && AnswersOk(b') by {
      assert WireOk(b) && AnswersOk(b);
      SameLogs(b, b');
    }
    forall l | l in b'.calls
      ensures CallOk(b', l)
    {
      if l != k {
        assert CallOk(b, l);
      }
    }
  }

  lemma ReturnKeepsSound(b: Board, act: Action)
    requires Sound(b) && Possible(b, act) && act.Return?
    ensures Sound(Apply(b, act)) && RowsGrow(b.rows, Apply(b, act).rows)
  {
    hide Sound, Locked, Serves;
    var k := act.call;
    var c, q := b.calls[k].phase.commandId, b.calls[k].request;
    CallKey(b, k);
    var row := ExpireRow(b.rows[c], Expired(b.rows[c], act.j), act.at);
    OneRow(b, c, row);
    var b1 := b.(rows := b.rows[c := row]);
    CallKey(b1, k);
    DroppedCall(b1, k);
    AnswerLogged(b1.(calls := Without(b1.calls, k)), Answer(q, c));
  }

  function CommandOf(p: Phase): Id
    requires !p.Authorizing?
  {
    if p.Publishing? then p.message.commandId else p.commandId
  }

  lemma CallKey(b: Board, k: Id)
    requires Sound(b) && k in b.calls && !b.calls[k].phase.Authorizing?
    ensures CommandOf(b.calls[k].phase) in b.rows
    ensures Serves(b.rows, b.calls[k].request, CommandOf(b.calls[k].phase))
  {
    assert CallOk(b, k);
  }

  lemma BeginKeepsSound(b: Board, act: Action)
    requires Sound(b) && Possible(b, act) && act.Begin?
    ensures Sound(Apply(b, act)) && RowsGrow(b.rows, Apply(b, act).rows)
  {
    hide Sound, Locked;
    var (rows, begun) := BeginStep(b.rows, act.q, act.previous, act.pending, act.gate, act.j, act.at);
    match begun {
      case Replay(c) =>
        OneRow(b, c, rows[c]);
        AnswerLogged(b.(rows := rows), Answer(act.q, c));
      case Refuse(_) =>
      case Proceed(flushed) => CallBegins(b, act.call, act.q, flushed);
    }
  }

  lemma CallBegins(b: Board, k: Id, q: Request, flushed: Option<Flushed>)
    requires Sound(b) && k !in b.calls
    requires flushed.Some? ==>
               && flushed.value.commandId in b.rows && !Locked(b, flushed.value.commandId)
               && Kept(b.rows[flushed.value.commandId], flushed.value.row) && !Pending(flushed.value.row.status)
    ensures Sound(b.(calls := b.calls[k := Call(q, Authorizing(flushed))]))
  {
    hide LedgerConstraints, Kept, WireOk, AnswersOk;
    var b' := b.(calls := b.calls[k := Call(q, Authorizing(flushed))]);
    SameLogs(b, b');
    forall l | l in b'.calls
      ensures CallOk(b', l)
    {
      if l != k {
        assert CallOk(b, l);
        if flushed.Some? {
          assert !HoldsLock(b.calls[l], flushed.value.commandId);
        }
      }
    }
  }

  /** The transaction's view, once only this call's lock is ignored. */
  lemma CommittedView(b: Board, k: Id)
    requires Sound(b) && k in b.calls && b.calls[k].phase.Authorizing?
    ensures var rows := View(b.rows, b.calls[k].phase.flushed);
            && Sound(Board(rows, Without(b.calls, k), b.wire, b.answers)) && RowsGrow(b.rows, rows)
  {
    hide LedgerConstraints, Kept, WireOk, AnswersOk;
    assert CallOk(b, k);
    var flushed := b.calls[k].phase.flushed;
    var b1 := b.(calls := Without(b.calls, k));
    DroppedCall(b, k);
    if flushed.Some? {
      OneRow(b1, flushed.value.commandId, flushed.value.row);
    } else {
      GrowsReflexive(b.rows);
    }
  }

  lemma GrowsReflexive(rows: map<Id, CommandRow>)
    ensures RowsGrow(rows, rows)
  {
  }

  lemma PublisherJoins(b: Board, k: Id, q: Request, c: Id, row: CommandRow, m: Message)
    requires m == MessageOf(c, row) && Sound(b) && k !in b.calls && Admits(b.rows, c, row)
    requires Serves(b.rows[c := row], q, c)
    ensures Sound(Board(b.rows[c := row], b.calls[k := Call(q, Publishing(m, false))], b.wire, b.answers))
  {
    InsertKeepsConstraints(b.rows, c, row);
    hide LedgerConstraints, Kept, Admits, WireOk, AnswersOk, Serves;
    NotYetThere(b.rows, c, row);
    NobodyKnows(b, c);
    var b1 := b.(rows := b.rows[c := row]);
    GrownRows(b, b1.rows);
    var b' := b1.(calls := b.calls[k := Call(q, Publishing(m, false))]);
    SameLogs(b1, b');
    forall l | l in b'.calls
      ensures CallOk(b', l)
    {
      if l != k {
        assert CallOk(b1, l);
      }
    }
  }

  lemma NobodyKnows(b: Board, c: Id)
    requires Sound(b) && c !in b.rows
    ensures forall i :: 0 <= i < |b.wire| ==> b.wire[i].message.commandId != c
    ensures forall l :: l in b.calls && b.calls[l].phase.Publishing? ==> b.calls[l].phase.message.commandId != c
  {
    hide LedgerConstraints, Kept;
    assert forall l :: l in b.calls ==> CallOk(b, l);
  }

  lemma NotYetThere(rows: map<Id, CommandRow>, c: Id, row: CommandRow)
    requires Admits(rows, c, row)
    ensures c !in rows
  {
  }

  lemma RecordKeepsSound(b: Board, act: Action)
    requires Sound(b) && Possible(b, act) && act.Record?
    ensures Sound(Apply(b, act)) && RowsGrow(b.rows, Apply(b, act).rows)
  {
    hide Sound, Admits, Kept, LedgerConstraints;
    var k, q := act.call, b.calls[act.call].request;
    var view, row := View(b.rows, b.calls[k].phase.flushed), NewRow(q, act.correlationId, act.now);
    DroppedCall(b, k);
    GrowsReflexive(b.rows);
    if Admits(view, act.commandId, row) {
      CommittedView(b, k);
      var b1 := Board(view, Without(b.calls, k), b.wire, b.answers);
      var m := MessageFor(q, act.commandId, act.correlationId, act.now);
      PublisherJoins(b1, k, q, act.commandId, row, m);
      assert b1.calls[k := Call(q, Publishing(m, false))] == b.calls[k := Call(q, Publishing(m, false))];
      NotYetThere(view, act.commandId, row);
    }
  }

  lemma EmitKeepsSound(b: Board, act: Action)
    requires Sound(b) && Possible(b, act) && act.Emit?
    ensures Sound(Apply(b, act)) && RowsGrow(b.rows, Apply(b, act).rows)
  {
    hide LedgerConstraints;
    var b' := Apply(b, act);
    assert CallOk(b, act.call);
    forall l | l in b'.calls
      ensures CallOk(b', l)
    {
      assert CallOk(b, l);
    }
  }

  lemma PrepareKeepsSound(b: Board, act: Action)
    requires Sound(b) && Possible(b, act) && act.Prepare?
    ensures Sound(Apply(b, act)) && RowsGrow(b.rows, Apply(b, act).rows)
  {
    hide Sound;
    LedgerOf(b);
    InsertKeepsConstraints(b.rows, act.c, act.row);
    GrownRows(b, b.rows[act.c := act.row]);
  }

  lemma StepKeepsSound(b: Board, act: Action)
    requires Sound(b) && Possible(b, act)
    ensures Sound(Apply(b, act)) && RowsGrow(b.rows, Apply(b, act).rows)
  {
    hide Sound, Possible, RowsGrow, Apply;
    match act {
      case Begin(_, _, _, _, _, _, _) => BeginKeepsSound(b, act);
      case Record(_, _, _, _) => RecordKeepsSound(b, act);
      case Emit(_, _) => EmitKeepsSound(b, act);
      case Settle(_, _, _, _) => SettleKeepsSound(b, act);
      case Return(_, _, _) => ReturnKeepsSound(b, act);
      case Abandon(_) => AbandonKeepsSound(b, act);
      case Prepare(_, _) => PrepareKeepsSound(b, act);
      case Ack(_, _, _, _, _, _) => EvidenceKeepsSound(b, act);
      case Report(_, _, _, _, _, _) => EvidenceKeepsSound(b, act);
      case Read(_, _, _) => EvidenceKeepsSound(b, act);
      case Stage(_, _) => EvidenceKeepsSound(b, act);
    }
  }

  lemma AbandonKeepsSound(b: Board, act: Action)
    requires Sound(b) && Possible(b, act) && act.Abandon?
    ensures Sound(Apply(b, act)) && RowsGrow(b.rows, Apply(b, act).rows)
  {
    hide Sound;
    DroppedCall(b, act.call);
    GrowsReflexive(b.rows);
  }

  lemma {:induction false} RunIsSound(trace: seq<Board>, acts: seq<Action>, i: nat)
    requires Follows(trace, acts) && i < |trace|
    ensures Sound(trace[i])
  {
    hide Sound, Possible, Apply;
    if i == 0 {
      EmptyIsSound();
    } else {
      RunIsSound(trace, acts, i - 1);
      StepKeepsSound(trace[i - 1], acts[i - 1]);
    }
  }

  lemma EmptyIsSound()
    ensures Sound(EMPTY)
  {
  }

  lemma {:induction false} RunGrows(trace: seq<Board>, acts: seq<Action>, i: nat, j: nat)
    requires Follows(trace, acts) && i <= j < |trace|
    ensures RowsGrow(trace[i].rows, trace[j].rows)
    ensures trace[i].answers <= trace[j].answers && trace[i].wire <= trace[j].wire
    decreases j - i
  {
    hide Possible, Sound, Apply;
    if i < j {
      RunGrows(trace, acts, i, j - 1);
      RunIsSound(trace, acts, j - 1);
      StepKeepsSound(trace[j - 1], acts[j - 1]);
      LogsGrow(trace[j - 1], acts[j - 1]);
    }
  }

  lemma LogsGrow(b: Board, act: Action)
    requires Possible(b, act)
    ensures b.answers <= Apply(b, act).answers && b.wire <= Apply(b, act).wire
  {
    hide BeginStep, RecordStep, SettleStep, AckRow, ReportRow, ExpireRow;
  }

  // ----- the theorems -----

  /** The message of a call in flight was fixed by an earlier commit of the same call. */
  ghost predicate CommittedBy(trace: seq<Board>, acts: seq<Action>, r: nat, k: Id, m: Message)
    requires Follows(trace, acts) && r < |acts|
  {
    && acts[r].Record? && acts[r].call == k && acts[r].commandId == m.commandId && k in trace[r].calls
    && m.commandId !in trace[r].rows && m.commandId in trace[r + 1].rows
    && trace[r + 1].rows[m.commandId] == NewRow(trace[r].calls[k].request, acts[r].correlationId, acts[r].now)
    && m == MessageOf(m.commandId, trace[r + 1].rows[m.commandId])
  }

  lemma RecordCommits(b: Board, act: Action)
    requires Sound(b) && Possible(b, act) && act.Record? && IsPublishing(Apply(b, act), act.call)
    ensures var m := Apply(b, act).calls[act.call].phase.message;
            && act.commandId == m.commandId && m.commandId !in b.rows && m.commandId in Apply(b, act).rows
            && Apply(b, act).rows[m.commandId] == NewRow(b.calls[act.call].request, act.correlationId, act.now)
            && m == MessageOf(m.commandId, Apply(b, act).rows[m.commandId])
  {
    hide LedgerConstraints, WireOk, AnswersOk, Kept;
    assert CallOk(b, act.call);
  }

  lemma OnlyRecordStartsPublishing(b: Board, act: Action, k: Id)
    requires Possible(b, act) && IsPublishing(Apply(b, act), k)
    ensures || (act.Record? && act.call == k)
            || (IsPublishing(b, k) && b.calls[k].phase.message == Apply(b, act).calls[k].phase.message)
  {
    hide BeginStep, RecordStep, SettleStep, AckRow, ReportRow, ExpireRow, Locked, LookedUp;
  }

  lemma {:induction false} PublisherWasCommitted(trace: seq<Board>, acts: seq<Action>, i: nat, k: Id) returns (r: nat)
    requires Follows(trace, acts) && i < |trace| && IsPublishing(trace[i], k)
    ensures r < i && CommittedBy(trace, acts, r, k, trace[i].calls[k].phase.message)
  {
    hide Sound, Possible, Apply;
    r := 0;
    if i > 0 {
      RunIsSound(trace, acts, i - 1);
      OnlyRecordStartsPublishing(trace[i - 1], acts[i - 1], k);
      if acts[i - 1].Record? && acts[i - 1].call == k {
        RecordCommits(trace[i - 1], acts[i - 1]);
        RecordsOwnCall(trace[i - 1], acts[i - 1]);
        r := i - 1;
      } else {
        r := PublisherWasCommitted(trace, acts, i - 1, k);
      }
    }
  }

  lemma RecordsOwnCall(b: Board, act: Action)
    requires Possible(b, act) && act.Record?
    ensures act.call in b.calls
  {
  }

  lemma {:induction false} CommittedStays(trace: seq<Board>, acts: seq<Action>, r: nat, t: nat, k: Id, m: Message)
    requires Follows(trace, acts) && r < |acts| && r < t < |trace| && CommittedBy(trace, acts, r, k, m)
    ensures m.commandId in trace[t].rows && m == MessageOf(m.commandId, trace[t].rows[m.commandId])
  {
    hide Possible, Apply;
    RunGrows(trace, acts, r + 1, t);
  }

  /** Before a message is handed to the broker, an earlier step of the same submission
      committed its row; the message agrees with that row in house, device, value,
      correlation and deadline, then and for ever, and leaves inside its validity interval. */
  lemma DurableBeforePublishing(trace: seq<Board>, acts: seq<Action>, i: nat) returns (r: nat)
    requires Follows(trace, acts) && i < |acts| && acts[i].Emit? && IsPublishing(trace[i], acts[i].call)
    ensures var m := trace[i].calls[acts[i].call].phase.message;
            && trace[i + 1].wire == trace[i].wire + [Publication(m, acts[i].at)]
            && r < i && CommittedBy(trace, acts, r, acts[i].call, m)
            && (forall t :: r < t < |trace| ==> m.commandId in trace[t].rows && m == MessageOf(m.commandId, trace[t].rows[m.commandId]))
            && m.timestamp <= acts[i].at < m.expiresAt
  {
    hide Sound, Locked, BeginStep, RecordStep, SettleStep, AckRow, ReportRow, ExpireRow, CommittedBy;
    var m := trace[i].calls[acts[i].call].phase.message;
    r := PublisherWasCommitted(trace, acts, i, acts[i].call);
    forall t | r < t < |trace|
      ensures m.commandId in trace[t].rows && m == MessageOf(m.commandId, trace[t].rows[m.commandId])
    {
      CommittedStays(trace, acts, r, t, acts[i].call, m);
    }
    assert Possible(trace[i], acts[i]);
  }

  /** And the wire holds nothing else: every message on it was emitted. */
  lemma {:induction false} WireIsEmitted(trace: seq<Board>, acts: seq<Action>, t: nat, x: nat) returns (i: nat)
    requires Follows(trace, acts) && t < |trace| && x < |trace[t].wire|
    ensures i < t && acts[i].Emit? && IsPublishing(trace[i], acts[i].call)
    ensures trace[t].wire[x] == Publication(trace[i].calls[acts[i].call].phase.message, acts[i].at)
  {
    hide Sound, Locked, BeginStep, RecordStep, SettleStep, AckRow, ReportRow, ExpireRow, LookedUp, Admits;
    i := 0;
    if t > 0 {
      assert Possible(trace[t - 1], acts[t - 1]);
      if x < |trace[t - 1].wire| {
        i := WireIsEmitted(trace, acts, t - 1, x);
      } else {
        i := t - 1;
      }
    }
  }

  /** Each (house, user, key) publishes at most once in any run. */
  lemma PublishesAtMostOnce(trace: seq<Board>, acts: seq<Action>, t: nat, i: nat, j: nat)
    requires Follows(trace, acts) && t < |trace| && i < |trace[t].wire| && j < |trace[t].wire|
    requires trace[t].wire[i].message.commandId in trace[t].rows && trace[t].wire[j].message.commandId in trace[t].rows
    requires SameKey(trace[t].rows[trace[t].wire[i].message.commandId], trace[t].rows[trace[t].wire[j].message.commandId])
    ensures i == j
  {
    hide Possible, Apply;
    RunIsSound(trace, acts, t);
    assert Clash(trace[t].rows[trace[t].wire[i].message.commandId], trace[t].rows[trace[t].wire[j].message.commandId]);
  }

  /** Whatever was answered to a key at any time is the command that is answered to
      it at every other time, and it carries that key, device and value. */
  lemma KeyAlwaysAnswersSameCommand(trace: seq<Board>, acts: seq<Action>, t: nat, i: nat, j: nat)
    requires Follows(trace, acts) && t < |trace| && i < |trace[t].answers| && j < |trace[t].answers|
    requires var x, y := trace[t].answers[i].request, trace[t].answers[j].request;
             x.houseId == y.houseId && x.userId == y.userId && x.keyHash == y.keyHash
    ensures trace[t].answers[i].commandId == trace[t].answers[j].commandId
    ensures trace[t].answers[i].request == trace[t].answers[j].request
  {
    hide Possible, Apply;
    RunIsSound(trace, acts, t);
    var c, d := trace[t].answers[i].commandId, trace[t].answers[j].commandId;
    assert Serves(trace[t].rows, trace[t].answers[i].request, c) && Serves(trace[t].rows, trace[t].answers[j].request, d);
    assert Clash(trace[t].rows[c], trace[t].rows[d]);
  }

  lemma OnePendingPerDevice(trace: seq<Board>, acts: seq<Action>, t: nat, c: Id, d: Id)
    requires Follows(trace, acts) && t < |trace| && c in trace[t].rows && d in trace[t].rows
    requires trace[t].rows[c].deviceId == trace[t].rows[d].deviceId
    requires Pending(trace[t].rows[c].status) && Pending(trace[t].rows[d].status)
    ensures c == d
  {
    hide Possible, Apply;
    RunIsSound(trace, acts, t);
    assert Clash(trace[t].rows[c], trace[t].rows[d]);
  }

  /** Rows are never removed, keep what was asked for, and never change once terminal. */
  lemma TerminalIsForever(trace: seq<Board>, acts: seq<Action>, i: nat, j: nat, c: Id)
    requires Follows(trace, acts) && i <= j < |trace| && c in trace[i].rows
    ensures c in trace[j].rows && IdentityOf(c, trace[j].rows[c]) == IdentityOf(c, trace[i].rows[c])
    ensures SameKey(trace[i].rows[c], trace[j].rows[c])
    ensures !Pending(trace[i].rows[c].status) ==> trace[j].rows[c] == trace[i].rows[c]
  {
    hide Possible, Apply;
    RunGrows(trace, acts, i, j);
  }
}
