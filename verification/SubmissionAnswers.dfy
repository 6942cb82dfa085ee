/** Which submissions are admitted, replayed and refused, from the stored rows and the
    state of the device alone, and what each stretch of a submission stores. */
module SubmissionAnswers {
  import opened Common
  import opened CommandRecords
  import opened CommandLedger
  import opened Submissions
  import opened SubmissionRuns

  /** The row was submitted by this user under this key. */
  predicate OfKey(row: CommandRow, q: Request) {
    row.houseId == q.houseId && row.requestedBy == q.userId && row.idempotencyHash == q.keyHash
  }

  predicate Open(row: CommandRow) {
    row.status == Queued || row.status == Dispatched
  }

  predicate Overdue(row: CommandRow, j: Judgement) {
    if j.Calendar? then row.expiresAt <= j.now else j.answer
  }

  predicate KeyIsNew(rows: map<Id, CommandRow>, q: Request) {
    forall c :: c in rows ==> !OfKey(rows[c], q)
  }

  /** The device has no open command that is still in time. */
  predicate DeviceIsIdle(rows: map<Id, CommandRow>, q: Request, j: Judgement) {
    forall c :: c in rows && rows[c].deviceId == q.deviceId && Open(rows[c]) ==> Overdue(rows[c], j)
  }

  /** Everything that a new submission needs. */
  predicate Admitted(rows: map<Id, CommandRow>, q: Request, gate: Gate, j: Judgement) {
    && gate.active.Done? && KeyIsNew(rows, q) && gate.contract.Done? && DeviceIsIdle(rows, q, j)
    && gate.online && gate.connected
  }

  /** The command of this key was for the same device and value. */
  predicate SameIntent(rows: map<Id, CommandRow>, q: Request, c: Id) {
    c in rows && OfKey(rows[c], q) && rows[c].deviceId == q.deviceId && rows[c].requestedOn == q.on
  }

  /** A submission goes on if and only if it is admitted; then only an overdue command
      of the device is timed out, inside the transaction that is still open. */
  lemma ProceedsExactlyWhen(rows: map<Id, CommandRow>, q: Request, previous: Option<Id>, pending: Option<Id>, gate: Gate, j: Judgement, at: int)
    requires LookedUp(rows, q, previous, pending) && LedgerConstraints(rows)
    ensures var (rows', b) := BeginStep(rows, q, previous, pending, gate, j, at);
            && (b.Proceed? <==> Admitted(rows, q, gate, j))
            && (b.Proceed? ==>
                  && rows' == rows
                  && (b.flushed.None? <==> forall c :: c in rows && rows[c].deviceId == q.deviceId ==> !Open(rows[c]))
                  && (b.flushed.Some? ==>
                        var c := b.flushed.value.commandId;
                        && c in rows && rows[c].deviceId == q.deviceId && Open(rows[c])
                        && b.flushed.value.row == rows[c].(status := TimedOut, failureCode := Some(DeadlineExceeded),
                                                           updatedAt := at, completedAt := Some(at))))
  {
    KeyFound(rows, q, previous, pending);
    PendingFound(rows, q, previous, pending, j);
  }

  /** The look-up of the open command decides whether the device is idle. */
  lemma PendingFound(rows: map<Id, CommandRow>, q: Request, previous: Option<Id>, pending: Option<Id>, j: Judgement)
    requires LookedUp(rows, q, previous, pending) && LedgerConstraints(rows)
    ensures pending.None? <==> forall c :: c in rows && rows[c].deviceId == q.deviceId ==> !Open(rows[c])
    ensures pending.Some? ==> pending.value in rows && rows[pending.value].deviceId == q.deviceId && Open(rows[pending.value])
    ensures DeviceIsIdle(rows, q, j) <==> (pending.Some? ==> Overdue(rows[pending.value], j))
  {
    hide Clash;
    if pending.Some? {
      forall c | c in rows && rows[c].deviceId == q.deviceId && Open(rows[c])
        ensures c == pending.value
      {
        DevicesClash(rows[c], rows[pending.value]);
      }
    } else {
      forall c | c in rows && rows[c].deviceId == q.deviceId
        ensures !Open(rows[c])
      {
        assert !ForDevice(rows, q, c);
      }
    }
  }

  lemma DevicesClash(x: CommandRow, y: CommandRow)
    requires x.deviceId == y.deviceId && Open(x) && Open(y)
    ensures Clash(x, y)
  {
  }

  lemma KeysClash(x: CommandRow, y: CommandRow, q: Request)
    requires OfKey(x, q) && OfKey(y, q)
    ensures Clash(x, y)
  {
  }

  lemma KeyFound(rows: map<Id, CommandRow>, q: Request, previous: Option<Id>, pending: Option<Id>)
    requires LookedUp(rows, q, previous, pending)
    ensures previous.None? <==> KeyIsNew(rows, q)
    ensures previous.Some? ==> previous.value in rows && OfKey(rows[previous.value], q)
  {
    if previous.None? {
      forall c | c in rows
        ensures !OfKey(rows[c], q)
      {
        assert !ForKey(rows, q, c);
      }
    }
  }

  /** A used key is replayed if and only if device and value are the same: with its own
      command, of which at most an overdue deadline is stored. */
  lemma ReplayedExactlyWhen(rows: map<Id, CommandRow>, q: Request, previous: Option<Id>, pending: Option<Id>, gate: Gate, j: Judgement, at: int)
    requires LookedUp(rows, q, previous, pending) && LedgerConstraints(rows)
    ensures var (rows', b) := BeginStep(rows, q, previous, pending, gate, j, at);
            && (b.Replay? <==> gate.active.Done? && exists c :: SameIntent(rows, q, c))
            && (b.Replay? ==>
                  && SameIntent(rows, q, b.commandId)
                  && rows' == if Open(rows[b.commandId]) && Overdue(rows[b.commandId], j)
                              then rows[b.commandId := rows[b.commandId].(status := TimedOut, failureCode := Some(DeadlineExceeded),
                                                                          updatedAt := at, completedAt := Some(at))]
                              else rows)
  {
    hide Clash;
    KeyFound(rows, q, previous, pending);
    if previous.Some? {
      assert rows[previous.value := rows[previous.value]] == rows;
      assert SameIntent(rows, q, previous.value) <==> rows[previous.value].deviceId == q.deviceId && rows[previous.value].requestedOn == q.on;
      forall c | SameIntent(rows, q, c)
        ensures c == previous.value
      {
        KeysClash(rows[c], rows[previous.value], q);
      }
    }
  }

  /** Why a submission is refused; a refusal stores nothing. */
  lemma RefusedBecause(rows: map<Id, CommandRow>, q: Request, previous: Option<Id>, pending: Option<Id>, gate: Gate, j: Judgement, at: int)
    requires LookedUp(rows, q, previous, pending) && LedgerConstraints(rows)
    requires BeginStep(rows, q, previous, pending, gate, j, at).1.Refuse?
    ensures var (rows', b) := BeginStep(rows, q, previous, pending, gate, j, at);
            && rows' == rows
            && b.error == if gate.active.Refused? then gate.active.error
                          else if !KeyIsNew(rows, q) then Conflict
                          else if gate.contract.Refused? then gate.contract.error
                          else if !DeviceIsIdle(rows, q, j) || !gate.online then Conflict
                          else Unavailable
  {
    PendingFound(rows, q, previous, pending, j);
    KeyFound(rows, q, previous, pending);
  }

  /** The new row: the intent, a validity of 30 s from now on, and the dispatch mark.
      It is stored if and only if its identifiers are new and neither its key nor an
      open command of its device is there; otherwise everything is rolled back. */
  lemma RecordExactlyWhen(rows: map<Id, CommandRow>, q: Request, flushed: Option<Flushed>, c: Id, correlationId: Id, now: int)
    ensures var (rows', o) := RecordStep(rows, q, flushed, c, correlationId, now);
            var view := if flushed.Some? then rows[flushed.value.commandId := flushed.value.row] else rows;
            && (o.Done? <==>
                  && c !in view
                  && (forall d :: d in view ==>
                        && view[d].correlationId != correlationId && !OfKey(view[d], q)
                        && !(view[d].deviceId == q.deviceId && Open(view[d]))))
            && (o.Done? ==>
                  rows' == view[c := CommandRow(correlationId, q.houseId, q.deviceId, q.userId, q.keyHash, q.on, now, now + 30_000_000,
                                                Queued, None, None, None, now, Some(now), None, None, None, None)])
            && (o.Refused? ==> o.error == Conflict && rows' == rows)
  {
  }

  /** How the end of a publication is stored. */
  lemma SettleStores(row: CommandRow, published: bool, j: Judgement, t: Stamps)
    ensures SettleStep(row, published, j, t) ==
            if !Open(row) then row
            else if Overdue(row, j) then
              row.(status := TimedOut, failureCode := Some(DeadlineExceeded), updatedAt := t.expire, completedAt := Some(t.expire))
            else if published then
              row.(status := Dispatched, dispatchedAt := if row.dispatchedAt.Some? then row.dispatchedAt else Some(t.dispatch), updatedAt := t.update)
            else
              row.(status := Failed, failureCode := Some(PublishUnconfirmed), updatedAt := t.finish, completedAt := Some(t.finish))
  {
  }

  // ----- over runs -----

  /** In every run, a submission that begins goes on to be authorized if and only if it
      is admitted in that very state. */
  lemma BeginsExactlyWhen(trace: seq<Board>, acts: seq<Action>, i: nat)
    requires Follows(trace, acts) && i < |acts| && acts[i].Begin?
    ensures acts[i].call in trace[i + 1].calls <==> Admitted(trace[i].rows, acts[i].q, acts[i].gate, acts[i].j)
    ensures acts[i].call in trace[i + 1].calls ==>
              trace[i + 1].calls[acts[i].call].request == acts[i].q && trace[i + 1].calls[acts[i].call].phase.Authorizing?
  {
    var act, b := acts[i], trace[i];
    assert Possible(b, act);
    RunIsSound(trace, acts, i);
    LedgerOf(b);
    hide Sound, Locked, Admitted, BeginStep, LookedUp, LedgerConstraints;
    ProceedsExactlyWhen(b.rows, act.q, act.previous, act.pending, act.gate, act.j, act.at);
  }

  /** Conversely every submission under way was admitted when it began. */
  lemma {:induction false} UnderWayWasAdmitted(trace: seq<Board>, acts: seq<Action>, t: nat, k: Id) returns (i: nat)
    requires Follows(trace, acts) && t < |trace| && k in trace[t].calls
    ensures i < t && acts[i].Begin? && acts[i].call == k && acts[i].q == trace[t].calls[k].request
    ensures Admitted(trace[i].rows, acts[i].q, acts[i].gate, acts[i].j)
  {
    hide Sound, Locked, Admitted, BeginStep, RecordStep, SettleStep, AckRow, ReportRow, ExpireRow, LookedUp, CommandRecords.Admits;
    i := 0;
    if t > 0 {
      assert Possible(trace[t - 1], acts[t - 1]);
      if k in trace[t - 1].calls {
        SameRequest(trace[t - 1], acts[t - 1], k);
        i := UnderWayWasAdmitted(trace, acts, t - 1, k);
      } else {
        OnlyBeginsAdd(trace[t - 1], acts[t - 1], k);
        BeginsExactlyWhen(trace, acts, t - 1);
        i := t - 1;
      }
    }
  }

  lemma SameRequest(b: Board, act: Action, k: Id)
    requires Possible(b, act) && k in b.calls && k in Apply(b, act).calls
    ensures Apply(b, act).calls[k].request == b.calls[k].request
  {
    hide BeginStep, RecordStep, SettleStep, AckRow, ReportRow, ExpireRow, Locked, LookedUp;
  }

  lemma OnlyBeginsAdd(b: Board, act: Action, k: Id)
    requires Possible(b, act) && k !in b.calls && k in Apply(b, act).calls
    ensures act.Begin? && act.call == k
  {
    hide BeginStep, RecordStep, SettleStep, AckRow, ReportRow, ExpireRow, Locked, LookedUp;
  }

  // ----- publication -----

  /** A message is valid for 30 s, and can be handed to the broker exactly then. */
  lemma EmitsExactlyWhen(trace: seq<Board>, acts: seq<Action>, t: nat, k: Id, at: int)
    requires Follows(trace, acts) && t < |trace| && IsPublishing(trace[t], k) && !trace[t].calls[k].phase.sent
    ensures var m := trace[t].calls[k].phase.message;
            && m.expiresAt == m.timestamp + 30_000_000
            && (Possible(trace[t], Emit(k, at)) <==> m.timestamp <= at < m.expiresAt)
  {
    var r := PublisherWasCommitted(trace, acts, t, k);
  }

  predicate OnWire(b: Board, m: Message) {
    exists x :: 0 <= x < |b.wire| && b.wire[x].message == m
  }

  lemma {:induction false} SentIsOnWire(trace: seq<Board>, acts: seq<Action>, t: nat, k: Id)
    requires Follows(trace, acts) && t < |trace| && IsPublishing(trace[t], k) && trace[t].calls[k].phase.sent
    ensures OnWire(trace[t], trace[t].calls[k].phase.message)
  {
    hide Sound, Locked, BeginStep, RecordStep, SettleStep, AckRow, ReportRow, ExpireRow, LookedUp, CommandRecords.Admits;
    if t > 0 {
      assert Possible(trace[t - 1], acts[t - 1]);
      var b, act := trace[t - 1], acts[t - 1];
      if act.Emit? && act.call == k {
        assert trace[t].wire[|b.wire|].message == trace[t].calls[k].phase.message;
      } else {
        SentBefore(b, act, k);
        SentIsOnWire(trace, acts, t - 1, k);
        LogsGrow(b, act);
        var x :| 0 <= x < |b.wire| && b.wire[x].message == b.calls[k].phase.message;
        assert trace[t].wire[x] == b.wire[x];
      }
    }
  }

  lemma SentBefore(b: Board, act: Action, k: Id)
    requires Possible(b, act) && IsPublishing(Apply(b, act), k) && Apply(b, act).calls[k].phase.sent && !(act.Emit? && act.call == k)
    ensures IsPublishing(b, k) && b.calls[k].phase == Apply(b, act).calls[k].phase
  {
    hide BeginStep, RecordStep, SettleStep, AckRow, ReportRow, ExpireRow, Locked, LookedUp;
  }

  /** A publication counts as successful only if its message has been handed over. */
  lemma SuccessMeansSent(trace: seq<Board>, acts: seq<Action>, i: nat)
    requires Follows(trace, acts) && i < |acts| && acts[i].Settle? && acts[i].published
    ensures IsPublishing(trace[i], acts[i].call) && OnWire(trace[i], trace[i].calls[acts[i].call].phase.message)
  {
    hide Sound, Locked, BeginStep, RecordStep, SettleStep, AckRow, ReportRow, ExpireRow, LookedUp, OnWire;
    assert Possible(trace[i], acts[i]);
    SentIsOnWire(trace, acts, i, acts[i].call);
  }
}
