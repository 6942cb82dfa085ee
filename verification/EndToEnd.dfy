/** The core's ledger and one software relay, joined by a network that may lose,
    repeat and reorder whatever is handed to it (QoS 1 of OASIS MQTT 3.1.1, section
    4.3.2, promises at least one delivery and no order between topics). */
module EndToEnd {
  import opened Common
  import opened CommandRecords
  import opened CommandLedger
  import opened Submissions
  import B = SubmissionRuns
  import opened R = Relay

  /** The relay under consideration, and how far its clock may be from the core's. */
  datatype Site = Site(houseId: Id, deviceId: Id, skew: nat)

  /** What reached the relay since it was last started, and in its earlier lifetimes,
      of which it remembers nothing; and the core's time. */
  datatype Net = Net(board: B.Board, past: seq<seq<Delivery>>, deliveries: seq<Delivery>, time: int)

  datatype Step =
    | Core(act: B.Action, at: int)
    | Deliver(relayTime: int, at: int, command: Command)
    | Restart(at: int)

  function Start(time: int): Net {
    Net(B.EMPTY, [], [], time)
  }

  predicate Local(site: Site, row: CommandRow) {
    row.houseId == site.houseId && row.deviceId == site.deviceId
  }

  function CommandFor(m: B.Message): Command {
    Command(m.commandId, m.correlationId, Aware(m.timestamp), Some(Aware(m.expiresAt)), OnlyOn(Bool(m.on)))
  }

  predicate Addressed(site: Site, m: B.Message) {
    m.houseId == site.houseId && m.deviceId == site.deviceId
  }

  predicate OnWire(site: Site, wire: seq<B.Publication>, command: Command) {
    exists i :: 0 <= i < |wire| && Addressed(site, wire[i].message) && command == CommandFor(wire[i].message)
  }

  /** A command of another sender, with identifiers of its own. */
  predicate Stray(rows: map<Id, CommandRow>, command: Command) {
    command.commandId !in rows && forall c :: c in rows ==> rows[c].correlationId != command.correlationId
  }

  predicate UnknownToRelay(ds: seq<Delivery>, commandId: Id, correlationId: Id) {
    forall i :: 0 <= i < |ds| ==> ds[i].command.commandId != commandId && ds[i].command.correlationId != correlationId
  }

  /** All lifetimes of the relay, the present one last. */
  function Lives(net: Net): seq<seq<Delivery>> {
    net.past + [net.deliveries]
  }

  function StatusOf(ack: R.Ack): AckStatus {
    if ack.error.None? then AckApplied else Rejected
  }

  /** An acknowledgement with this content has left the relay. */
  ghost predicate Acknowledged(ds: seq<Delivery>, commandId: Id, correlationId: Id, status: AckStatus) {
    exists i, ack :: 0 <= i < |ds| && AckMessage(ack) in SentAt(ds, i)
      && ack.commandId == commandId && ack.correlationId == correlationId && StatusOf(ack) == status
  }

  ghost predicate Reported(ds: seq<Delivery>, correlationId: Id, on: bool) {
    exists i :: 0 <= i < |ds| && StateMessage(correlationId, on) in SentAt(ds, i)
  }

  ghost predicate EverAcknowledged(lives: seq<seq<Delivery>>, commandId: Id, correlationId: Id, status: AckStatus) {
    exists l :: 0 <= l < |lives| && Acknowledged(lives[l], commandId, correlationId, status)
  }

  ghost predicate EverReported(lives: seq<seq<Delivery>>, correlationId: Id, on: bool) {
    exists l :: 0 <= l < |lives| && Reported(lives[l], correlationId, on)
  }

  predicate NeverSeen(lives: seq<seq<Delivery>>, commandId: Id, correlationId: Id) {
    forall l :: 0 <= l < |lives| ==> UnknownToRelay(lives[l], commandId, correlationId)
  }

  /** The calendar judges software commands, with readings no later than `at`. */
  predicate ByCalendar(j: Judgement, at: int) {
    j.Calendar? && j.now <= at
  }

  /** Messages on the relay's own topics come from the relay; identifiers are fresh;
      control commands are for other devices. */
  ghost predicate Allowed(site: Site, net: Net, act: B.Action, at: int) {
    var rows := net.board.rows;
    match act
    case Begin(_, q, _, _, _, j, _) => q.deviceId == site.deviceId ==> ByCalendar(j, at)
    case Record(_, c, correlationId, _) => NeverSeen(Lives(net), c, correlationId)
    case Settle(_, _, j, _) => ByCalendar(j, at)
    case Return(_, j, _) => ByCalendar(j, at)
    case Ack(c, status, retained, j, bound, _) =>
      c in rows && Local(site, rows[c]) ==>
        && ByCalendar(j, at) && bound
        && (!retained ==> EverAcknowledged(Lives(net), c, rows[c].correlationId, status))
    case Report(c, reported, retained, j, bound, _) =>
      c in rows && Local(site, rows[c]) ==>
        && ByCalendar(j, at) && bound
        && (!retained && reported.Some? ==> EverReported(Lives(net), rows[c].correlationId, reported.value))
    case Read(c, j, _) => c in rows && Local(site, rows[c]) ==> ByCalendar(j, at)
    case Prepare(c, row) => !Local(site, row) && NeverSeen(Lives(net), c, row.correlationId)
    case Stage(c, _) => c in rows ==> !Local(site, rows[c])
    case Emit(_, _) => true
    case Abandon(_) => true
  }

  ghost predicate Possible(site: Site, net: Net, step: Step) {
    net.time <= step.at &&
    match step
    case Core(act, at) => B.Possible(net.board, act) && Allowed(site, net, act, at)
    case Deliver(relayTime, at, command) =>
      && at - site.skew <= relayTime <= at + site.skew
      && (forall i :: 0 <= i < |net.deliveries| ==> net.deliveries[i].now <= relayTime)
      && (OnWire(site, net.board.wire, command) || Stray(net.board.rows, command))
    case Restart(_) => true
  }

  function Apply(site: Site, net: Net, step: Step): Net
    requires Possible(site, net, step)
  {
    match step
    case Core(act, at) => net.(board := B.Apply(net.board, act), time := at)
    case Deliver(relayTime, at, command) => net.(deliveries := net.deliveries + [Delivery(relayTime, command)], time := at)
    case Restart(at) => net.(past := net.past + [net.deliveries], deliveries := [], time := at)
  }

  ghost predicate Follows(site: Site, trace: seq<Net>, steps: seq<Step>) {
    && |trace| == |steps| + 1 && trace[0] == Start(trace[0].time)
    && forall i :: 0 <= i < |steps| ==> Possible(site, trace[i], steps[i]) && trace[i + 1] == Apply(site, trace[i], steps[i])
  }

  // ----- the relay's side -----

  ghost predicate ExecutedBefore(ds: seq<Delivery>, c: Id) {
    exists i :: 0 <= i < |ds| && ds[i].command.commandId == c && ExecutesAt(ds, i)
  }

  ghost predicate EverExecuted(lives: seq<seq<Delivery>>, c: Id) {
    exists l :: 0 <= l < |lives| && ExecutedBefore(lives[l], c)
  }

  lemma ExecutedStays(ds: seq<Delivery>, d: Delivery, c: Id)
    requires ExecutedBefore(ds, c)
    ensures ExecutedBefore(ds + [d], c)
  {
    var i :| 0 <= i < |ds| && ds[i].command.commandId == c && ExecutesAt(ds, i);
    assert (ds + [d])[..i] == ds[..i];
    assert ExecutesAt(ds + [d], i);
  }

  /** Every cached "applied" answer stands for an execution in the past. */
  ghost predicate AnswersEarned(ds: seq<Delivery>) {
    var seen := Run(ds).seen;
    forall k :: k in seen && seen[k].ack.error.None? ==> ExecutedBefore(ds, k)
  }

  lemma NextExecutes(ds: seq<Delivery>, d: Delivery)
    requires Executes(Run(ds), d.now, d.command)
    ensures ExecutedBefore(ds + [d], d.command.commandId)
  {
    hide Executes, Run;
    assert (ds + [d])[..|ds|] == ds;
    assert ExecutesAt(ds + [d], |ds|);
  }

  lemma CacheAfter(r: RelayState, now: int, c: Command)
    ensures var h := HandleStep(r, now, c);
            forall k :: k in h.relay.seen && h.relay.seen[k].ack.error.None? ==>
              (k in r.seen && r.seen[k].ack.error.None?) || (k == c.commandId && Executes(r, now, c))
  {
  }

  lemma {:induction false} EveryAnswerIsEarned(ds: seq<Delivery>)
    ensures AnswersEarned(ds)
  {
    if ds != [] {
      var pre, d := ds[..|ds| - 1], ds[|ds| - 1];
      EveryAnswerIsEarned(pre);
      CacheAfter(Run(pre), d.now, d.command);
      hide HandleStep, Executes, ExecutedBefore;
      assert ds == pre + [d];
      forall k | k in Run(ds).seen && Run(ds).seen[k].ack.error.None?
        ensures ExecutedBefore(ds, k)
      {
        if k in Run(pre).seen && Run(pre).seen[k].ack.error.None? {
          ExecutedStays(pre, d, k);
        } else {
          NextExecutes(pre, d);
        }
      }
    }
  }

  lemma SentComesFromCache(r: RelayState, now: int, c: Command, ack: R.Ack)
    requires KeptLongEnough(r) && AckMessage(ack) in HandleStep(r, now, c).sent
    ensures var seen := HandleStep(r, now, c).relay.seen;
            ack.commandId in seen && seen[ack.commandId].ack == ack
  {
  }

  /** An "applied" acknowledgement on the network proves an execution. */
  lemma AppliedAckMeansExecuted(ds: seq<Delivery>, c: Id, correlationId: Id)
    requires Acknowledged(ds, c, correlationId, AckApplied)
    ensures ExecutedBefore(ds, c)
  {
    hide HandleStep, ExecutedBefore, KeptLongEnough;
    var i, ack :| 0 <= i < |ds| && AckMessage(ack) in SentAt(ds, i) && ack.commandId == c && StatusOf(ack) == AckApplied;
    var upto := ds[..i + 1];
    assert upto[..i] == ds[..i];
    RunKeepsEntries(ds[..i]);
    SentComesFromCache(Run(ds[..i]), ds[i].now, ds[i].command, ack);
    EveryAnswerIsEarned(upto);
    assert upto[|upto| - 1] == ds[i] && Run(upto) == HandleStep(Run(ds[..i]), ds[i].now, ds[i].command).relay;
    assert StatusOf(ack) == AckApplied;
    PrefixExecuted(ds, i + 1, c);
  }

  lemma EverAcknowledgedMeansExecuted(lives: seq<seq<Delivery>>, c: Id, correlationId: Id)
    requires EverAcknowledged(lives, c, correlationId, AckApplied)
    ensures EverExecuted(lives, c)
  {
    hide Acknowledged, ExecutedBefore;
    var l :| 0 <= l < |lives| && Acknowledged(lives[l], c, correlationId, AckApplied);
    AppliedAckMeansExecuted(lives[l], c, correlationId);
  }

  lemma {:induction false} PrefixExecuted(ds: seq<Delivery>, n: nat, c: Id)
    requires n <= |ds| && ExecutedBefore(ds[..n], c)
    ensures ExecutedBefore(ds, c)
    decreases |ds| - n
  {
    if n == |ds| {
      assert ds[..n] == ds;
    } else {
      ExecutedStays(ds[..n], ds[n], c);
      assert ds[..n] + [ds[n]] == ds[..n + 1];
      PrefixExecuted(ds, n + 1, c);
    }
  }

  // ----- the core's side -----

  /** What one action may do to an existing row of the relay. */
  predicate Moves(row: CommandRow, row': CommandRow, at: int, applied: bool) {
    && (row'.ackStatus == Some(AckApplied) ==> row.ackStatus == Some(AckApplied) || applied)
    && (row'.status.Applied? ==> row.status.Applied? || row'.ackStatus == Some(AckApplied))
    && (row'.status.TimedOut? ==> row.status.TimedOut? || row.expiresAt <= at)
    && row'.expiresAt == row.expiresAt && row'.houseId == row.houseId && row'.deviceId == row.deviceId
    && row'.requestedOn == row.requestedOn && row'.correlationId == row.correlationId && row'.createdAt == row.createdAt
    && (row.dispatchStartedAt.Some? ==> row'.dispatchStartedAt.Some?)
    && (Unproven(row) ==> Unproven(row'))
  }

  /** An open row does not have both proofs of completion. */
  predicate Unproven(row: CommandRow) {
    Pending(row.status) ==>
      !(row.ackStatus == Some(AckApplied) && row.reportedOn == Some(row.requestedOn) && row.stateReceivedAt.Some?)
  }

  /** An uncommitted row differs from the committed one by its timeout only. */
  ghost predicate FlushOk(site: Site, rows: map<Id, CommandRow>, call: B.Call, time: int) {
    call.phase.Authorizing? && call.phase.flushed.Some? ==>
      && call.phase.flushed.value.commandId in rows
      && (Local(site, rows[call.phase.flushed.value.commandId]) ==>
            Moves(rows[call.phase.flushed.value.commandId], call.phase.flushed.value.row, time, false))
  }

  ghost predicate FlushesOk(site: Site, b: B.Board, time: int) {
    forall k :: k in b.calls ==> FlushOk(site, b.rows, b.calls[k], time)
  }

  ghost predicate AckedNow(act: B.Action, c: Id) {
    act.Ack? && act.c == c && act.status == AckApplied && !act.retained
  }

  lemma EvidenceMoves(row: CommandRow, act: B.Action, at: int)
    requires match act
             case Ack(_, _, _, j, bound, _) => ByCalendar(j, at) && bound
             case Report(_, _, _, j, bound, _) => ByCalendar(j, at) && bound
             case Read(_, j, _) => ByCalendar(j, at)
             case Settle(_, _, j, _) => ByCalendar(j, at)
             case Return(_, j, _) => ByCalendar(j, at)
             case _ => false
    ensures match act
            case Ack(c, status, retained, j, bound, t) =>
              Moves(row, AckRow(row, status, retained, Expired(row, j), bound, t), at, status == AckApplied && !retained)
            case Report(_, on, retained, j, bound, t) => Moves(row, ReportRow(row, on, retained, Expired(row, j), bound, t), at, false)
            case Read(_, j, when) => Moves(row, ExpireRow(row, Expired(row, j), when), at, false)
            case Settle(_, published, j, t) => Moves(row, SettleStep(row, published, j, t), at, false)
            case Return(_, j, when) => Moves(row, ExpireRow(row, Expired(row, j), when), at, false)
            case _ => true
  {
  }

  lemma RowsMove(site: Site, net: Net, act: B.Action, at: int, c: Id)
    requires B.Sound(net.board) && B.Possible(net.board, act) && Allowed(site, net, act, at) && net.time <= at
    requires FlushesOk(site, net.board, net.time) && c in net.board.rows && Local(site, net.board.rows[c])
    ensures c in B.Apply(net.board, act).rows
    ensures Moves(net.board.rows[c], B.Apply(net.board, act).rows[c], at, AckedNow(act, c))
  {
    hide B.Sound, Moves, AckRow, ReportRow, ExpireRow, SettleStep, B.Locked, Admits;
    var row := net.board.rows[c];
    SameMoves(row, at, AckedNow(act, c));
    match act {
      case Begin(_, q, previous, pending, gate, j, when) =>
        if previous == Some(c) && ByCalendar(j, at) {
          EvidenceMoves(row, B.Read(c, j, when), at);
        }
      case Record(k, d, _, _) =>
        assert FlushOk(site, net.board.rows, net.board.calls[k], net.time);
        if net.board.calls[k].phase.flushed.Some? && net.board.calls[k].phase.flushed.value.commandId == c {
          MovesLater(row, net.board.calls[k].phase.flushed.value.row, net.time, at);
        }
        assert Admits(View(net.board.rows, net.board.calls[k].phase.flushed), d, NewRow(net.board.calls[k].request, act.correlationId, act.now)) ==>
            d != c by { InsertedIsNew(net.board.rows, net.board.calls[k].phase.flushed, d, NewRow(net.board.calls[k].request, act.correlationId, act.now)); }
      case Settle(_, _, _, _) => EvidenceMoves(row, act, at);
      case Return(_, _, _) => EvidenceMoves(row, act, at);
      case Ack(d, _, _, _, _, _) => if d == c { EvidenceMoves(row, act, at); }
      case Report(d, _, _, _, _, _) => if d == c { EvidenceMoves(row, act, at); }
      case Read(d, _, _) => if d == c { EvidenceMoves(row, act, at); }
      case Emit(_, _) =>
      case Abandon(_) =>
      case Prepare(d, r) => B.NotYetThere(net.board.rows, d, r);
      case Stage(_, _) =>
    }
  }

  lemma SameMoves(row: CommandRow, at: int, applied: bool)
    ensures Moves(row, row, at, applied)
  {
  }

  lemma MovesLater(row: CommandRow, row': CommandRow, from: int, to: int)
    requires from <= to && Moves(row, row', from, false)
    ensures Moves(row, row', to, false)
  {
  }

  lemma InsertedIsNew(rows: map<Id, CommandRow>, flushed: Option<Flushed>, d: Id, row: CommandRow)
    requires flushed.Some? ==> flushed.value.commandId in rows
    ensures Admits(View(rows, flushed), d, row) ==> d !in rows
  {
  }

  // ----- the invariant -----

  /** What the relay received under a ledger identifier is exactly what the ledger stores. */
  ghost predicate Genuine(site: Site, rows: map<Id, CommandRow>, ds: seq<Delivery>) {
    forall i :: 0 <= i < |ds| && ds[i].command.commandId in rows ==> GenuineCopy(site, rows, ds[i].command)
  }

  predicate GenuineCopy(site: Site, rows: map<Id, CommandRow>, command: Command)
    requires command.commandId in rows
  {
    var row := rows[command.commandId];
    Local(site, row) && command == CommandFor(B.MessageOf(command.commandId, row))
  }

  ghost predicate RowOk(net: Net, c: Id)
    requires c in net.board.rows
  {
    var row := net.board.rows[c];
    && row.dispatchStartedAt.Some? && Unproven(row)
    && (row.ackStatus == Some(AckApplied) ==> EverExecuted(Lives(net), c))
    && (row.status.Applied? ==> row.ackStatus == Some(AckApplied))
    && (row.status.TimedOut? ==> row.expiresAt <= net.time)
  }

  ghost predicate RowsOk(site: Site, net: Net) {
    forall c :: c in net.board.rows && Local(site, net.board.rows[c]) ==> RowOk(net, c)
  }

  /** What it received under other identifiers has nothing to do with the ledger. */
  ghost predicate Strangers(rows: map<Id, CommandRow>, ds: seq<Delivery>) {
    forall i, c :: 0 <= i < |ds| && ds[i].command.commandId !in rows && c in rows ==>
      rows[c].correlationId != ds[i].command.correlationId
  }

  /** Each lifetime on its own: genuine commands, and a clock that does not go back. */
  ghost predicate LifeOk(site: Site, rows: map<Id, CommandRow>, ds: seq<Delivery>) {
    ClockRuns(ds) && Genuine(site, rows, ds) && Strangers(rows, ds)
  }

  ghost predicate LivesOk(site: Site, net: Net) {
    forall l :: 0 <= l < |Lives(net)| ==> LifeOk(site, net.board.rows, Lives(net)[l])
  }

  ghost predicate Inv(site: Site, net: Net) {
    B.Sound(net.board) && FlushesOk(site, net.board, net.time) && RowsOk(site, net) && LivesOk(site, net)
  }

  /** A locked row stays as it is for as long as the lock is held. */
  lemma LockedRowStays(b: B.Board, act: B.Action, k: Id, c: Id)
    requires B.Sound(b) && B.Possible(b, act) && k in b.calls && B.HoldsLock(b.calls[k], c)
    requires k in B.Apply(b, act).calls && B.Apply(b, act).calls[k] == b.calls[k]
    ensures c in b.rows && c in B.Apply(b, act).rows && B.Apply(b, act).rows[c] == b.rows[c]
  {
    hide AckRow, ReportRow, ExpireRow, SettleStep, Admits, LedgerConstraints, B.WireOk, B.AnswersOk, B.Kept;
    assert B.CallOk(b, k) && B.Locked(b, c);
    if act.Record? {
      InsertedIsNew(b.rows, b.calls[act.call].phase.flushed, act.commandId, NewRow(b.calls[act.call].request, act.correlationId, act.now)) by {
        assert B.CallOk(b, act.call);
      }
    } else if act.Prepare? {
      B.NotYetThere(b.rows, act.c, act.row);
    }
  }

  lemma BegunFlush(site: Site, net: Net, act: B.Action, at: int)
    requires B.Possible(net.board, act) && Allowed(site, net, act, at) && act.Begin?
    requires act.call in B.Apply(net.board, act).calls
    ensures B.Apply(net.board, act).rows == net.board.rows
    ensures FlushOk(site, net.board.rows, B.Apply(net.board, act).calls[act.call], at)
  {
  }

  lemma FlushesKept(site: Site, net: Net, act: B.Action, at: int)
    requires Inv(site, net) && B.Possible(net.board, act) && Allowed(site, net, act, at) && net.time <= at
    ensures FlushesOk(site, B.Apply(net.board, act), at)
  {
    hide B.Sound, B.Possible, Moves, RowsOk, LivesOk, Allowed;
    var b, b' := net.board, B.Apply(net.board, act);
    forall k | k in b'.calls
      ensures FlushOk(site, b'.rows, b'.calls[k], at)
    {
      if k in b.calls && b'.calls[k] == b.calls[k] {
        assert FlushOk(site, b.rows, b.calls[k], net.time);
        if b.calls[k].phase.Authorizing? && b.calls[k].phase.flushed.Some? {
          var f := b.calls[k].phase.flushed.value;
          LockedRowStays(b, act, k, f.commandId);
          if Local(site, b.rows[f.commandId]) {
            MovesLater(b.rows[f.commandId], f.row, net.time, at);
          }
        }
      } else {
        ChangedCall(b, act, k);
        if act.Begin? {
          BegunFlush(site, net, act, at);
        }
      }
    }
  }

  lemma ChangedCall(b: B.Board, act: B.Action, k: Id)
    requires B.Possible(b, act) && k in B.Apply(b, act).calls
    requires k !in b.calls || B.Apply(b, act).calls[k] != b.calls[k]
    ensures !B.Apply(b, act).calls[k].phase.Authorizing? || (act.Begin? && act.call == k)
  {
    hide AckRow, ReportRow, ExpireRow, SettleStep, Admits, LookedUp, B.Locked;
  }

  /** Rows enter the ledger under identifiers the relay has never seen. */
  lemma NewRowIsUnknown(site: Site, net: Net, act: B.Action, at: int, c: Id)
    requires B.Sound(net.board) && B.Possible(net.board, act) && Allowed(site, net, act, at)
    requires c in B.Apply(net.board, act).rows && c !in net.board.rows
    ensures forall l, i :: 0 <= l < |Lives(net)| && 0 <= i < |Lives(net)[l]| ==>
              && Lives(net)[l][i].command.commandId != c
              && Lives(net)[l][i].command.correlationId != B.Apply(net.board, act).rows[c].correlationId
    ensures var row := B.Apply(net.board, act).rows[c];
            Local(site, row) ==> row.ackStatus.None? && row.status.Queued? && row.dispatchStartedAt.Some?
  {
    hide AckRow, ReportRow, ExpireRow, SettleStep, Admits, B.Locked, LedgerConstraints, B.WireOk, B.AnswersOk, B.Kept;
    if act.Record? {
      assert B.CallOk(net.board, act.call);
    }
  }

  lemma CoreKeepsLife(site: Site, net: Net, act: B.Action, at: int, l: nat)
    requires Inv(site, net) && Possible(site, net, Core(act, at)) && l < |Lives(net)|
    ensures LifeOk(site, B.Apply(net.board, act).rows, Lives(net)[l])
  {
    hide B.Sound, B.Possible, B.Apply, FlushesOk, RowsOk, Allowed, ClockRuns;
    var ds, rows, rows' := Lives(net)[l], net.board.rows, B.Apply(net.board, act).rows;
    assert LifeOk(site, rows, ds);
    B.StepKeepsSound(net.board, act);
    forall i, c | 0 <= i < |ds| && ds[i].command.commandId !in rows' && c in rows'
      ensures rows'[c].correlationId != ds[i].command.correlationId
    {
      if c in rows {
        B.IdentityKept(rows, rows', c);
      } else {
        NewRowIsUnknown(site, net, act, at, c);
      }
    }
    forall i | 0 <= i < |ds| && ds[i].command.commandId in rows'
      ensures GenuineCopy(site, rows', ds[i].command)
    {
      var c := ds[i].command.commandId;
      if c in rows {
        assert GenuineCopy(site, rows, ds[i].command);
        RowsMove(site, net, act, at, c);
      } else {
        NewRowIsUnknown(site, net, act, at, c);
      }
    }
  }

  lemma CoreKeepsInv(site: Site, net: Net, act: B.Action, at: int)
    requires Inv(site, net) && Possible(site, net, Core(act, at))
    ensures Inv(site, Apply(site, net, Core(act, at)))
  {
    hide B.Sound, B.Possible, B.Apply, FlushesOk, EverExecuted, Allowed, LifeOk;
    var net' := Apply(site, net, Core(act, at));
    B.StepKeepsSound(net.board, act);
    FlushesKept(site, net, act, at);
    forall c | c in net'.board.rows && Local(site, net'.board.rows[c])
      ensures RowOk(net', c)
    {
      CoreKeepsRow(site, net, act, at, c);
    }
    forall l | 0 <= l < |Lives(net')|
      ensures LifeOk(site, net'.board.rows, Lives(net')[l])
    {
      CoreKeepsLife(site, net, act, at, l);
    }
  }

  lemma CoreKeepsRow(site: Site, net: Net, act: B.Action, at: int, c: Id)
    requires Inv(site, net) && Possible(site, net, Core(act, at))
    requires c in B.Apply(net.board, act).rows && Local(site, B.Apply(net.board, act).rows[c])
    ensures RowOk(Apply(site, net, Core(act, at)), c)
  {
    hide B.Sound, B.Apply, FlushesOk, EverExecuted, LivesOk, B.Possible, Acknowledged;
    if c in net.board.rows {
      B.StepKeepsSound(net.board, act);
      B.IdentityKept(net.board.rows, B.Apply(net.board, act).rows, c);
      assert Local(site, net.board.rows[c]) && RowOk(net, c);
      RowsMove(site, net, act, at, c);
      if AckedNow(act, c) {
        EverAcknowledgedMeansExecuted(Lives(net), c, net.board.rows[c].correlationId);
      }
    } else {
      NewRowIsUnknown(site, net, act, at, c);
    }
  }

  lemma DeliveredIsGenuine(site: Site, net: Net, command: Command)
    requires B.WireOk(net.board) && (OnWire(site, net.board.wire, command) || Stray(net.board.rows, command))
    ensures command.commandId in net.board.rows ==> GenuineCopy(site, net.board.rows, command)
    ensures command.commandId !in net.board.rows ==> forall c :: c in net.board.rows ==> net.board.rows[c].correlationId != command.correlationId
  {
  }

  /** A delivery or a restart of the relay: the ledger stays, executions are not undone. */
  lemma RelayKeepsRows(site: Site, net: Net, net': Net)
    requires Inv(site, net) && net'.board == net.board && net.time <= net'.time
    requires forall c :: EverExecuted(Lives(net), c) ==> EverExecuted(Lives(net'), c)
    ensures RowsOk(site, net') && FlushesOk(site, net'.board, net'.time)
  {
    hide B.Sound, EverExecuted, Moves, LivesOk;
    forall c | c in net'.board.rows && Local(site, net'.board.rows[c])
      ensures RowOk(net', c)
    {
      assert RowOk(net, c);
    }
    forall k | k in net.board.calls
      ensures FlushOk(site, net.board.rows, net.board.calls[k], net'.time)
    {
      assert FlushOk(site, net.board.rows, net.board.calls[k], net.time);
      if net.board.calls[k].phase.Authorizing? && net.board.calls[k].phase.flushed.Some? {
        var f := net.board.calls[k].phase.flushed.value;
        if Local(site, net.board.rows[f.commandId]) {
          MovesLater(net.board.rows[f.commandId], f.row, net.time, net'.time);
        }
      }
    }
  }

  lemma DeliveryRecorded(past: seq<seq<Delivery>>, ds: seq<Delivery>, d: Delivery, c: Id)
    requires EverExecuted(past + [ds], c)
    ensures EverExecuted(past + [ds + [d]], c)
  {
    hide ExecutedBefore;
    var l :| 0 <= l < |past + [ds]| && ExecutedBefore((past + [ds])[l], c);
    if l < |past| {
      assert (past + [ds + [d]])[l] == past[l];
    } else {
      ExecutedStays(ds, d, c);
      assert (past + [ds + [d]])[|past|] == ds + [d];
    }
  }

  lemma DeliveryKeepsInv(site: Site, net: Net, step: Step)
    requires Inv(site, net) && Possible(site, net, step) && step.Deliver?
    ensures Inv(site, Apply(site, net, step))
  {
    hide B.Sound, EverExecuted, OnWire, Stray, FlushesOk, RowsOk, GenuineCopy;
    var net', d := Apply(site, net, step), Delivery(step.relayTime, step.command);
    assert B.WireOk(net.board) by { WireOf(net.board); }
    DeliveredIsGenuine(site, net, step.command);
    forall c | EverExecuted(Lives(net), c)
      ensures EverExecuted(Lives(net'), c)
    {
      DeliveryRecorded(net.past, net.deliveries, d, c);
    }
    RelayKeepsRows(site, net, net');
    assert LifeOk(site, net.board.rows, Lives(net)[|net.past|]);
    forall l | 0 <= l < |Lives(net')|
      ensures LifeOk(site, net'.board.rows, Lives(net')[l])
    {
      assert l < |net.past| ==> Lives(net')[l] == Lives(net)[l];
    }
  }

  lemma RestartKeepsInv(site: Site, net: Net, step: Step)
    requires Inv(site, net) && Possible(site, net, step) && step.Restart?
    ensures Inv(site, Apply(site, net, step))
  {
    hide B.Sound, ExecutedBefore, FlushesOk, RowsOk, GenuineCopy;
    var net' := Apply(site, net, step);
    assert Lives(net') == Lives(net) + [[]];
    forall c | EverExecuted(Lives(net), c)
      ensures EverExecuted(Lives(net'), c)
    {
      var l :| 0 <= l < |Lives(net)| && ExecutedBefore(Lives(net)[l], c);
      assert Lives(net')[l] == Lives(net)[l];
    }
    RelayKeepsRows(site, net, net');
    forall l | 0 <= l < |Lives(net')|
      ensures LifeOk(site, net'.board.rows, Lives(net')[l])
    {
      assert l < |Lives(net)| ==> LifeOk(site, net.board.rows, Lives(net)[l]);
    }
  }

  lemma WireOf(b: B.Board)
    requires B.Sound(b)
    ensures B.WireOk(b)
  {
  }

  lemma {:induction false} RunKeepsInv(site: Site, trace: seq<Net>, steps: seq<Step>, t: nat)
    requires Follows(site, trace, steps) && t < |trace|
    ensures Inv(site, trace[t])
  {
    hide Inv, Possible, Apply;
    if t == 0 {
      StartHolds(site, trace[0].time);
    } else {
      RunKeepsInv(site, trace, steps, t - 1);
      match steps[t - 1] {
        case Core(act, at) => CoreKeepsInv(site, trace[t - 1], act, at);
        case Deliver(_, _, _) => DeliveryKeepsInv(site, trace[t - 1], steps[t - 1]);
        case Restart(_) => RestartKeepsInv(site, trace[t - 1], steps[t - 1]);
      }
    }
  }

  lemma StartHolds(site: Site, time: int)
    ensures Inv(site, Start(time))
  {
  }

  // ----- the theorems -----

  /** A command that the ledger calls applied was executed in some lifetime of the
      relay, with the requested value and before its deadline on the relay's clock,
      and exactly once in that lifetime; so exactly once if the relay never restarted. */
  lemma AppliedMeansExecutedOnce(site: Site, trace: seq<Net>, steps: seq<Step>, t: nat, c: Id) returns (l: nat, i: nat)
    requires Follows(site, trace, steps) && t < |trace|
    requires c in trace[t].board.rows && Local(site, trace[t].board.rows[c]) && trace[t].board.rows[c].status.Applied?
    ensures l < |Lives(trace[t])|
    ensures var ds, row := Lives(trace[t])[l], trace[t].board.rows[c];
            && i < |ds| && ds[i].command.commandId == c && ExecutesAt(ds, i)
            && ds[i].now < row.expiresAt
            && Run(ds[..i + 1]).on == row.requestedOn
            && forall j :: 0 <= j < |ds| && ds[j].command.commandId == c && ExecutesAt(ds, j) ==> j == i
  {
    hide Follows, ExecutesAt, Run, HandleStep, B.Sound, FlushesOk;
    RunKeepsInv(site, trace, steps, t);
    assert RowOk(trace[t], c);
    l :| 0 <= l < |Lives(trace[t])| && ExecutedBefore(Lives(trace[t])[l], c);
    i := ExecutedOnceInLife(site, trace[t].board.rows, Lives(trace[t])[l], c);
  }

  lemma ExecutedOnceInLife(site: Site, rows: map<Id, CommandRow>, ds: seq<Delivery>, c: Id) returns (i: nat)
    requires c in rows && LifeOk(site, rows, ds) && ExecutedBefore(ds, c)
    ensures i < |ds| && ds[i].command.commandId == c && ExecutesAt(ds, i)
    ensures ds[i].now < rows[c].expiresAt && Run(ds[..i + 1]).on == rows[c].requestedOn
    ensures forall j :: 0 <= j < |ds| && ds[j].command.commandId == c && ExecutesAt(ds, j) ==> j == i
  {
    hide ExecutesAt, Run, HandleStep;
    i :| 0 <= i < |ds| && ds[i].command.commandId == c && ExecutesAt(ds, i);
    assert GenuineCopy(site, rows, ds[i].command);
    ExecutionSets(ds, i);
    forall j | 0 <= j < |ds| && ds[j].command.commandId == c && ExecutesAt(ds, j)
      ensures j == i
    {
      assert GenuineCopy(site, rows, ds[j].command);
      ExecutedAtMostOnce(ds, i, j);
    }
  }

  lemma ExecutionSets(ds: seq<Delivery>, i: nat)
    requires i < |ds| && ExecutesAt(ds, i)
    ensures ds[i].command.state.OnlyOn? && ds[i].command.state.value.Bool?
    ensures Run(ds[..i + 1]).on == ds[i].command.state.value.b
    ensures ds[i].command.expiresAt.Some? ==> ds[i].command.expiresAt.value.Aware? && ds[i].now < ds[i].command.expiresAt.value.us
  {
    assert ds[..i + 1][..i] == ds[..i];
  }

  /** The ledger says timed out only once the core's clock has reached the deadline,
      and whatever the relay still executes then, restarted or not, happens within the
      clock skew of it. */
  lemma TimedOutMeansOver(site: Site, trace: seq<Net>, steps: seq<Step>, t: nat, u: nat, c: Id)
    requires Follows(site, trace, steps) && t <= u < |steps|
    requires c in trace[t].board.rows && Local(site, trace[t].board.rows[c]) && trace[t].board.rows[c].status.TimedOut?
    requires steps[u].Deliver? && steps[u].command.commandId == c
    requires Executes(Run(trace[u].deliveries), steps[u].relayTime, steps[u].command)
    ensures trace[t].board.rows[c].expiresAt <= trace[t].time <= steps[u].at < trace[t].board.rows[c].expiresAt + site.skew
  {
    hide Run, B.Sound, FlushesOk, LivesOk;
    RunKeepsInv(site, trace, steps, t);
    RunKeepsInv(site, trace, steps, u);
    LaterNet(site, trace, steps, t, u, c);
    assert RowOk(trace[t], c);
    assert Possible(site, trace[u], steps[u]);
    assert B.WireOk(trace[u].board) by { WireOf(trace[u].board); }
    DeliveredIsGenuine(site, trace[u], steps[u].command);
  }

  lemma {:induction false} LaterNet(site: Site, trace: seq<Net>, steps: seq<Step>, t: nat, u: nat, c: Id)
    requires Follows(site, trace, steps) && t <= u < |trace| && c in trace[t].board.rows
    ensures trace[t].time <= trace[u].time
    ensures c in trace[u].board.rows && trace[u].board.rows[c].expiresAt == trace[t].board.rows[c].expiresAt
    decreases u - t
  {
    hide B.Sound, B.Possible, B.Apply, FlushesOk, RowsOk, LivesOk, Allowed, OnWire, Stray;
    if t < u {
      LaterNet(site, trace, steps, t, u - 1, c);
      RunKeepsInv(site, trace, steps, u - 1);
      assert Possible(site, trace[u - 1], steps[u - 1]);
      if steps[u - 1].Core? {
        B.StepKeepsSound(trace[u - 1].board, steps[u - 1].act);
        B.IdentityKept(trace[u - 1].board.rows, trace[u].board.rows, c);
      }
    }
  }

  const HERE := Site(1, 2, 0)
  const ASKED := Request(1, 2, 3, 4, true)
  const SENT := B.MessageFor(ASKED, 10, 20, 0)

  lemma GivenUp() returns (trace: seq<Net>, steps: seq<Step>)
    ensures Follows(HERE, trace, steps) && |steps| == 4
    ensures var net := trace[3];
            && net.past == [] && net.deliveries == [] && net.time == 1 && net.board.wire == [B.Publication(SENT, 1)]
            && net.board.rows == map[10 := NewRow(ASKED, 20, 0)] && net.board.calls == map[7 := B.Call(ASKED, B.Publishing(SENT, true))]
    ensures trace[4].past == [] && trace[4].deliveries == [] && trace[4].time == 2 && trace[4].board.wire == [B.Publication(SENT, 1)]
    ensures var rows := trace[4].board.rows;
            && 10 in rows && Local(HERE, rows[10])
            && rows[10].status == Failed && rows[10].failureCode == Some(PublishUnconfirmed)
  {
    var q, t := ASKED, Stamps(2, 2, 2, 2, 2, 2);
    var n0, s0 := Start(0), Core(B.Begin(7, q, None, None, Gate(Done(()), Done(()), true, true), Calendar(0), 0), 0);
    var n1 := n0.(board := B.EMPTY.(calls := map[7 := B.Call(q, B.Authorizing(None))]));
    assert Apply(HERE, n0, s0) == n1;
    var s1, row := Core(B.Record(7, 10, 20, 0), 0), NewRow(q, 20, 0);
    var n2 := n1.(board := B.Board(map[10 := row], map[7 := B.Call(q, B.Publishing(SENT, false))], [], []));
    assert Apply(HERE, n1, s1) == n2;
    var s2, s3 := Core(B.Emit(7, 1), 1), Core(B.Settle(7, false, Calendar(2), t), 2);
    var n3 := n2.(board := B.Board(map[10 := row], map[7 := B.Call(q, B.Publishing(SENT, true))], [B.Publication(SENT, 1)], []), time := 1);
    assert Apply(HERE, n2, s2) == n3;
    trace, steps := [n0, n1, n2, n3, Apply(HERE, n3, s3)], [s0, s1, s2, s3];
  }

  /** No such theorem holds for failed commands: a publication that was given up as
      unconfirmed can still arrive, and is then executed. */
  lemma FailedMayStillBeExecuted() returns (trace: seq<Net>, steps: seq<Step>)
    ensures Follows(HERE, trace, steps) && |steps| == 5
    ensures var net := trace[5];
            && 10 in net.board.rows && Local(HERE, net.board.rows[10])
            && net.board.rows[10].status == Failed && net.board.rows[10].failureCode == Some(PublishUnconfirmed)
            && net.board.wire == [B.Publication(SENT, 1)] && net.time == 3 && net.past == []
            && |net.deliveries| == 1 && net.deliveries[0].command == CommandFor(SENT) && ExecutesAt(net.deliveries, 0)
  {
    hide B.Possible, B.Apply, Allowed;
    trace, steps := GivenUp();
    var net, arrives := trace[4], Deliver(3, 3, CommandFor(SENT));
    assert net.board.wire[0] == B.Publication(SENT, 1) && OnWire(HERE, net.board.wire, CommandFor(SENT));
    var net' := Apply(HERE, net, arrives);
    trace, steps := trace + [net'], steps + [arrives];
    assert net'.deliveries[..0] == [];
    assert Executes(Run([]), 3, CommandFor(SENT));
  }

  /** Nor does "exactly once" survive a restart: the relay forgets, the network repeats. */
  lemma RestartMayExecuteAgain() returns (trace: seq<Net>, steps: seq<Step>)
    ensures Follows(HERE, trace, steps) && |steps| == 7
    ensures var lives := Lives(trace[7]);
            && |lives| == 2 && (forall l :: 0 <= l < 2 ==> |lives[l]| == 1 && lives[l][0].command == CommandFor(SENT) && ExecutesAt(lives[l], 0))
  {
    hide B.Possible, B.Apply, Allowed;
    trace, steps := FailedMayStillBeExecuted();
    var net, again := trace[5], Deliver(5, 5, CommandFor(SENT));
    var net1 := Apply(HERE, net, Restart(4));
    assert net1.board.wire[0] == B.Publication(SENT, 1) && OnWire(HERE, net1.board.wire, CommandFor(SENT));
    var net2 := Apply(HERE, net1, again);
    trace, steps := trace + [net1, net2], steps + [Restart(4), again];
    assert net2.deliveries[..0] == [];
    assert Executes(Run([]), 5, CommandFor(SENT));
    assert Lives(net2)[0] == net.deliveries && Lives(net2)[1] == net2.deliveries;
  }
}
