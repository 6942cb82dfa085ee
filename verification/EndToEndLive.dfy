/** The positive counterpart of EndToEnd: what a relay executes and the core hears of
    ends as applied, whatever else happens in between. */
module EndToEndLive {
  import opened Common
  import opened CommandRecords
  import opened CommandLedger
  import opened Submissions
  import B = SubmissionRuns
  import opened R = Relay
  import opened EndToEnd

  // ----- what the relay tells the core -----

  /** A report under the correlation of a row is the requested value. */
  lemma ReportIsRequested(site: Site, net: Net, c: Id, on: bool)
    requires Inv(site, net) && c in net.board.rows && EverReported(Lives(net), net.board.rows[c].correlationId, on)
    ensures on == net.board.rows[c].requestedOn && EverExecuted(Lives(net), c)
  {
    hide B.CallOk, B.WireOk, B.AnswersOk, FlushesOk, RowsOk, SentAt, Run;
    var rows := net.board.rows;
    var l :| 0 <= l < |Lives(net)| && Reported(Lives(net)[l], rows[c].correlationId, on);
    var ds := Lives(net)[l];
    var i :| 0 <= i < |ds| && StateMessage(rows[c].correlationId, on) in SentAt(ds, i);
    ReportedExactlyWhen(ds, i, rows[c].correlationId, on);
    assert LifeOk(site, rows, ds);
    var d := ds[i].command.commandId;
    assert d in rows;
    assert GenuineCopy(site, rows, ds[i].command);
    assert Clash(rows[d], rows[c]);
    assert d == c;
    assert ExecutedBefore(ds, c);
  }

  /** Once executed, the command can be acknowledged and its state reported. */
  lemma ExecutedIsHeard(site: Site, net: Net, c: Id)
    requires Inv(site, net) && c in net.board.rows && EverExecuted(Lives(net), c)
    ensures EverAcknowledged(Lives(net), c, net.board.rows[c].correlationId, AckApplied)
    ensures EverReported(Lives(net), net.board.rows[c].correlationId, net.board.rows[c].requestedOn)
  {
    hide B.Sound, FlushesOk, RowsOk, SentAt, Run, ExecutesAt;
    var rows := net.board.rows;
    var l :| 0 <= l < |Lives(net)| && ExecutedBefore(Lives(net)[l], c);
    var ds := Lives(net)[l];
    var i :| 0 <= i < |ds| && ds[i].command.commandId == c && ExecutesAt(ds, i);
    assert LifeOk(site, rows, ds);
    assert GenuineCopy(site, rows, ds[i].command);
    ExecutionIsReported(ds, i);
    var ack := Ack(c, rows[c].correlationId, ds[i].now, None);
    assert SentAt(ds, i)[0] == AckMessage(ack) && AckMessage(ack) in SentAt(ds, i) && StatusOf(ack) == AckApplied;
    assert SentAt(ds, i)[1] == StateMessage(rows[c].correlationId, rows[c].requestedOn);
    assert Acknowledged(ds, c, rows[c].correlationId, AckApplied);
    assert Reported(ds, rows[c].correlationId, rows[c].requestedOn);
  }

  // ----- what the core makes of it -----

  predicate HasAck(row: CommandRow) {
    row.ackStatus == Some(AckApplied)
  }

  predicate HasReport(row: CommandRow) {
    row.reportedOn == Some(row.requestedOn) && row.stateReceivedAt.Some?
  }

  /** A row that is still open was open before and has forgotten no proof. */
  predicate Sticks(row: CommandRow, row': CommandRow) {
    Pending(row'.status) ==>
      && Pending(row.status) && row'.requestedOn == row.requestedOn && row'.expiresAt == row.expiresAt
      && (HasAck(row) ==> HasAck(row')) && (HasReport(row) ==> HasReport(row'))
  }

  lemma EvidenceSticks(row: CommandRow, act: B.Action)
    requires act.Report? && !act.retained && act.reported.Some? ==> act.reported.value == row.requestedOn
    ensures match act
            case Ack(_, status, retained, j, bound, t) => Sticks(row, AckRow(row, status, retained, Expired(row, j), bound, t))
            case Report(_, on, retained, j, bound, t) => Sticks(row, ReportRow(row, on, retained, Expired(row, j), bound, t))
            case Read(_, j, when) => Sticks(row, ExpireRow(row, Expired(row, j), when))
            case Settle(_, published, j, t) => Sticks(row, SettleStep(row, published, j, t))
            case Return(_, j, when) => Sticks(row, ExpireRow(row, Expired(row, j), when))
            case _ => true
  {
  }

  lemma SticksToItself(row: CommandRow)
    ensures Sticks(row, row)
  {
  }

  lemma RowSticks(site: Site, net: Net, act: B.Action, at: int, c: Id)
    requires Inv(site, net) && Possible(site, net, Core(act, at)) && c in net.board.rows && Local(site, net.board.rows[c])
    ensures c in B.Apply(net.board, act).rows && Sticks(net.board.rows[c], B.Apply(net.board, act).rows[c])
  {
    hide Sticks, AckRow, ReportRow, ExpireRow, SettleStep, B.Locked, Admits, B.WireOk, B.AnswersOk, LedgerConstraints, RowsOk, LivesOk, FlushesOk;
    var row := net.board.rows[c];
    SticksToItself(row);
    match act {
      case Begin(_, q, previous, pending, gate, j, when) =>
        if previous == Some(c) {
          EvidenceSticks(row, B.Read(c, j, when));
        }
      case Record(k, d, _, _) => FlushSticks(site, net, act, at, c);
      case Settle(_, _, _, _) => EvidenceSticks(row, act);
      case Return(_, _, _) => EvidenceSticks(row, act);
      case Ack(d, _, _, _, _, _) => if d == c { EvidenceSticks(row, act); }
      case Report(d, on, retained, _, _, _) =>
        if d == c {
          if !retained && on.Some? {
            ReportIsRequested(site, net, c, on.value);
          }
          EvidenceSticks(row, act);
        }
      case Read(d, _, _) => if d == c { EvidenceSticks(row, act); }
      case Emit(_, _) =>
      case Abandon(_) =>
      case Prepare(d, r) => B.NotYetThere(net.board.rows, d, r);
      case Stage(_, _) =>
    }
  }

  lemma FlushSticks(site: Site, net: Net, act: B.Action, at: int, c: Id)
    requires Inv(site, net) && Possible(site, net, Core(act, at)) && c in net.board.rows && act.Record?
    ensures c in B.Apply(net.board, act).rows && Sticks(net.board.rows[c], B.Apply(net.board, act).rows[c])
  {
    hide B.WireOk, B.AnswersOk, LedgerConstraints, RowsOk, LivesOk, FlushesOk, Allowed;
    assert B.CallOk(net.board, act.call);
    var call := net.board.calls[act.call];
    InsertedIsNew(net.board.rows, call.phase.flushed, act.commandId, NewRow(call.request, act.correlationId, act.now));
  }

  lemma StepSticks(site: Site, net: Net, step: Step, c: Id)
    requires Inv(site, net) && Possible(site, net, step) && c in net.board.rows && Local(site, net.board.rows[c])
    ensures var rows' := Apply(site, net, step).board.rows;
            c in rows' && Local(site, rows'[c]) && Sticks(net.board.rows[c], rows'[c])
  {
    hide Inv, Sticks, B.Apply, B.Possible, Allowed;
    if step.Core? {
      RowSticks(site, net, step.act, step.at, c);
      SoundBoard(site, net);
      B.StepKeepsSound(net.board, step.act);
      B.IdentityKept(net.board.rows, B.Apply(net.board, step.act).rows, c);
    } else {
      SticksToItself(net.board.rows[c]);
    }
  }

  lemma SoundBoard(site: Site, net: Net)
    requires Inv(site, net)
    ensures B.Sound(net.board)
  {
  }

  lemma {:induction false} RunSticks(site: Site, trace: seq<Net>, steps: seq<Step>, i: nat, j: nat, c: Id)
    requires Follows(site, trace, steps) && i <= j < |trace| && c in trace[i].board.rows && Local(site, trace[i].board.rows[c])
    ensures c in trace[j].board.rows && Local(site, trace[j].board.rows[c])
    ensures Sticks(trace[i].board.rows[c], trace[j].board.rows[c])
    decreases j
  {
    hide Inv, Possible, Apply;
    if i < j {
      RunSticks(site, trace, steps, i, j - 1, c);
      RunKeepsInv(site, trace, steps, j - 1);
      StepSticks(site, trace[j - 1], steps[j - 1], c);
    }
  }

  /** Applied rows stay applied. */
  lemma {:induction false} AppliedStays(site: Site, trace: seq<Net>, steps: seq<Step>, i: nat, j: nat, c: Id)
    requires Follows(site, trace, steps) && i <= j < |trace| && c in trace[i].board.rows && trace[i].board.rows[c].status.Applied?
    ensures c in trace[j].board.rows && trace[j].board.rows[c] == trace[i].board.rows[c]
    decreases j
  {
    hide Inv, B.Sound, B.Possible, B.Apply, Allowed;
    if i < j {
      AppliedStays(site, trace, steps, i, j - 1, c);
      RunKeepsInv(site, trace, steps, j - 1);
      SoundBoard(site, trace[j - 1]);
      if steps[j - 1].Core? {
        B.StepKeepsSound(trace[j - 1].board, steps[j - 1].act);
      }
    }
  }

  // ----- evidence in time -----

  /** A live acknowledgement that the command was applied, judged before the deadline. */
  predicate TimelyAck(row: CommandRow, step: Step, c: Id) {
    && step.Core? && step.act.Ack? && step.act.c == c && step.act.status == AckApplied && !step.act.retained
    && step.act.j.Calendar? && step.act.j.now < row.expiresAt
  }

  /** A live report of a boolean state, judged before the deadline. */
  predicate TimelyReport(row: CommandRow, step: Step, c: Id) {
    && step.Core? && step.act.Report? && step.act.c == c && step.act.reported.Some? && !step.act.retained
    && step.act.j.Calendar? && step.act.j.now < row.expiresAt
  }

  lemma AckCounts(row: CommandRow, j: Judgement, t: Stamps)
    requires Pending(row.status) && row.dispatchStartedAt.Some? && Unproven(row) && j.Calendar? && j.now < row.expiresAt
    ensures var row' := AckRow(row, AckApplied, false, Expired(row, j), true, t);
            && (HasReport(row) ==> row'.status.Applied?) && (Pending(row'.status) ==> HasAck(row'))
  {
  }

  lemma ReportCounts(row: CommandRow, j: Judgement, t: Stamps)
    requires Pending(row.status) && row.dispatchStartedAt.Some? && Unproven(row) && j.Calendar? && j.now < row.expiresAt
    ensures var row' := ReportRow(row, Some(row.requestedOn), false, Expired(row, j), true, t);
            && (HasAck(row) ==> row'.status.Applied?) && (Pending(row'.status) ==> HasReport(row'))
  {
  }

  lemma AckTaken(site: Site, net: Net, step: Step, c: Id)
    requires Inv(site, net) && Possible(site, net, step) && c in net.board.rows && Local(site, net.board.rows[c])
    requires Pending(net.board.rows[c].status) && TimelyAck(net.board.rows[c], step, c)
    ensures var row, rows' := net.board.rows[c], Apply(site, net, step).board.rows;
            c in rows' && (HasReport(row) ==> rows'[c].status.Applied?) && (Pending(rows'[c].status) ==> HasAck(rows'[c]))
  {
    hide B.Sound, FlushesOk, LivesOk, EverExecuted, AckRow, B.Locked;
    assert RowOk(net, c);
    AckCounts(net.board.rows[c], step.act.j, step.act.t);
  }

  lemma ReportTaken(site: Site, net: Net, step: Step, c: Id)
    requires Inv(site, net) && Possible(site, net, step) && c in net.board.rows && Local(site, net.board.rows[c])
    requires Pending(net.board.rows[c].status) && TimelyReport(net.board.rows[c], step, c)
    ensures var row, rows' := net.board.rows[c], Apply(site, net, step).board.rows;
            c in rows' && (HasAck(row) ==> rows'[c].status.Applied?) && (Pending(rows'[c].status) ==> HasReport(rows'[c]))
  {
    hide B.Sound, FlushesOk, LivesOk, EverExecuted, ReportRow, B.Locked;
    assert RowOk(net, c);
    ReportIsRequested(site, net, c, step.act.reported.value);
    ReportCounts(net.board.rows[c], step.act.j, step.act.t);
  }

  /** If the acknowledgement and the report of a relay reach the core in time, in any
      order and with anything in between, and the command was not decided before the
      second of them, it is applied from then on. */
  lemma HeardMeansApplied(site: Site, trace: seq<Net>, steps: seq<Step>, a: nat, r: nat, t: nat, c: Id)
    requires Follows(site, trace, steps) && a < t < |trace| && r < t && c in trace[a].board.rows && c in trace[r].board.rows
    requires Local(site, trace[a].board.rows[c]) && Local(site, trace[r].board.rows[c])
    requires TimelyAck(trace[a].board.rows[c], steps[a], c) && TimelyReport(trace[r].board.rows[c], steps[r], c)
    requires Pending(trace[if a < r then r else a].board.rows[c].status)
    ensures c in trace[t].board.rows && trace[t].board.rows[c].status.Applied?
  {
    hide Inv, Possible, Apply, Sticks, TimelyAck, TimelyReport;
    assert a != r by { AckIsNoReport(trace[a].board.rows[c], steps[a], c); }
    RunKeepsInv(site, trace, steps, a);
    RunKeepsInv(site, trace, steps, r);
    if a < r {
      RunSticks(site, trace, steps, a, r, c);
      RunSticks(site, trace, steps, a + 1, r, c) by { StepSticks(site, trace[a], steps[a], c); }
      SticksMeans(trace[a].board.rows[c], trace[r].board.rows[c]);
      AckTaken(site, trace[a], steps[a], c);
      SticksMeans(trace[a + 1].board.rows[c], trace[r].board.rows[c]);
      ReportTaken(site, trace[r], steps[r], c);
      AppliedStays(site, trace, steps, r + 1, t, c);
    } else {
      RunSticks(site, trace, steps, r, a, c);
      RunSticks(site, trace, steps, r + 1, a, c) by { StepSticks(site, trace[r], steps[r], c); }
      SticksMeans(trace[r].board.rows[c], trace[a].board.rows[c]);
      ReportTaken(site, trace[r], steps[r], c);
      SticksMeans(trace[r + 1].board.rows[c], trace[a].board.rows[c]);
      AckTaken(site, trace[a], steps[a], c);
      AppliedStays(site, trace, steps, a + 1, t, c);
    }
  }

  lemma AckIsNoReport(row: CommandRow, step: Step, c: Id)
    requires TimelyAck(row, step, c)
    ensures forall row': CommandRow :: !TimelyReport(row', step, c)
  {
  }

  lemma SticksMeans(row: CommandRow, row': CommandRow)
    requires Sticks(row, row') && Pending(row'.status)
    ensures Pending(row.status) && (HasAck(row) ==> HasAck(row')) && (HasReport(row) ==> HasReport(row'))
  {
  }

  // ----- and it can always happen -----

  function AckStep(c: Id, at: int, t: Stamps): Step {
    Core(B.Ack(c, AckApplied, false, Calendar(at), true, t), at)
  }

  function ReportStep(c: Id, on: bool, at: int, t: Stamps): Step {
    Core(B.Report(c, Some(on), false, Calendar(at), true, t), at)
  }

  /** From every reachable state in which an open command was executed and its deadline
      lies ahead, two messages of the relay, in either order, make it applied. */
  lemma ExecutedCanBeApplied(site: Site, net: Net, c: Id, at: int, t: Stamps, ackFirst: bool) returns (first: Step, second: Step)
    requires Inv(site, net) && c in net.board.rows && Local(site, net.board.rows[c]) && EverExecuted(Lives(net), c)
    requires Pending(net.board.rows[c].status) && !B.Locked(net.board, c) && net.time <= at < net.board.rows[c].expiresAt
    ensures first == if ackFirst then AckStep(c, at, t) else ReportStep(c, net.board.rows[c].requestedOn, at, t)
    ensures second == if ackFirst then ReportStep(c, net.board.rows[c].requestedOn, at, t) else AckStep(c, at, t)
    ensures Possible(site, net, first) && Possible(site, Apply(site, net, first), second)
    ensures var rows := Apply(site, Apply(site, net, first), second).board.rows; c in rows && rows[c].status.Applied?
  {
    hide B.Sound, FlushesOk, LivesOk, EverExecuted, EverAcknowledged, EverReported, AckRow, ReportRow, Clash;
    var row, ack, report := net.board.rows[c], AckStep(c, at, t), ReportStep(c, net.board.rows[c].requestedOn, at, t);
    ExecutedIsHeard(site, net, c);
    first, second := if ackFirst then ack else report, if ackFirst then report else ack;
    var net1 := Apply(site, net, first);
    assert RowOk(net, c);
    assert forall x :: B.Locked(net1.board, x) <==> B.Locked(net.board, x);
    AckCounts(row, Calendar(at), t);
    ReportCounts(row, Calendar(at), t);
    RowAlreadyProven(row, at, t);
  }

  /** The two observations of one row, one after the other. */
  lemma RowAlreadyProven(row: CommandRow, at: int, t: Stamps)
    requires Pending(row.status) && row.dispatchStartedAt.Some? && Unproven(row) && at < row.expiresAt
    ensures var j, on := Calendar(at), Some(row.requestedOn);
            var acked := AckRow(row, AckApplied, false, Expired(row, j), true, t);
            var reported := ReportRow(row, on, false, Expired(row, j), true, t);
            && acked.requestedOn == row.requestedOn && acked.correlationId == row.correlationId
            && reported.correlationId == row.correlationId && acked.houseId == reported.houseId == row.houseId
            && acked.deviceId == reported.deviceId == row.deviceId
            && ReportRow(acked, on, false, Expired(acked, j), true, t).status.Applied?
            && AckRow(reported, AckApplied, false, Expired(reported, j), true, t).status.Applied?
  {
  }

  /** From a switched-on relay and an empty ledger: submitted, published, executed,
      acknowledged, reported, applied. */
  lemma CommandIsAccomplished() returns (trace: seq<Net>, steps: seq<Step>)
    ensures Follows(HERE, trace, steps) && |steps| == 6
    ensures 10 in trace[6].board.rows && trace[6].board.rows[10].status.Applied? && Run(trace[6].deliveries).on
  {
    hide B.Possible, B.Apply, Allowed, Inv;
    trace, steps := GivenUp();
    trace, steps := trace[..4], steps[..3];
    var net, arrives := trace[3], Deliver(2, 2, CommandFor(SENT));
    assert net.board.wire[0] == B.Publication(SENT, 1) && OnWire(HERE, net.board.wire, CommandFor(SENT));
    var net' := Apply(HERE, net, arrives);
    trace, steps := trace + [net'], steps + [arrives];
    assert net'.deliveries[..0] == [] && Executes(Run([]), 2, CommandFor(SENT));
    assert ExecutesAt(net'.deliveries, 0) && Lives(net')[0] == net'.deliveries;
    assert ExecutedBefore(net'.deliveries, 10);
    assert EverExecuted(Lives(net'), 10);
    RunKeepsInv(HERE, trace, steps, 4);
    var ack, report := ExecutedCanBeApplied(HERE, net', 10, 3, Stamps(3, 3, 3, 3, 3, 3), true);
    var net1 := Apply(HERE, net', ack);
    trace, steps := trace + [net1, Apply(HERE, net1, report)], steps + [ack, report];
  }
}
