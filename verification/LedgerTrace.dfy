/** An independent reading of the ledger: which verdict a whole history of
    evidence about one command leads to. */
module LedgerTrace {
  import opened Common
  import opened CommandRecords
  import opened CommandLedger

  /** Everything that can reach one row. `expired` is the answer of the deadline
      test at that moment, `bound` whether a permit binding is stored (or not needed).
      Here both are free for each piece of evidence; LedgerRuns and EndToEnd tie them
      to the stored binding and to one deadline. */
  datatype Evidence =
    | Ack(status: AckStatus, retained: bool, expired: bool, bound: bool, t: Stamps)
    | Report(on: Option<bool>, retained: bool, expired: bool, bound: bool, t: Stamps)
    | Published(expired: bool, t: Stamps)
    | PublishFailed(expired: bool, t: Stamps)
    | Read(expired: bool, t: Stamps)
    | Stage(at: int)

  function Observe(row: CommandRow, e: Evidence): CommandRow {
    match e
    case Ack(status, retained, expired, bound, t) => AckRow(row, status, retained, expired, bound, t)
    case Report(on, retained, expired, bound, t) => ReportRow(row, on, retained, expired, bound, t)
    case Published(expired, t) => PublishedRow(row, expired, t)
    case PublishFailed(expired, t) => PublishFailedRow(row, expired, t)
    case Read(expired, t) => ExpireRow(row, expired, t.expire)
    case Stage(at) => if Pending(row.status) && row.dispatchStartedAt.None? then row.(dispatchStartedAt := Some(at)) else row
  }

  function Final(row: CommandRow, evidence: seq<Evidence>): CommandRow {
    if evidence == [] then row
    else Observe(Final(row, evidence[..|evidence| - 1]), evidence[|evidence| - 1])
  }

  // ----- the specification, without any row -----

  /** The command was handed to the network before the i-th piece of evidence. */
  ghost predicate Sent(sentAlready: bool, evidence: seq<Evidence>, i: nat)
    requires i <= |evidence|
  {
    sentAlready || exists j :: 0 <= j < i && evidence[j].Stage?
  }

  predicate Late(e: Evidence) {
    !e.Stage? && e.expired
  }

  /** Live, in time, after dispatch, and backed by a permit where one is needed. */
  ghost predicate Admissible(sentAlready: bool, evidence: seq<Evidence>, i: nat)
    requires i < |evidence|
  {
    var e := evidence[i];
    && Sent(sentAlready, evidence, i) && !Late(e)
    && ((e.Ack? && !e.retained && (e.status.AckApplied? ==> e.bound))
        || (e.Report? && !e.retained && e.bound && e.on.Some?))
  }

  /** The evidence that ends a command without success. */
  ghost predicate Fatal(sentAlready: bool, evidence: seq<Evidence>, i: nat)
    requires i < |evidence|
  {
    || Late(evidence[i])
    || (evidence[i].Ack? && Negative(evidence[i].status) && Admissible(sentAlready, evidence, i))
    || evidence[i].PublishFailed?
  }

  ghost predicate AppliedAckBefore(sentAlready: bool, evidence: seq<Evidence>, k: nat)
    requires k <= |evidence|
  {
    exists i :: 0 <= i < k && evidence[i].Ack? && evidence[i].status.AckApplied? && Admissible(sentAlready, evidence, i)
  }

  /** The last admissible boolean report before position k. */
  ghost function LatestReport(sentAlready: bool, evidence: seq<Evidence>, k: nat): Option<bool>
    requires k <= |evidence|
  {
    if k == 0 then None
    else if evidence[k - 1].Report? && Admissible(sentAlready, evidence, k - 1) then evidence[k - 1].on
    else LatestReport(sentAlready, evidence, k - 1)
  }

  /** Both proofs of completion are in: an applied ACK, and the requested state as the latest report. */
  ghost predicate Proven(sentAlready: bool, on: bool, evidence: seq<Evidence>, k: nat)
    requires k <= |evidence|
  {
    AppliedAckBefore(sentAlready, evidence, k) && LatestReport(sentAlready, evidence, k) == Some(on)
  }

  ghost predicate NothingFatalBefore(sentAlready: bool, evidence: seq<Evidence>, k: nat)
    requires k <= |evidence|
  {
    forall i :: 0 <= i < k ==> !Fatal(sentAlready, evidence, i)
  }

  /** Nothing has decided the command before position k. */
  ghost predicate OpenAt(sentAlready: bool, on: bool, evidence: seq<Evidence>, k: nat)
    requires k <= |evidence|
  {
    NothingFatalBefore(sentAlready, evidence, k) && forall j :: 0 <= j <= k ==> !Proven(sentAlready, on, evidence, j)
  }

  ghost predicate SpecApplied(sentAlready: bool, on: bool, evidence: seq<Evidence>) {
    exists k :: 0 <= k <= |evidence| && Proven(sentAlready, on, evidence, k) && NothingFatalBefore(sentAlready, evidence, k)
  }

  ghost predicate SpecTimedOut(sentAlready: bool, on: bool, evidence: seq<Evidence>) {
    exists i :: 0 <= i < |evidence| && Late(evidence[i]) && OpenAt(sentAlready, on, evidence, i)
  }

  ghost predicate SpecFailed(sentAlready: bool, on: bool, evidence: seq<Evidence>) {
    exists i :: 0 <= i < |evidence| && !Late(evidence[i]) && Fatal(sentAlready, evidence, i) && OpenAt(sentAlready, on, evidence, i)
  }

  // ----- what a reader sees besides the verdict -----

  /** The evidence shows that the command is on its way: published, or acknowledged. */
  ghost predicate Dispatching(sentAlready: bool, evidence: seq<Evidence>, i: nat)
    requires i < |evidence|
  {
    && !Late(evidence[i])
    && (evidence[i].Published? || (evidence[i].Ack? && !Negative(evidence[i].status) && Admissible(sentAlready, evidence, i)))
  }

  /** The stamp of the first such piece before position k. */
  ghost function DispatchStamp(sentAlready: bool, evidence: seq<Evidence>, k: nat): Option<int>
    requires k <= |evidence|
  {
    if k == 0 then None
    else if DispatchStamp(sentAlready, evidence, k - 1).Some? then DispatchStamp(sentAlready, evidence, k - 1)
    else if Dispatching(sentAlready, evidence, k - 1) then Some(evidence[k - 1].t.dispatch)
    else None
  }

  /** When the latest admissible boolean report before position k came. */
  ghost function ReportStamp(sentAlready: bool, evidence: seq<Evidence>, k: nat): Option<int>
    requires k <= |evidence|
  {
    if k == 0 then None
    else if evidence[k - 1].Report? && Admissible(sentAlready, evidence, k - 1) then Some(evidence[k - 1].t.report)
    else ReportStamp(sentAlready, evidence, k - 1)
  }

  /** When the first admissible acknowledgement of this status before position k came. */
  ghost function AckStamp(sentAlready: bool, evidence: seq<Evidence>, k: nat, status: AckStatus): Option<int>
    requires k <= |evidence|
  {
    if k == 0 then None
    else if AckStamp(sentAlready, evidence, k - 1, status).Some? then AckStamp(sentAlready, evidence, k - 1, status)
    else if evidence[k - 1].Ack? && evidence[k - 1].status == status && Admissible(sentAlready, evidence, k - 1)
    then Some(evidence[k - 1].t.ack)
    else None
  }

  /** Applied outweighs accepted, whichever came first. */
  ghost function BestAck(sentAlready: bool, evidence: seq<Evidence>, k: nat): Option<AckStatus>
    requires k <= |evidence|
  {
    if AckStamp(sentAlready, evidence, k, AckApplied).Some? then Some(AckApplied)
    else if AckStamp(sentAlready, evidence, k, Accepted).Some? then Some(Accepted)
    else None
  }

  ghost function BestAckStamp(sentAlready: bool, evidence: seq<Evidence>, k: nat): Option<int>
    requires k <= |evidence|
  {
    if AckStamp(sentAlready, evidence, k, AckApplied).Some? then AckStamp(sentAlready, evidence, k, AckApplied)
    else AckStamp(sentAlready, evidence, k, Accepted)
  }

  /** The piece told something new about an open command. */
  ghost predicate Telling(sentAlready: bool, evidence: seq<Evidence>, i: nat)
    requires i < |evidence|
  {
    var e := evidence[i];
    || (e.Published? && !Late(e))
    || (e.Report? && Admissible(sentAlready, evidence, i))
    || (e.Ack? && Admissible(sentAlready, evidence, i) && AckStamp(sentAlready, evidence, i, AckApplied).None?
        && AckStamp(sentAlready, evidence, i, e.status).None?)
  }

  /** When the last such piece before position k came. */
  ghost function UpdateStamp(sentAlready: bool, evidence: seq<Evidence>, k: nat): Option<int>
    requires k <= |evidence|
  {
    if k == 0 then None
    else if Telling(sentAlready, evidence, k - 1) then Some(evidence[k - 1].t.update)
    else UpdateStamp(sentAlready, evidence, k - 1)
  }

  /** The stamps of an open or decided row, up to position k. */
  ghost predicate Stamped(row0: CommandRow, evidence: seq<Evidence>, k: nat, row: CommandRow)
    requires k <= |evidence|
  {
    var sent := row0.dispatchStartedAt.Some?;
    && row.reportedOn == LatestReport(sent, evidence, k) && row.stateReceivedAt == ReportStamp(sent, evidence, k)
    && row.dispatchedAt == if row0.dispatchedAt.Some? then row0.dispatchedAt else DispatchStamp(sent, evidence, k)
  }

  function FailureOf(e: Evidence): FailureCode {
    if e.PublishFailed? then PublishUnconfirmed
    else if e.Ack? && e.status.Rejected? then DeviceRejected
    else DeviceFailed
  }

  /** The last piece of evidence decided the command: how and when the row says so. */
  ghost predicate Marked(row0: CommandRow, evidence: seq<Evidence>, row: CommandRow)
    requires evidence != []
  {
    var sent, k, e := row0.dispatchStartedAt.Some?, |evidence|, evidence[|evidence| - 1];
    var negative := !Late(e) && e.Ack? && Negative(e.status);
    && Stamped(row0, evidence, k, row)
    && (if negative then row.ackStatus == Some(e.status) && row.ackReceivedAt == Some(e.t.ack)
        else row.ackStatus == BestAck(sent, evidence, k) && row.ackReceivedAt == BestAckStamp(sent, evidence, k))
    && !e.Stage?
    && row.completedAt == Some(if Late(e) then e.t.expire else e.t.finish) && row.completedAt == Some(row.updatedAt)
    && (if Late(e) then row.status == TimedOut && row.failureCode == Some(DeadlineExceeded)
        else if negative || e.PublishFailed? then row.status == Failed && row.failureCode == Some(FailureOf(e))
        else row.status == Applied && row.failureCode == None)
  }

  /** The k-th piece decided the command, as the last one before it was closed. */
  ghost predicate ClosedBy(row0: CommandRow, evidence: seq<Evidence>, k: nat, row: CommandRow)
    requires 0 < k <= |evidence|
  {
    var sent, on := row0.dispatchStartedAt.Some?, row0.requestedOn;
    && OpenAt(sent, on, evidence, k - 1) && !OpenAt(sent, on, evidence, k)
    && Marked(row0, evidence[..k], row)
  }

  ghost predicate Closed(row0: CommandRow, evidence: seq<Evidence>, row: CommandRow) {
    exists k :: 0 < k <= |evidence| && ClosedBy(row0, evidence, k, row)
  }

  // ----- the refinement -----

  /** A row on which no evidence has arrived yet. */
  predicate Untouched(row: CommandRow) {
    && Pending(row.status) && row.ackStatus.None? && row.ackReceivedAt.None? && row.reportedOn.None? && row.stateReceivedAt.None?
    && row.failureCode.None? && row.completedAt.None?
  }

  /** An open row stores exactly what the specification reads off the evidence. */
  ghost predicate Tracks(row0: CommandRow, evidence: seq<Evidence>, row: CommandRow) {
    var sent, n := row0.dispatchStartedAt.Some?, |evidence|;
    && Pending(row.status) && row.requestedOn == row0.requestedOn
    && (row.dispatchStartedAt.Some? <==> Sent(sent, evidence, n))
    && (row.ackStatus == Some(AckApplied) <==> AppliedAckBefore(sent, evidence, n))
    && (row.status == Dispatched <==> row0.status == Dispatched || DispatchStamp(sent, evidence, n).Some?)
    && Stamped(row0, evidence, n, row) && row.failureCode.None? && row.completedAt.None?
    && row.ackStatus == BestAck(sent, evidence, n) && row.ackReceivedAt == BestAckStamp(sent, evidence, n)
    && row.updatedAt == (if UpdateStamp(sent, evidence, n).Some? then UpdateStamp(sent, evidence, n).value else row0.updatedAt)
    && (row.ackStatus.Some? ==> DispatchStamp(sent, evidence, n).Some?)
    && (row.stateReceivedAt.Some? <==> row.reportedOn.Some?)
  }

  /** The specification only looks at the evidence before its position. */
  lemma {:induction false} PrefixAgrees(sent: bool, on: bool, evidence: seq<Evidence>, n: nat, k: nat)
    requires k <= n <= |evidence|
    ensures Sent(sent, evidence[..n], k) == Sent(sent, evidence, k)
    ensures forall i: nat :: i < k ==> Admissible(sent, evidence[..n], i) == Admissible(sent, evidence, i)
    ensures forall i: nat :: i < k ==> Fatal(sent, evidence[..n], i) == Fatal(sent, evidence, i)
    ensures LatestReport(sent, evidence[..n], k) == LatestReport(sent, evidence, k)
    ensures Proven(sent, on, evidence[..n], k) == Proven(sent, on, evidence, k)
    ensures NothingFatalBefore(sent, evidence[..n], k) == NothingFatalBefore(sent, evidence, k)
  {
    if k > 0 {
      PrefixAgrees(sent, on, evidence, n, k - 1);
    }
  }

  lemma {:induction false} StampsAgree(sent: bool, evidence: seq<Evidence>, n: nat, k: nat)
    requires k <= n <= |evidence|
    ensures DispatchStamp(sent, evidence[..n], k) == DispatchStamp(sent, evidence, k)
    ensures ReportStamp(sent, evidence[..n], k) == ReportStamp(sent, evidence, k)
    ensures forall status :: AckStamp(sent, evidence[..n], k, status) == AckStamp(sent, evidence, k, status)
    ensures UpdateStamp(sent, evidence[..n], k) == UpdateStamp(sent, evidence, k)
  {
    if k > 0 {
      StampsAgree(sent, evidence, n, k - 1);
      PrefixAgrees(sent, false, evidence, n, k);
      hide Fatal, Proven, NothingFatalBefore, Admissible, LatestReport;
    }
  }

  ghost predicate Decided(row0: CommandRow, evidence: seq<Evidence>, row: CommandRow) {
    var sent, on := row0.dispatchStartedAt.Some?, row0.requestedOn;
    && (row.status == Applied <==> SpecApplied(sent, on, evidence))
    && (row.status == TimedOut <==> SpecTimedOut(sent, on, evidence))
    && (row.status == Failed <==> SpecFailed(sent, on, evidence))
    && (Pending(row.status) <==> OpenAt(sent, on, evidence, |evidence|))
    && (Pending(row.status) ==> Tracks(row0, evidence, row))
    && (!Pending(row.status) ==> Closed(row0, evidence, row))
  }

  /** How one more piece of evidence changes what the specification says. */
  lemma SpecStep(sent: bool, on: bool, evidence: seq<Evidence>)
    requires evidence != []
    ensures var n, pre := |evidence| - 1, evidence[..|evidence| - 1];
            var proven, open := Proven(sent, on, evidence, n + 1), OpenAt(sent, on, pre, n);
            && (NothingFatalBefore(sent, evidence, n + 1) <==> NothingFatalBefore(sent, pre, n) && !Fatal(sent, evidence, n))
            && (OpenAt(sent, on, evidence, n) <==> open)
            && (OpenAt(sent, on, evidence, n + 1) <==> open && !Fatal(sent, evidence, n) && !proven)
            && (SpecApplied(sent, on, evidence) <==>
                  SpecApplied(sent, on, pre) || (proven && NothingFatalBefore(sent, evidence, n + 1)))
            && (SpecTimedOut(sent, on, evidence) <==> SpecTimedOut(sent, on, pre) || (Late(evidence[n]) && open))
            && (SpecFailed(sent, on, evidence) <==>
                  SpecFailed(sent, on, pre) || (!Late(evidence[n]) && Fatal(sent, evidence, n) && open))
  {
    hide Fatal, Proven, Late, Admissible;
    var n, pre := |evidence| - 1, evidence[..|evidence| - 1];
    forall k: nat | k <= n
      ensures Proven(sent, on, pre, k) == Proven(sent, on, evidence, k)
      ensures NothingFatalBefore(sent, pre, k) == NothingFatalBefore(sent, evidence, k)
      ensures OpenAt(sent, on, pre, k) == OpenAt(sent, on, evidence, k)
    {
      forall j: nat | j <= k
        ensures Proven(sent, on, pre, j) == Proven(sent, on, evidence, j)
      {
        PrefixAgrees(sent, on, evidence, n, j);
      }
      PrefixAgrees(sent, on, evidence, n, k);
    }
    forall i: nat | i < n
      ensures Late(pre[i]) == Late(evidence[i]) && Fatal(sent, pre, i) == Fatal(sent, evidence, i)
    {
      PrefixAgrees(sent, on, evidence, n, n);
    }
    SpecStepApplied(sent, on, evidence, pre);
    SpecStepEnded(sent, on, evidence, pre);
  }

  lemma SpecStepApplied(sent: bool, on: bool, evidence: seq<Evidence>, pre: seq<Evidence>)
    requires evidence != [] && pre == evidence[..|evidence| - 1]
    requires forall k: nat :: k <= |pre| ==> Proven(sent, on, pre, k) == Proven(sent, on, evidence, k)
    requires forall k: nat :: k <= |pre| ==> NothingFatalBefore(sent, pre, k) == NothingFatalBefore(sent, evidence, k)
    ensures SpecApplied(sent, on, evidence) <==>
            SpecApplied(sent, on, pre) || (Proven(sent, on, evidence, |pre| + 1) && NothingFatalBefore(sent, evidence, |pre| + 1))
  {
    hide Proven, NothingFatalBefore;
    if k :| 0 <= k <= |pre| && Proven(sent, on, pre, k) && NothingFatalBefore(sent, pre, k) {
      assert Proven(sent, on, evidence, k) && NothingFatalBefore(sent, evidence, k);
    }
  }

  lemma SpecStepEnded(sent: bool, on: bool, evidence: seq<Evidence>, pre: seq<Evidence>)
    requires evidence != [] && pre == evidence[..|evidence| - 1]
    requires forall k: nat :: k <= |pre| ==> OpenAt(sent, on, pre, k) == OpenAt(sent, on, evidence, k)
    requires forall i: nat :: i < |pre| ==> Late(pre[i]) == Late(evidence[i]) && Fatal(sent, pre, i) == Fatal(sent, evidence, i)
    ensures SpecTimedOut(sent, on, evidence) <==>
            SpecTimedOut(sent, on, pre) || (Late(evidence[|pre|]) && OpenAt(sent, on, pre, |pre|))
    ensures SpecFailed(sent, on, evidence) <==>
            SpecFailed(sent, on, pre) || (!Late(evidence[|pre|]) && Fatal(sent, evidence, |pre|) && OpenAt(sent, on, pre, |pre|))
  {
    hide Fatal, OpenAt, Late;
    if i :| 0 <= i < |pre| && Late(pre[i]) && OpenAt(sent, on, pre, i) {
      assert Late(evidence[i]) && OpenAt(sent, on, evidence, i);
    }
    if i :| 0 <= i < |pre| && !Late(pre[i]) && Fatal(sent, pre, i) && OpenAt(sent, on, pre, i) {
      assert Fatal(sent, evidence, i) && OpenAt(sent, on, evidence, i);
    }
  }

  /** One more observation of an open row has the outcome the specification gives it. */
  ghost predicate Follows(row0: CommandRow, evidence: seq<Evidence>, row: CommandRow)
    requires evidence != []
  {
    var sent, on, n := row0.dispatchStartedAt.Some?, row0.requestedOn, |evidence| - 1;
    var row' := Observe(row, evidence[n]);
    var fatal, proven := Fatal(sent, evidence, n), Proven(sent, on, evidence, n + 1);
    && (row'.status == TimedOut <==> Late(evidence[n]))
    && (row'.status == Failed <==> fatal && !Late(evidence[n]))
    && (row'.status == Applied <==> !fatal && proven)
    && (Pending(row'.status) <==> !fatal && !proven)
    && (Pending(row'.status) ==> Tracks(row0, evidence, row'))
    && (!Pending(row'.status) ==> Marked(row0, evidence, row'))
  }

  ghost predicate Waiting(row0: CommandRow, evidence: seq<Evidence>, row: CommandRow) {
    && evidence != [] && Tracks(row0, evidence[..|evidence| - 1], row)
    && !Proven(row0.dispatchStartedAt.Some?, row0.requestedOn, evidence, |evidence| - 1)
  }

  /** What the stored fields of an open row say about the evidence so far. */
  lemma WaitingMeans(row0: CommandRow, evidence: seq<Evidence>, row: CommandRow)
    requires Waiting(row0, evidence, row)
    ensures var sent, n := row0.dispatchStartedAt.Some?, |evidence| - 1;
            && Pending(row.status) && row.requestedOn == row0.requestedOn
            && (row.dispatchStartedAt.Some? <==> Sent(sent, evidence, n))
            && (row.ackStatus == Some(AckApplied) <==> AppliedAckBefore(sent, evidence, n))
            && row.reportedOn == LatestReport(sent, evidence, n)
            && (row.stateReceivedAt.Some? <==> row.reportedOn.Some?)
            && (row.status == Dispatched <==> row0.status == Dispatched || DispatchStamp(sent, evidence, n).Some?)
            && Stamped(row0, evidence, n, row) && row.failureCode.None? && row.completedAt.None?
            && row.ackStatus == BestAck(sent, evidence, n) && row.ackReceivedAt == BestAckStamp(sent, evidence, n)
            && row.updatedAt == (if UpdateStamp(sent, evidence, n).Some? then UpdateStamp(sent, evidence, n).value else row0.updatedAt)
            && (row.ackStatus.Some? ==> DispatchStamp(sent, evidence, n).Some?)
            && !(row.ackStatus == Some(AckApplied) && row.reportedOn == Some(row.requestedOn))
            && (Sent(sent, evidence, n + 1) <==> Sent(sent, evidence, n) || evidence[n].Stage?)
            && (AppliedAckBefore(sent, evidence, n + 1) <==>
                  AppliedAckBefore(sent, evidence, n) || (evidence[n].Ack? && evidence[n].status.AckApplied? && Admissible(sent, evidence, n)))
  {
    hide Admissible;
    var sent, n := row0.dispatchStartedAt.Some?, |evidence| - 1;
    PrefixAgrees(sent, row0.requestedOn, evidence, n, n);
    StampsAgree(sent, evidence, n, n);
    assert AppliedAckBefore(sent, evidence[..n], n) == AppliedAckBefore(sent, evidence, n);
  }

  /** What the last piece adds to the stamps. */
  lemma NextStamps(sent: bool, evidence: seq<Evidence>)
    requires evidence != []
    ensures var n, e := |evidence| - 1, evidence[|evidence| - 1];
            && DispatchStamp(sent, evidence, n + 1) == (if DispatchStamp(sent, evidence, n).Some? then DispatchStamp(sent, evidence, n)
                                                        else if Dispatching(sent, evidence, n) then Some(e.t.dispatch) else None)
            && ReportStamp(sent, evidence, n + 1) == (if e.Report? && Admissible(sent, evidence, n) then Some(e.t.report) else ReportStamp(sent, evidence, n))
            && LatestReport(sent, evidence, n + 1) == (if e.Report? && Admissible(sent, evidence, n) then e.on else LatestReport(sent, evidence, n))
            && UpdateStamp(sent, evidence, n + 1) == (if Telling(sent, evidence, n) then Some(e.t.update) else UpdateStamp(sent, evidence, n))
            && forall status :: AckStamp(sent, evidence, n + 1, status) ==
                 if AckStamp(sent, evidence, n, status).Some? then AckStamp(sent, evidence, n, status)
                 else if e.Ack? && e.status == status && Admissible(sent, evidence, n) then Some(e.t.ack) else None
  {
    hide Admissible;
  }

  lemma ObserveLate(row0: CommandRow, evidence: seq<Evidence>, row: CommandRow)
    requires Waiting(row0, evidence, row) && Late(evidence[|evidence| - 1])
    ensures Follows(row0, evidence, row)
  {
    WaitingMeans(row0, evidence, row);
    NextStamps(row0.dispatchStartedAt.Some?, evidence);
    hide AppliedAckBefore, Sent, Waiting, DispatchStamp, ReportStamp, AckStamp, LatestReport, UpdateStamp;
  }

  lemma ObservePublished(row0: CommandRow, evidence: seq<Evidence>, row: CommandRow)
    requires Waiting(row0, evidence, row) && evidence[|evidence| - 1].Published? && !Late(evidence[|evidence| - 1])
    ensures Follows(row0, evidence, row)
  {
    WaitingMeans(row0, evidence, row);
    NextStamps(row0.dispatchStartedAt.Some?, evidence);
    hide AppliedAckBefore, Sent, Waiting, DispatchStamp, ReportStamp, AckStamp, LatestReport, UpdateStamp;
  }

  lemma ObservePublishFailed(row0: CommandRow, evidence: seq<Evidence>, row: CommandRow)
    requires Waiting(row0, evidence, row) && evidence[|evidence| - 1].PublishFailed? && !Late(evidence[|evidence| - 1])
    ensures Follows(row0, evidence, row)
  {
    WaitingMeans(row0, evidence, row);
    NextStamps(row0.dispatchStartedAt.Some?, evidence);
    hide AppliedAckBefore, Sent, Waiting, DispatchStamp, ReportStamp, AckStamp, LatestReport, UpdateStamp;
  }

  lemma ObserveRead(row0: CommandRow, evidence: seq<Evidence>, row: CommandRow)
    requires Waiting(row0, evidence, row) && evidence[|evidence| - 1].Read? && !Late(evidence[|evidence| - 1])
    ensures Follows(row0, evidence, row)
  {
    WaitingMeans(row0, evidence, row);
    NextStamps(row0.dispatchStartedAt.Some?, evidence);
    hide AppliedAckBefore, Sent, Waiting, DispatchStamp, ReportStamp, AckStamp, LatestReport, UpdateStamp;
  }

  lemma ObserveStage(row0: CommandRow, evidence: seq<Evidence>, row: CommandRow)
    requires Waiting(row0, evidence, row) && evidence[|evidence| - 1].Stage?
    ensures Follows(row0, evidence, row)
  {
    WaitingMeans(row0, evidence, row);
    NextStamps(row0.dispatchStartedAt.Some?, evidence);
    hide AppliedAckBefore, Sent, Waiting, DispatchStamp, ReportStamp, AckStamp, LatestReport, UpdateStamp;
  }

  lemma ObserveReport(row0: CommandRow, evidence: seq<Evidence>, row: CommandRow)
    requires Waiting(row0, evidence, row) && evidence[|evidence| - 1].Report? && !Late(evidence[|evidence| - 1])
    ensures Follows(row0, evidence, row)
  {
    WaitingMeans(row0, evidence, row);
    NextStamps(row0.dispatchStartedAt.Some?, evidence);
    hide AppliedAckBefore, Sent, Waiting, DispatchStamp, ReportStamp, AckStamp, LatestReport, UpdateStamp;
  }

  lemma ObserveIgnoredAck(row0: CommandRow, evidence: seq<Evidence>, row: CommandRow)
    requires Waiting(row0, evidence, row) && evidence[|evidence| - 1].Ack? && !Late(evidence[|evidence| - 1]) && !Admissible(row0.dispatchStartedAt.Some?, evidence, |evidence| - 1)
    ensures Follows(row0, evidence, row)
  {
    WaitingMeans(row0, evidence, row);
    NextStamps(row0.dispatchStartedAt.Some?, evidence);
    hide AppliedAckBefore, Sent, Waiting, DispatchStamp, ReportStamp, AckStamp, LatestReport, UpdateStamp;
  }

  lemma ObserveNegativeAck(row0: CommandRow, evidence: seq<Evidence>, row: CommandRow)
    requires Waiting(row0, evidence, row) && evidence[|evidence| - 1].Ack? && !Late(evidence[|evidence| - 1]) && Negative(evidence[|evidence| - 1].status)
             && Admissible(row0.dispatchStartedAt.Some?, evidence, |evidence| - 1)
    ensures Follows(row0, evidence, row)
  {
    WaitingMeans(row0, evidence, row);
    NextStamps(row0.dispatchStartedAt.Some?, evidence);
    hide AppliedAckBefore, Sent, Waiting, DispatchStamp, ReportStamp, AckStamp, LatestReport, UpdateStamp;
  }

  lemma ObservePositiveAck(row0: CommandRow, evidence: seq<Evidence>, row: CommandRow)
    requires Waiting(row0, evidence, row) && evidence[|evidence| - 1].Ack? && !Late(evidence[|evidence| - 1]) && !Negative(evidence[|evidence| - 1].status)
             && Admissible(row0.dispatchStartedAt.Some?, evidence, |evidence| - 1)
    ensures Follows(row0, evidence, row)
  {
    WaitingMeans(row0, evidence, row);
    NextStamps(row0.dispatchStartedAt.Some?, evidence);
    hide AppliedAckBefore, Sent, Waiting, DispatchStamp, ReportStamp, AckStamp, LatestReport, UpdateStamp;
  }

  lemma ObserveLast(row0: CommandRow, evidence: seq<Evidence>, row: CommandRow)
    requires evidence != [] && Waiting(row0, evidence, row)
    ensures Follows(row0, evidence, row)
  {
    hide Waiting, Follows, Admissible;
    var e := evidence[|evidence| - 1];
    if Late(e) {
      ObserveLate(row0, evidence, row);
    } else if e.Ack? {
      if !Admissible(row0.dispatchStartedAt.Some?, evidence, |evidence| - 1) {
        ObserveIgnoredAck(row0, evidence, row);
      } else if Negative(e.status) {
        ObserveNegativeAck(row0, evidence, row);
      } else {
        ObservePositiveAck(row0, evidence, row);
      }
    } else {
      match e
      case Published(_, _) => ObservePublished(row0, evidence, row);
      case PublishFailed(_, _) => ObservePublishFailed(row0, evidence, row);
      case Read(_, _) => ObserveRead(row0, evidence, row);
      case Stage(_) => ObserveStage(row0, evidence, row);
      case Report(_, _, _, _, _) => ObserveReport(row0, evidence, row);
    }
  }

  /** Nothing fatal yet and not open any more: the proofs were complete at some point. */
  lemma ClosedMeansApplied(sent: bool, on: bool, evidence: seq<Evidence>)
    requires !OpenAt(sent, on, evidence, |evidence|) && NothingFatalBefore(sent, evidence, |evidence|)
    ensures SpecApplied(sent, on, evidence)
  {
    hide Proven, Fatal;
    var k :| 0 <= k <= |evidence| && Proven(sent, on, evidence, k);
    assert NothingFatalBefore(sent, evidence, k);
  }

  lemma DecidedStep(row0: CommandRow, evidence: seq<Evidence>, row: CommandRow)
    requires evidence != [] && Decided(row0, evidence[..|evidence| - 1], row)
    ensures Decided(row0, evidence, Observe(row, evidence[|evidence| - 1]))
  {
    hide Proven, Fatal, Late, Tracks, Observe, SpecApplied, SpecTimedOut, SpecFailed, NothingFatalBefore, OpenAt, Waiting;
    var sent, on, n, pre := row0.dispatchStartedAt.Some?, row0.requestedOn, |evidence| - 1, evidence[..|evidence| - 1];
    SpecStep(sent, on, evidence);
    if Pending(row.status) {
      StillWaiting(row0, evidence, row);
      ObserveLast(row0, evidence, row);
      OpenMeans(sent, on, pre);
      assert evidence[..n + 1] == evidence;
      if !Pending(Observe(row, evidence[n]).status) {
        assert ClosedBy(row0, evidence, n + 1, Observe(row, evidence[n]));
      }
    } else {
      TerminalStays(row, evidence[n]);
      StaysClosed(row0, evidence, row);
      if NothingFatalBefore(sent, pre, n) {
        ClosedMeansApplied(sent, on, pre);
      }
    }
  }

  lemma StaysClosed(row0: CommandRow, evidence: seq<Evidence>, row: CommandRow)
    requires evidence != []
    requires Closed(row0, evidence[..|evidence| - 1], row)
    ensures Closed(row0, evidence, row)
  {
    hide Proven, Fatal, Marked, OpenAt;
    var n, pre := |evidence| - 1, evidence[..|evidence| - 1];
    var k :| 0 < k <= n && ClosedBy(row0, pre, k, row);
    assert pre[..k] == evidence[..k];
    OpenAtAgrees(row0.dispatchStartedAt.Some?, row0.requestedOn, evidence, n, k - 1);
    OpenAtAgrees(row0.dispatchStartedAt.Some?, row0.requestedOn, evidence, n, k);
    assert ClosedBy(row0, evidence, k, row);
  }

  lemma OpenAtAgrees(sent: bool, on: bool, evidence: seq<Evidence>, n: nat, k: nat)
    requires k <= n <= |evidence|
    ensures OpenAt(sent, on, evidence[..n], k) == OpenAt(sent, on, evidence, k)
  {
    hide Proven, Fatal;
    forall j: nat | j <= k
      ensures Proven(sent, on, evidence[..n], j) == Proven(sent, on, evidence, j)
    {
      PrefixAgrees(sent, on, evidence, n, j);
    }
    PrefixAgrees(sent, on, evidence, n, k);
  }

  lemma OpenMeans(sent: bool, on: bool, evidence: seq<Evidence>)
    requires OpenAt(sent, on, evidence, |evidence|)
    ensures NothingFatalBefore(sent, evidence, |evidence|)
    ensures !SpecApplied(sent, on, evidence) && !SpecTimedOut(sent, on, evidence) && !SpecFailed(sent, on, evidence)
  {
    hide Proven, Admissible;
    assert forall i: nat :: i < |evidence| && Late(evidence[i]) ==> Fatal(sent, evidence, i);
  }

  lemma StillWaiting(row0: CommandRow, evidence: seq<Evidence>, row: CommandRow)
    requires evidence != [] && Decided(row0, evidence[..|evidence| - 1], row) && Pending(row.status)
    ensures Waiting(row0, evidence, row)
  {
    hide Fatal, Tracks, SpecApplied, SpecTimedOut, SpecFailed;
    var n := |evidence| - 1;
    PrefixAgrees(row0.dispatchStartedAt.Some?, row0.requestedOn, evidence, n, n);
  }

  /** The ledger refines the specification: for every history of evidence the row is
      applied, failed, timed out or still open exactly when the evidence says so. */
  lemma {:induction false} LedgerFollowsEvidence(row0: CommandRow, evidence: seq<Evidence>)
    requires Untouched(row0)
    ensures Decided(row0, evidence, Final(row0, evidence))
  {
    if evidence == [] {
      assert !Proven(row0.dispatchStartedAt.Some?, row0.requestedOn, evidence, 0);
    } else {
      hide Decided, Observe;
      LedgerFollowsEvidence(row0, evidence[..|evidence| - 1]);
      DecidedStep(row0, evidence, Final(row0, evidence[..|evidence| - 1]));
    }
  }

  lemma TerminalStays(row: CommandRow, e: Evidence)
    requires !Pending(row.status)
    ensures Observe(row, e) == row
  {
  }
}
