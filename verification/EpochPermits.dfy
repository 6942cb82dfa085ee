/** The permits of several epochs together: while each epoch stops before the next one
    takes its snapshot, a device never has more than two unexpired permits in all. */
module EpochPermits {
  import opened Common
  import opened CommandRecords
  import opened ControlClock
  import opened RecoveryFence
  import opened ControlAuthority
  import opened PermitLimiter
  import opened AuthorityRuns
  import opened AuthorityInvariant
  import opened AuthorityTheorems
  import opened DeliveryDates

  // ----- what every permit remembers -----

  /** An epoch prepares and grants only once its recovery has begun. */
  predicate Begun(n: Node) {
    n.auth.windows != map[] || n.passes != [] ==> n.auth.recoveryInitialized
  }

  /** The epoch has counted its fence by now. */
  ghost predicate FenceOver(env: Env, e: Id, n: Node, now: real) {
    exists u: real :: n.fenceAt <= u <= now && env.counter(e, u) - n.auth.clock.fenceStart >= n.auth.clock.fenceUs
  }

  /** A permit runs out before the deadline of its command. */
  ghost predicate WithinDeadline(origins: map<Id, Origin>, e: Id, d: Delivery) {
    && d.commandId in origins && origins[d.commandId].epoch == e
    && d.validUntilTick < d.deadlineTick == origins[d.commandId].deadline
  }

  ghost predicate NodePermits(env: Env, origins: map<Id, Origin>, e: Id, n: Node, now: real) {
    && Begun(n) && (n.passes != [] ==> FenceOver(env, e, n, now))
    && forall i :: 0 <= i < |n.passes| && n.passes[i].grant.Some? ==> WithinDeadline(origins, e, n.passes[i].grant.value)
  }

  ghost predicate AllPermits(env: Env, w: World) {
    forall e :: e in w.nodes ==> NodePermits(env, w.origins, e, w.nodes[e], w.now)
  }

  /** What no operation but a request changes about these facts. */
  predicate Alike(n: Node, n': Node) {
    && n'.passes == n.passes && n'.auth.clock.fenceUs == n.auth.clock.fenceUs
    && (n.auth.recoveryInitialized ==>
          n'.auth.recoveryInitialized && n'.fenceAt == n.fenceAt && n'.auth.clock.fenceStart == n.auth.clock.fenceStart)
    && (n'.auth.windows != map[] ==> n.auth.windows != map[] || n.auth.recoveryInitialized)
  }

  lemma AlikeKeeps(env: Env, origins: map<Id, Origin>, origins': map<Id, Origin>, e: Id, n: Node, n': Node, now: real, now': real)
    requires NodePermits(env, origins, e, n, now) && Alike(n, n') && now <= now'
    requires forall c :: c in origins ==> c in origins' && origins'[c] == origins[c]
    ensures NodePermits(env, origins', e, n', now')
  {
  }

  lemma PrepareAlike(w: World, e: Id, at: real, op: Op)
    requires e in w.nodes && op.Prepare?
    ensures e in CallStep(w, e, at, op).nodes && Alike(w.nodes[e], CallStep(w, e, at, op).nodes[e])
  {
    hide Admits, Preparable, Timely, Terminal;
    ClockOnlyMovesForward(w.nodes[e].auth.clock, op.s);
  }

  lemma OthersAlike(w: World, e: Id, at: real, op: Op)
    requires e in w.nodes && !op.Prepare? && !op.Request?
    ensures e in CallStep(w, e, at, op).nodes && Alike(w.nodes[e], CallStep(w, e, at, op).nodes[e])
  {
    hide Current;
    match op
    case Initialize(_, _) =>
    case Stage(_, _, _, s, _, _) => ClockOnlyMovesForward(w.nodes[e].auth.clock, s);
    case Validate(_, s, _, _) => ClockOnlyMovesForward(w.nodes[e].auth.clock, s);
    case Expired(_, r, _) => ClockOnlyMovesForward(w.nodes[e].auth.clock, SampleReads(r, NotUtc, false, r));
    case LogicalNow(r, _) => ClockOnlyMovesForward(w.nodes[e].auth.clock, SampleReads(r, NotUtc, false, r));
  }

  /** A request that the limiter let through had a window and a granted sample. */
  lemma PassedMeans(a: Authority, db: Database, at: Device, q: PermitRequest, admission: Outcome<()>, s: SampleReads)
    requires RequestStep(a, db, at, q, admission, s).passed
    ensures a.windows != map[] && SampleStep(a.clock, s).1.Done?
  {
    hide SampleStep, LimitStep, LiveReplies, BindingFree;
    assert q.commandId in a.windows;
  }

  lemma RequestKeepsPermits(env: Env, w: World, e: Id, at: real, op: Op)
    requires Good(env, w) && AllDated(w) && Possible(env, w, Call(e, at, op)) && op.Request?
    requires NodePermits(env, w.origins, e, w.nodes[e], w.now)
    ensures var w' := CallStep(w, e, at, op);
            e in w'.nodes && NodePermits(env, w'.origins, e, w'.nodes[e], w'.now)
  {
    hide Good, RequestStep, LimiterUse, SampleStep;
    var n, w' := w.nodes[e], CallStep(w, e, at, op);
    var r := RequestStep(n.auth, w.db, op.device, op.q, op.admission, op.s);
    NodeEpoch(env, w, e);
    RequestCases(env, w, e, at, op);
    var plain := n.(auth := r.auth, lastReadAt := op.againAt);
    AlikeKeeps(env, w.origins, w'.origins, e, n, plain, w.now, at);
    if r.passed {
      FenceFacts(env, w, e);
      PassedMeans(n.auth, w.db, op.device, op.q, op.admission, op.s);
      SampleMoves(env, n, op.s, op.readAt, op.againAt);
      assert FenceOver(env, e, w'.nodes[e], at) by {
        assert env.counter(e, op.againAt) - n.auth.clock.fenceStart >= n.auth.clock.fenceUs;
      }
      if r.answer.Done? {
        GrantedIsDated(env, w, e, at, op);
        assert FirstGrant(w.db, e, op.device, op.q, TickOf(op.s.tick), r);
        ControlHasOrigin(env, w, op.q.commandId);
        assert WithinDeadline(w.origins, e, r.answer.value);
      }
    }
  }

  lemma CallKeepsPermits(env: Env, w: World, e: Id, at: real, op: Op)
    requires Good(env, w) && AllDated(w) && Possible(env, w, Call(e, at, op)) && AllPermits(env, w)
    ensures AllPermits(env, CallStep(w, e, at, op))
  {
    hide Good, NodePermits, Alike;
    var w' := CallStep(w, e, at, op);
    StepGrows(env, w, Call(e, at, op));
    if op.Request? {
      RequestKeepsPermits(env, w, e, at, op);
    } else {
      if op.Prepare? {
        PrepareAlike(w, e, at, op);
      } else {
        OthersAlike(w, e, at, op);
      }
      AlikeKeeps(env, w.origins, w'.origins, e, w.nodes[e], w'.nodes[e], w.now, w'.now);
    }
    CallSparesOthers(w, e, at, op);
    forall x | x in w'.nodes && x != e
      ensures NodePermits(env, w'.origins, x, w'.nodes[x], w'.now)
    {
      AlikeReflexive(w.nodes[x]);
      AlikeKeeps(env, w.origins, w'.origins, x, w.nodes[x], w'.nodes[x], w.now, w'.now);
    }
  }

  lemma AlikeReflexive(n: Node)
    ensures Alike(n, n)
  {
  }

  lemma CallSparesOthers(w: World, e: Id, at: real, op: Op)
    requires e in w.nodes
    ensures var w' := CallStep(w, e, at, op);
            && w'.nodes.Keys == w.nodes.Keys && (forall x :: x in w.nodes && x != e ==> w'.nodes[x] == w.nodes[x])
            && (w'.now == at || w' == w)
  {
    hide PrepareStep, StageStep, RequestStep, ValidateStep, ExpiredStep, InitializeStep;
  }

  lemma OtherStepsKeepPermits(env: Env, w: World, act: Action)
    requires AllPermits(env, w) && Possible(env, w, act) && !act.Call?
    ensures AllPermits(env, Apply(w, act))
  {
    hide NodePermits;
    var w' := Apply(w, act);
    forall e | e in w'.nodes
      ensures NodePermits(env, w'.origins, e, w'.nodes[e], w'.now)
    {
      if e in w.nodes {
        AlikeKeeps(env, w.origins, w'.origins, e, w.nodes[e], w'.nodes[e], w.now, w'.now);
      } else {
        NewNodeHasNone(env, w'.origins, e, w'.nodes[e], w'.now);
      }
    }
  }

  lemma NewNodeHasNone(env: Env, origins: map<Id, Origin>, e: Id, n: Node, now: real)
    requires n.auth.windows == map[] && n.passes == []
    ensures NodePermits(env, origins, e, n, now)
  {
  }

  lemma {:induction false} RunKeepsPermits(env: Env, acts: seq<Action>, w: World)
    requires Reaches(env, acts, w)
    ensures AllPermits(env, w)
  {
    hide Good, Possible, Apply, AllPermits, CallStep;
    if acts == [] {
      NothingAtStart(env);
    } else {
      var before, act := acts[..|acts| - 1], acts[|acts| - 1];
      RunKeepsPermits(env, before, Exec(START, before));
      RunKeepsDates(env, before, Exec(START, before));
      ReachedIsGood(env, before, Exec(START, before));
      StepKeepsPermits(env, Exec(START, before), act);
    }
  }

  lemma NothingAtStart(env: Env)
    ensures AllPermits(env, START)
  {
  }

  lemma StepKeepsPermits(env: Env, w: World, act: Action)
    requires Good(env, w) && AllDated(w) && AllPermits(env, w) && Possible(env, w, act)
    ensures AllPermits(env, Apply(w, act))
  {
    hide Good, AllDated, AllPermits, CallStep;
    if act.Call? {
      CallKeepsPermits(env, w, act.epoch, act.at, act.op);
    } else {
      OtherStepsKeepPermits(env, w, act);
    }
  }

  // ----- the bound over all epochs -----

  /** The i-th pass of epoch `e` gave this device a permit. */
  predicate Permit(w: World, e: Id, i: nat, device: Device) {
    && e in w.nodes && i < |w.nodes[e].passes|
    && w.nodes[e].passes[i].key == device && w.nodes[e].passes[i].grant.Some?
  }

  /** The permit has run out: its epoch's process has seen that, or its counter shows it. */
  predicate Over(env: Env, w: World, e: Id, i: nat, t: real)
    requires e in w.nodes && i < |w.nodes[e].passes| && w.nodes[e].passes[i].grant.Some?
  {
    var end := w.nodes[e].passes[i].grant.value.validUntilTick;
    end < w.nodes[e].auth.clock.last || end < env.counter(e, t)
  }

  /** Epoch `o` stopped before `n` took its recovery snapshot. */
  predicate Precedes(w: World, o: Id, n: Id)
    requires o in w.nodes && n in w.nodes
  {
    w.nodes[o].stoppedAt.Some? && w.nodes[o].stoppedAt.value <= w.nodes[n].snapshotAt
  }

  /** Once the later epoch has given a permit, all those of the earlier one are over. */
  lemma EarlierPermitIsOver(env: Env, acts: seq<Action>, w: World, o: Id, i: nat, n: Id, j: nat, device: Device, t: real)
    requires Reaches(env, acts, w) && w.now <= t
    requires Permit(w, o, i, device) && Permit(w, n, j, device) && Precedes(w, o, n)
    ensures Over(env, w, o, i, t)
  {
    hide Good, Reaches, Exec, Apply, PossibleRun, FenceUs, MayAdvance;
    ReachedIsGood(env, acts, w);
    RunKeepsPermits(env, acts, w);
    var d, node := w.nodes[o].passes[i].grant.value, w.nodes[n];
    assert NodePermits(env, w.origins, o, w.nodes[o], w.now) && NodePermits(env, w.origins, n, node, w.now);
    assert WithinDeadline(w.origins, o, d);
    OriginFacts(env, w, d.commandId);
    FenceFacts(env, w, n);
    var u: real :| node.fenceAt <= u <= w.now && env.counter(n, u) - node.auth.clock.fenceStart >= node.auth.clock.fenceUs;
    LifetimePassed(env, node.ratePpm, node.errorUs, n, node.fenceAt, u, o, w.origins[d.commandId].readAt, t);
  }

  lemma SecondAfterFirst(env: Env, acts: seq<Action>, w: World, e: Id, i: nat, j: nat, k: nat, device: Device, t: real)
    requires Reaches(env, acts, w) && i < j < k && Permit(w, e, i, device) && Permit(w, e, j, device) && Permit(w, e, k, device)
    ensures Over(env, w, e, i, t)
  {
    hide Good, Reaches, Exec, Apply, PossibleRun;
    ReachedIsGood(env, acts, w);
    AtMostTwoUnexpiredPermits(env, acts, w, e, i, j, k);
    NodeLimited(env, w, e);
  }

  /** Of any three permits that a device was given, by whichever epochs, one is over. */
  lemma AtMostTwoUnexpiredOverall(env: Env, acts: seq<Action>, w: World, device: Device, t: real,
                                  e: Id, i: nat, f: Id, j: nat, g: Id, k: nat)
    requires Reaches(env, acts, w) && w.now <= t
    requires Permit(w, e, i, device) && Permit(w, f, j, device) && Permit(w, g, k, device)
    requires (e, i) != (f, j) && (f, j) != (g, k) && (e, i) != (g, k)
    requires forall o, n :: o in {e, f, g} && n in {e, f, g} && o != n ==> Precedes(w, o, n) || Precedes(w, n, o)
    ensures Over(env, w, e, i, t) || Over(env, w, f, j, t) || Over(env, w, g, k, t)
  {
    hide Reaches, Over;
    if e != f {
      TwoEpochs(env, acts, w, e, i, f, j, device, t);
    } else if f != g {
      TwoEpochs(env, acts, w, f, j, g, k, device, t);
    } else {
      var x, y, z := InOrder(i, j, k);
      SecondAfterFirst(env, acts, w, e, x, y, z, device, t);
    }
  }

  lemma TwoEpochs(env: Env, acts: seq<Action>, w: World, o: Id, i: nat, n: Id, j: nat, device: Device, t: real)
    requires Reaches(env, acts, w) && w.now <= t && Permit(w, o, i, device) && Permit(w, n, j, device)
    requires Precedes(w, o, n) || Precedes(w, n, o)
    ensures Over(env, w, o, i, t) || Over(env, w, n, j, t)
  {
    hide Reaches, Over;
    if Precedes(w, o, n) {
      EarlierPermitIsOver(env, acts, w, o, i, n, j, device, t);
    } else {
      EarlierPermitIsOver(env, acts, w, n, j, o, i, device, t);
    }
  }

  lemma InOrder(i: nat, j: nat, k: nat) returns (x: nat, y: nat, z: nat)
    requires i != j && j != k && i != k
    ensures x < y < z && {x, y, z} == {i, j, k}
  {
    x := if i < j && i < k then i else if j < k then j else k;
    z := if i > j && i > k then i else if j > k then j else k;
    y := if i != x && i != z then i else if j != x && j != z then j else k;
  }
}
