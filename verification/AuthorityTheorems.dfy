/** What the invariant of AuthorityRuns means for every run. */
module AuthorityTheorems {
  import opened Common
  import opened CommandRecords
  import opened ControlClock
  import opened RecoveryFence
  import opened ControlAuthority
  import opened PermitLimiter
  import opened AuthorityRuns
  import opened AuthorityInvariant

  ghost predicate Reaches(env: Env, acts: seq<Action>, w: World) {
    Honest(env) && PossibleRun(env, START, acts) && w == Exec(START, acts)
  }

  lemma ReachedIsGood(env: Env, acts: seq<Action>, w: World)
    requires Reaches(env, acts, w)
    ensures Good(env, w) && Honest(env)
  {
    hide Good, Possible, Apply;
    StartIsGood(env);
    RunKeepsGood(env, START, acts);
  }

  // ----- single use -----

  /** Over all restarts, lost caches and repeated requests, the events of a command
      are: prepared, staged once, then one and the same permit any number of times. */
  lemma PermitIsSingleUse(env: Env, acts: seq<Action>, w: World, c: Id)
    requires Reaches(env, acts, w)
    ensures LegalHistory(History(w.log, c))
  {
    ReachedIsGood(env, acts, w);
    hide NodeOk, OriginsOk, BindingsUnique, LegalHistory, Recorded;
  }

  /** The stored binding is the binding of the permit that was handed out, and no
      two commands ever share one. */
  lemma StoredBindingIsGranted(env: Env, acts: seq<Action>, w: World, c: Id)
    requires Reaches(env, acts, w) && c in w.db.controls
    ensures w.db.controls[c].binding.Some? <==> |History(w.log, c)| > 2
    ensures w.db.controls[c].binding.Some? ==>
              && History(w.log, c)[2].Granted? && History(w.log, c)[2].binding == w.db.controls[c].binding.value
              && forall d :: d in w.db.controls && d != c ==> w.db.controls[d].binding != w.db.controls[c].binding
  {
    ReachedIsGood(env, acts, w);
    hide NodeOk, OriginsOk;
    assert Recorded(w.db, c, History(w.log, c));
  }

  ghost predicate Extends(w: World, w': World) {
    && StoreGrows(w.db, w'.db)
    && forall c :: c in w.origins ==> c in w'.origins && w'.origins[c] == w.origins[c]
  }

  lemma PrepareGrows(env: Env, w: World, e: Id, at: real, op: Op)
    requires op.Prepare? && e in w.nodes && w.nodes[e].auth.Epoch() == e && PossibleOp(env, w, w.nodes[e], at, op)
    requires w.db.controls.Keys <= w.db.commands.Keys && w.origins.Keys == w.db.controls.Keys
    ensures Extends(w, CallStep(w, e, at, op))
  {
    hide PrepareStep, Pruned, SampleStep, Forgets;
    if PrepareStep(w.nodes[e].auth, w.db, op.intent, op.admission, op.s).answer.Done? {
      PreparedEffect(env, w, e, at, op);
    } else {
      RefusedPrepare(env, w, e, at, op);
    }
  }

  lemma StageGrows(env: Env, w: World, e: Id, at: real, op: Op)
    requires op.Stage? && e in w.nodes && PossibleOp(env, w, w.nodes[e], at, op)
    ensures Extends(w, CallStep(w, e, at, op))
  {
    hide StageStep, Forgets;
    StageEffect(env, w, e, at, op);
  }

  lemma RequestGrows(env: Env, w: World, e: Id, at: real, op: Op)
    requires op.Request? && e in w.nodes && w.nodes[e].auth.Epoch() == e && PossibleOp(env, w, w.nodes[e], at, op)
    ensures Extends(w, CallStep(w, e, at, op))
  {
    hide RequestStep, LimiterUse, BindingFree;
    RequestCases(env, w, e, at, op);
  }

  lemma CallGrows(env: Env, w: World, e: Id, at: real, op: Op)
    requires e in w.nodes && w.nodes[e].auth.Epoch() == e && PossibleOp(env, w, w.nodes[e], at, op)
    requires w.db.controls.Keys <= w.db.commands.Keys && w.origins.Keys == w.db.controls.Keys
    ensures Extends(w, CallStep(w, e, at, op))
  {
    if op.Prepare? {
      PrepareGrows(env, w, e, at, op);
    } else if op.Stage? {
      StageGrows(env, w, e, at, op);
    } else if op.Request? {
      RequestGrows(env, w, e, at, op);
    } else {
      assert CallStep(w, e, at, op).db == w.db && CallStep(w, e, at, op).origins == w.origins;
    }
  }

  lemma StepGrows(env: Env, w: World, act: Action)
    requires Good(env, w) && Possible(env, w, act)
    ensures Extends(w, Apply(w, act))
  {
    hide NodeOk, BindingsUnique, Historical, CallStep, OriginOk;
    if act.Call? {
      NodeEpoch(env, w, act.epoch);
      ControlsHaveRows(w.db, w.log);
      CallGrows(env, w, act.epoch, act.at, act.op);
    }
  }

  /** One run after another is a run. */
  lemma {:induction false} RunsConcatenate(env: Env, w: World, acts: seq<Action>, more: seq<Action>)
    ensures Exec(w, acts + more) == Exec(Exec(w, acts), more)
    ensures PossibleRun(env, w, acts + more) <==> PossibleRun(env, w, acts) && PossibleRun(env, Exec(w, acts), more)
  {
    hide Possible, Apply;
    if more == [] {
      assert acts + more == acts;
    } else {
      RunsConcatenate(env, w, acts, more[..|more| - 1]);
      assert (acts + more)[..|acts + more| - 1] == acts + more[..|more| - 1];
    }
  }

  lemma {:induction false} RunGrows(env: Env, w: World, acts: seq<Action>)
    requires Good(env, w) && PossibleRun(env, w, acts)
    ensures Extends(w, Exec(w, acts))
  {
    hide Good, Possible, Apply;
    if acts != [] {
      var before := acts[..|acts| - 1];
      RunGrows(env, w, before);
      RunKeepsGood(env, w, before);
      StepGrows(env, Exec(w, before), acts[|acts| - 1]);
    }
  }

  /** Whatever happens later, a stored binding never changes and a stored candidate
      keeps its bytes and its epoch. */
  lemma BindingIsWrittenOnce(env: Env, acts: seq<Action>, w: World, more: seq<Action>, c: Id)
    requires Reaches(env, acts, w) && PossibleRun(env, w, more) && c in w.db.controls
    ensures c in Exec(w, more).db.controls
    ensures var now, later := w.db.controls[c], Exec(w, more).db.controls[c];
            && later.epoch == now.epoch && later.payload == now.payload && later.digest == now.digest
            && (now.binding.Some? ==> later.binding == now.binding)
  {
    hide Good, Possible, Apply;
    ReachedIsGood(env, acts, w);
    RunGrows(env, w, more);
  }

  // ----- the recovery fence -----

  /** A command prepared before the fence began has passed its deadline, on its own
      epoch's counter, once another epoch saw the fence run out. */
  lemma DeadlinePassed(env: Env, w: World, e: Id, fenceTick: int, fenceAt: real, c: Id, t: real)
    requires Honest(env) && Good(env, w) && e in w.nodes && w.nodes[e].auth.recoveryInitialized
    requires w.nodes[e].lastReadAt <= fenceAt <= t && fenceTick == env.counter(e, fenceAt)
    requires fenceTick - w.nodes[e].auth.clock.fenceStart >= w.nodes[e].auth.clock.fenceUs
    requires c in w.origins && w.origins[c].readAt <= w.nodes[e].fenceAt
    ensures w.origins[c].deadline <= env.counter(w.origins[c].epoch, t)
  {
    hide Good, FenceUs, MayAdvance;
    var n, o := w.nodes[e], w.origins[c];
    OriginFacts(env, w, c);
    FenceFacts(env, w, e);
    LifetimePassed(env, n.ratePpm, n.errorUs, e, n.fenceAt, fenceAt, o.epoch, o.readAt, t);
  }

  /** Over real time: if epoch `e` ran its fence between two instants, every other
      counter has run a command lifetime since any instant before the first. */
  lemma LifetimePassed(env: Env, ratePpm: nat, errorUs: nat, e: Id, from: real, to: real, other: Id, since: real, t: real)
    requires Steady(env, e) && Steady(env, other) && ValidDrift(env.drift, ratePpm, errorUs)
    requires since <= from <= to <= t
    requires env.counter(e, to) - env.counter(e, from) >= FenceUs(ratePpm, errorUs)
    ensures env.counter(other, t) - env.counter(other, since) >= LIFETIME_US
  {
    hide FenceUs, ValidDrift, MayAdvance;
    var newTicks := env.counter(e, to) - env.counter(e, from);
    var oldTicks := env.counter(other, t) - env.counter(other, since);
    assert MayAdvance(env.drift, to - from, newTicks);
    assert MayAdvance(env.drift, t - since, oldTicks);
    FenceCoversLifetime(env.drift, ratePpm, errorUs, to - from, t - since, newTicks, oldTicks);
  }

  lemma OriginFacts(env: Env, w: World, c: Id)
    requires Good(env, w) && c in w.origins
    ensures OriginOk(env, w, c)
  {
    hide NodeOk, Historical, BindingsUnique, OriginOk;
  }

  lemma FenceFacts(env: Env, w: World, e: Id)
    requires Good(env, w) && e in w.nodes
    ensures Fenced(env, w.origins, e, w.nodes[e])
  {
    hide OriginsOk, Historical, BindingsUnique, Fenced, Windowed, Tabled, Limited, Replying;
  }

  /** An epoch that reports a foreign command as expired is right: from then on the
      counter of the owner shows the command's deadline or more, at every instant. */
  lemma ForeignExpiryIsSound(env: Env, acts: seq<Action>, w: World, e: Id, at: real, c: Id, r: TickReading, readAt: real, t: real)
    requires Reaches(env, acts, w) && Possible(env, w, Call(e, at, Expired(c, r, readAt)))
    requires ExpiredStep(w.nodes[e].auth, c, w.db.controls[c], r).1 == Done(true)
    requires w.db.controls[c].epoch != e && readAt <= t
    ensures c in w.origins && w.origins[c].deadline <= env.counter(w.db.controls[c].epoch, t)
  {
    hide Good, Reaches, Exec, Apply, PossibleRun;
    ReachedIsGood(env, acts, w);
    FenceFacts(env, w, e);
    ControlHasOrigin(env, w, c);
    DeadlinePassed(env, w, e, r.us, readAt, c, t);
  }

  lemma ControlHasOrigin(env: Env, w: World, c: Id)
    requires Good(env, w) && c in w.db.controls
    ensures c in w.origins && OriginOk(env, w, c)
  {
    hide NodeOk, Historical, BindingsUnique, OriginOk;
  }

  /** An operation that samples the owner's clock once a deadline is reached neither
      stages the command nor hands out a permit for it. */
  lemma NoStageOrGrantAfterDeadline(env: Env, acts: seq<Action>, w: World, o: Id, at: real, op: Op, c: Id, t: real)
    requires Reaches(env, acts, w) && Possible(env, w, Call(o, at, op)) && c in w.origins
    requires forall u :: t <= u ==> w.origins[c].deadline <= env.counter(w.origins[c].epoch, u)
    requires (op.Stage? && op.commandId == c) || (op.Request? && op.q.commandId == c)
    requires t <= op.readAt
    ensures op.Stage? ==> StageStep(w.nodes[o].auth, w.db, op.device, c, op.admission, op.s).answer.Refused?
    ensures op.Request? ==> RequestStep(w.nodes[o].auth, w.db, op.device, op.q, op.admission, op.s).answer.Refused?
  {
    hide Good, Reaches, Exec, Apply, PossibleRun, LimitStep, GrantStep, BindingFree;
    ReachedIsGood(env, acts, w);
    FenceFacts(env, w, o);
    WindowFacts(env, w, o);
    SampleMoves(env, w.nodes[o], op.s, op.readAt, op.againAt);
    if c in w.nodes[o].auth.windows {
      assert WindowOk(w.db, w.origins, o, w.nodes[o].auth.clock, c, w.nodes[o].auth.windows[c]);
    }
  }

  lemma WindowFacts(env: Env, w: World, e: Id)
    requires Good(env, w) && e in w.nodes
    ensures Windowed(w.db, w.origins, e, w.nodes[e]) && Tabled(w.db, e, w.nodes[e])
  {
    hide OriginsOk, Historical, BindingsUnique, Fenced, Windowed, Tabled, Limited, Replying;
  }

  /** The two together: once any other epoch has expired the command, no operation
      of the owner that samples its clock later, in any continuation of the run,
      stages the command or hands out a permit for it. */
  lemma ExpiredCommandNeverReturns(env: Env, acts: seq<Action>, w: World, e: Id, at: real, c: Id, r: TickReading, readAt: real,
                                   more: seq<Action>, o: Id, at': real, op: Op)
    requires Reaches(env, acts, w) && Possible(env, w, Call(e, at, Expired(c, r, readAt)))
    requires ExpiredStep(w.nodes[e].auth, c, w.db.controls[c], r).1 == Done(true) && w.db.controls[c].epoch != e
    requires PossibleRun(env, w, more) && Possible(env, Exec(w, more), Call(o, at', op)) && readAt <= op.readAt
    requires (op.Stage? && op.commandId == c) || (op.Request? && op.q.commandId == c)
    ensures var w' := Exec(w, more);
            && (op.Stage? ==> StageStep(w'.nodes[o].auth, w'.db, op.device, c, op.admission, op.s).answer.Refused?)
            && (op.Request? ==> RequestStep(w'.nodes[o].auth, w'.db, op.device, op.q, op.admission, op.s).answer.Refused?)
  {
    var w' := Exec(w, more);
    ReachedIsGood(env, acts, w);
    ControlHasOrigin(env, w, c);
    hide Good, Possible, Apply, StageStep, RequestStep, ExpiredStep;
    RunGrows(env, w, more);
    RunsConcatenate(env, START, acts, more);
    forall u | readAt <= u
      ensures w'.origins[c].deadline <= env.counter(w'.origins[c].epoch, u)
    {
      ForeignExpiryIsSound(env, acts, w, e, at, c, r, readAt, u);
    }
    NoStageOrGrantAfterDeadline(env, acts + more, w', o, at', op, c, readAt);
  }

  /** The times at which an operation read its clock successfully. */
  predicate Sampling(op: Op) {
    op.Prepare? || op.Stage? || op.Request? || op.Validate?
  }

  /** If one epoch stopped before another took its recovery snapshot, then every
      prepare, stage, permit and delivery check of the new epoch that got past the
      clock happened after every deadline of the old epoch. */
  lemma EpochsDoNotOverlap(env: Env, acts: seq<Action>, w: World, o: Id, n: Id, at: real, op: Op, c: Id, t: real)
    requires Reaches(env, acts, w) && Possible(env, w, Call(n, at, op)) && Sampling(op)
    requires o in w.nodes && w.nodes[o].stoppedAt.Some? && w.nodes[o].stoppedAt.value <= w.nodes[n].snapshotAt
    requires w.nodes[n].auth.recoveryInitialized
    requires SampleStep(w.nodes[n].auth.clock, op.s).1.Done?
    requires c in w.db.controls && w.db.controls[c].epoch == o && op.againAt <= t
    ensures c in w.origins && w.origins[c].deadline <= env.counter(o, t)
  {
    hide Good, Reaches, Exec, Apply, PossibleRun;
    ReachedIsGood(env, acts, w);
    FenceFacts(env, w, n);
    ControlHasOrigin(env, w, c);
    SampleMoves(env, w.nodes[n], op.s, op.readAt, op.againAt);
    DeadlinePassed(env, w, n, op.s.again.us, op.againAt, c, t);
  }

  // ----- the timing table -----

  /** Every pending control command of an epoch has its timing window, with the
      stored identity and digest, and the table is never over its capacity. */
  lemma TableMatchesLedger(env: Env, acts: seq<Action>, w: World, e: Id)
    requires Reaches(env, acts, w) && e in w.nodes
    ensures |w.nodes[e].auth.windows| <= MAX_WINDOWS
    ensures forall c :: OwnPending(w.db, e, c) ==>
              && c in w.nodes[e].auth.windows
              && w.nodes[e].auth.windows[c].identity == IdentityOf(c, w.db.commands[c])
              && w.nodes[e].auth.windows[c].digest == w.db.controls[c].digest == Sha256(w.db.controls[c].payload)
  {
    hide Good, Reaches, Exec, Apply, PossibleRun;
    ReachedIsGood(env, acts, w);
    WindowFacts(env, w, e);
    DigestsMatch(env, w);
    forall c | OwnPending(w.db, e, c)
      ensures c in w.nodes[e].auth.windows && w.nodes[e].auth.windows[c].identity == IdentityOf(c, w.db.commands[c])
    {
      assert WindowOk(w.db, w.origins, e, w.nodes[e].auth.clock, c, w.nodes[e].auth.windows[c]);
    }
  }

  lemma DigestsMatch(env: Env, w: World)
    requires Good(env, w)
    ensures forall c :: c in w.db.controls ==> w.db.controls[c].digest == Sha256(w.db.controls[c].payload)
  {
    hide NodeOk, OriginsOk, BindingsUnique;
    forall c | c in w.db.controls
      ensures w.db.controls[c].digest == Sha256(w.db.controls[c].payload)
    {
      assert Recorded(w.db, c, History(w.log, c));
    }
  }

  /** A pending command of the own epoch is judged by its window: with an accepted
      reading the answer is definite, and it is the calendar answer as well. */
  lemma OwnExpiryIsCalendarExpiry(env: Env, acts: seq<Action>, w: World, e: Id, c: Id, r: TickReading)
    requires Reaches(env, acts, w) && e in w.nodes && OwnPending(w.db, e, c) && w.nodes[e].auth.clock.Accepts(r)
    ensures w.nodes[e].auth.clock.anchor.Utc?
    ensures ExpiredStep(w.nodes[e].auth, c, w.db.controls[c], r).1
         == Done(w.nodes[e].auth.clock.LogicalAt(r.us) >= w.db.commands[c].expiresAt)
  {
    hide Good, Reaches, Exec, Apply, PossibleRun;
    ReachedIsGood(env, acts, w);
    WindowFacts(env, w, e);
    FenceFacts(env, w, e);
    assert WindowOk(w.db, w.origins, e, w.nodes[e].auth.clock, c, w.nodes[e].auth.windows[c]);
  }

  /** For every prepared command, a tick is at the deadline exactly when the logical
      time is at the stored expiry. */
  lemma TickDeadlineIsCalendarDeadline(env: Env, acts: seq<Action>, w: World, e: Id, c: Id, tick: int)
    requires Reaches(env, acts, w) && e in w.nodes && c in w.nodes[e].auth.windows
    ensures w.nodes[e].auth.clock.anchor.Utc? && c in w.db.commands
    ensures tick >= w.nodes[e].auth.windows[c].deadline <==> w.nodes[e].auth.clock.LogicalAt(tick) >= w.db.commands[c].expiresAt
  {
    hide Good, Reaches, Exec, Apply, PossibleRun;
    ReachedIsGood(env, acts, w);
    WindowFacts(env, w, e);
    assert WindowOk(w.db, w.origins, e, w.nodes[e].auth.clock, c, w.nodes[e].auth.windows[c]);
  }

  // ----- limits -----

  /** Both in-memory tables stay far below their capacity checks, so neither check
      ever refuses a request, whatever the next tick is. */
  lemma CapacityNeverRefuses(env: Env, acts: seq<Action>, w: World, e: Id, tick: int)
    requires Reaches(env, acts, w) && e in w.nodes
    ensures |w.nodes[e].auth.limiter.rates| <= 200 && |Fresh(w.nodes[e].auth.limiter.rates, tick)| < MAX_RATES
    ensures |w.nodes[e].auth.replies| <= 300 && |LiveReplies(w.nodes[e].auth.replies, tick)| < MAX_REPLIES
  {
    hide Good, Reaches, Exec, Apply, PossibleRun;
    ReachedIsGood(env, acts, w);
    NodeLimited(env, w, e);
    SubmapSize(w.nodes[e].auth.limiter.rates, Fresh(w.nodes[e].auth.limiter.rates, tick));
    SubmapSize(w.nodes[e].auth.replies, LiveReplies(w.nodes[e].auth.replies, tick));
  }

  /** Permits issued with lo <= tick < hi. */
  function GrantsIn(passes: seq<Pass>, lo: int, hi: int): nat {
    if passes == [] then 0
    else GrantsIn(passes[..|passes| - 1], lo, hi)
         + (if lo <= passes[|passes| - 1].tick < hi && passes[|passes| - 1].grant.Some? then 1 else 0)
  }

  lemma {:induction false} GrantsArePasses(passes: seq<Pass>, lo: int, hi: int)
    ensures GrantsIn(passes, lo, hi) <= CountIn(passes, lo, hi)
  {
    if passes != [] {
      GrantsArePasses(passes[..|passes| - 1], lo, hi);
    }
  }

  /** At most 200 permits are issued in any window of a million ticks. */
  lemma GrantRateBounded(env: Env, acts: seq<Action>, w: World, e: Id, from: int)
    requires Reaches(env, acts, w) && e in w.nodes
    ensures GrantsIn(w.nodes[e].passes, from, from + SECOND) <= 200
  {
    hide Good, Reaches, Exec, Apply, PossibleRun;
    ReachedIsGood(env, acts, w);
    NodeLimited(env, w, e);
    PassesPerWindow(w.nodes[e].auth.limiter, w.nodes[e].passes, w.nodes[e].auth.clock.last, from);
    GrantsArePasses(w.nodes[e].passes, from, from + SECOND);
  }

  /** Of any three permits that one epoch gives a device, the first has expired before
      the third is issued: at most two unexpired permits per device and epoch. */
  lemma AtMostTwoUnexpiredPermits(env: Env, acts: seq<Action>, w: World, e: Id, i: nat, j: nat, k: nat)
    requires Reaches(env, acts, w) && e in w.nodes
    requires var passes := w.nodes[e].passes;
             && i < j < k < |passes| && passes[i].key == passes[j].key == passes[k].key
             && passes[i].grant.Some? && passes[j].grant.Some? && passes[k].grant.Some?
    ensures w.nodes[e].passes[i].grant.value.validUntilTick < w.nodes[e].passes[k].tick
  {
    hide Good, Reaches, Exec, Apply, PossibleRun;
    ReachedIsGood(env, acts, w);
    NodeLimited(env, w, e);
    AtMostTwoUnexpired(w.nodes[e].passes, i, j, k, w.nodes[e].passes[i].grant.value);
  }

  // ----- the hardware promise can be kept -----

  /** Real time rounded down is a counter of whole ticks, off by less than one tick
      in either direction between any two readings. */
  lemma RoundedTimeIsHonest(ratePpm: nat, errorUs: nat) returns (env: Env)
    requires ratePpm < PPM && 2 <= errorUs
    ensures Honest(env) && ValidDrift(env.drift, ratePpm, errorUs)
  {
    env := Env((_: Id, t: real) => t.Floor, Drift(0.0, 1.0, 1.0));
  }

  function AfterSteps(step: real, n: nat): real {
    if n == 0 then 0.0 else AfterSteps(step, n - 1) + step
  }

  lemma {:induction false} AfterStepsIsProduct(step: real, n: nat)
    ensures AfterSteps(step, n) == n as real * step
  {
    if n > 0 {
      AfterStepsIsProduct(step, n - 1);
      assert n as real == (n - 1) as real + 1.0;
      assert n as real * step == (n - 1) as real * step + step;
    }
  }

  lemma Advance(env: Env, e: Id, from: real, step: real)
    requires Steady(env, e) && 0.0 <= step
    ensures MayAdvance(env.drift, step, env.counter(e, from + step) - env.counter(e, from))
  {
    hide MayAdvance;
    var to := from + step;
    assert from <= to && to - from == step;
    assert MayAdvance(env.drift, to - from, env.counter(e, to) - env.counter(e, from));
  }

  lemma {:induction false} NoTicksInSmallSteps(env: Env, step: real, n: nat)
    requires Steady(env, 0) && 0.0 < step && (1.0 + env.drift.rate) * step + env.drift.ahead < 1.0
    ensures env.counter(0, AfterSteps(step, n)) <= env.counter(0, 0.0)
  {
    hide Steady;
    if n > 0 {
      NoTicksInSmallSteps(env, step, n - 1);
      Advance(env, 0, AfterSteps(step, n - 1), step);
    }
  }

  lemma {:induction false} TicksInEveryStep(env: Env, step: real, n: nat)
    requires Steady(env, 0) && 0.0 < step && (1.0 - env.drift.rate) * step > env.drift.behind
    ensures env.counter(0, AfterSteps(step, n)) >= env.counter(0, 0.0) + n
  {
    hide Steady;
    if n > 0 {
      TicksInEveryStep(env, step, n - 1);
      Advance(env, 0, AfterSteps(step, n - 1), step);
    }
  }

  lemma EnoughSteps(step: real, goal: real) returns (n: nat)
    requires 0.0 < step && 0.0 <= goal
    ensures n as real * step > goal
  {
    n := (goal / step).Floor + 1;
    var more := n as real - goal / step;
    assert 0.0 < more && 0.0 < more * step;
    assert n as real * step == goal / step * step + more * step;
  }

  /** A counter of whole ticks needs a whole tick of room ahead. */
  lemma NeedsRoomAhead(env: Env, ratePpm: nat, errorUs: nat)
    requires Steady(env, 0) && ValidDrift(env.drift, ratePpm, errorUs)
    ensures 1.0 <= env.drift.ahead
  {
    hide Steady;
    var d := env.drift;
    if d.ahead < 1.0 {
      var step := (1.0 - d.ahead) / 4.0;
      assert 0.0 < 1.0 - d.rate && 0.0 < (1.0 - d.rate) * step;
      var n := EnoughSteps((1.0 - d.rate) * step, d.behind);
      NoTicksInSmallSteps(env, step, n);
      AfterStepsIsProduct(step, n);
      assert n as real * ((1.0 - d.rate) * step) == (1.0 - d.rate) * AfterSteps(step, n);
      Advance(env, 0, 0.0, AfterSteps(step, n));
      assert false;
    }
  }

  /** With no more than that, it would have to tick at every instant. */
  lemma NeedsTwoTicks(env: Env, ratePpm: nat, errorUs: nat)
    requires Steady(env, 0) && ValidDrift(env.drift, ratePpm, errorUs)
    ensures 2 <= errorUs
  {
    hide Steady;
    NeedsRoomAhead(env, ratePpm, errorUs);
    if errorUs < 2 {
      TicksInEveryStep(env, 0.25, 4);
      AfterStepsIsProduct(0.25, 4);
      Advance(env, 0, 0.0, 1.0);
      assert false;
    }
  }

  /** The theorems about honest hardware apply to exactly the configurations that
      tolerate two microseconds or more between readings. */
  lemma HonestHardwareExistsExactlyWhen(ratePpm: nat, errorUs: nat)
    requires ratePpm < PPM
    ensures (exists env :: Honest(env) && ValidDrift(env.drift, ratePpm, errorUs)) <==> 2 <= errorUs
  {
    if 2 <= errorUs {
      var env := RoundedTimeIsHonest(ratePpm, errorUs);
    }
    if env :| Honest(env) && ValidDrift(env.drift, ratePpm, errorUs) {
      NeedsTwoTicks(env, ratePpm, errorUs);
    }
  }
}
