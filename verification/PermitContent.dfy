/** What a candidate and a permit tell the device, in every run: nothing but what the
    store and the clock of their epoch say. */
module PermitContent {
  import opened Common
  import opened CommandRecords
  import opened ControlClock
  import opened ControlAuthority
  import opened PermitLimiter
  import opened AuthorityRuns
  import opened AuthorityInvariant
  import opened AuthorityTheorems
  import opened DeliveryDates

  // ----- candidates -----

  /** The candidate bytes of a prepared command repeat its stored row. */
  predicate CandidateTells(db: Database, c: Id)
    requires c in db.controls && c in db.commands
  {
    var wire, row := db.controls[c].payload, db.commands[c];
    && wire.epoch == db.controls[c].epoch && wire.commandId == c && wire.correlationId == row.correlationId
    && wire.createdAt == row.createdAt && wire.expiresAt == row.expiresAt && wire.on == row.requestedOn
  }

  predicate CandidatesTell(db: Database) {
    forall c :: c in db.controls ==> c in db.commands && CandidateTells(db, c)
  }

  lemma PreparedCandidateTells(a: Authority, db: Database, i: Intent, admission: Outcome<()>, s: SampleReads)
    requires CandidatesTell(db)
    ensures CandidatesTell(PrepareStep(a, db, i, admission, s).db)
  {
    hide SampleStep, Pruned, Timely;
  }

  lemma StepKeepsCandidates(env: Env, w: World, act: Action)
    requires Good(env, w) && Possible(env, w, act) && CandidatesTell(w.db)
    ensures CandidatesTell(Apply(w, act).db)
  {
    hide Good, NodeOk;
    StepGrows(env, w, act);
    if act.Call? && act.op.Prepare? {
      hide PrepareStep;
      PreparedCandidateTells(w.nodes[act.epoch].auth, w.db, act.op.intent, act.op.admission, act.op.s);
    } else {
      NoNewControls(env, w, act);
      hide Apply, Possible;
    }
  }

  lemma NoNewControls(env: Env, w: World, act: Action)
    requires Possible(env, w, act) && !(act.Call? && act.op.Prepare?)
    ensures Apply(w, act).db.controls.Keys == w.db.controls.Keys
  {
    hide StageStep, RequestStep, ValidateStep, ExpiredStep, InitializeStep;
    if act.Call? && act.op.Stage? {
      StageKeepsControls(w.nodes[act.epoch].auth, w.db, act.op.device, act.op.commandId, act.op.admission, act.op.s);
    } else if act.Call? && act.op.Request? {
      RequestKeepsControls(w.nodes[act.epoch].auth, w.db, act.op.device, act.op.q, act.op.admission, act.op.s);
    }
  }

  lemma StageKeepsControls(a: Authority, db: Database, at: Device, c: Id, admission: Outcome<()>, s: SampleReads)
    ensures StageStep(a, db, at, c, admission, s).db.controls == db.controls
  {
    hide SampleStep, Current;
  }

  lemma RequestKeepsControls(a: Authority, db: Database, at: Device, q: PermitRequest, admission: Outcome<()>, s: SampleReads)
    ensures RequestStep(a, db, at, q, admission, s).db.controls.Keys == db.controls.Keys
  {
    hide SampleStep, LimitStep, LiveReplies, BindingFree;
  }

  // ----- permits -----

  /** What the pass `p` of an epoch with this clock put into a permit: its own logical
      time, the stored deadline of the command, and how long the permit lasts. */
  predicate IssuedBy(clock: Clock, deadline: int, expiresAt: int, p: Pass, d: Delivery) {
    && p.grant == Some(d) && d.payload.Grant? && clock.anchor.Utc?
    && d.payload.coreTime == clock.anchor.us + p.tick - clock.start
    && d.payload.expiresAt == expiresAt && d.payload.coreTime < d.payload.expiresAt
    && d.payload.remainingUs == (if deadline - p.tick < 2_000_000 then deadline - p.tick else 2_000_000) - 1
    && 0 < d.payload.remainingUs && d.validUntilTick == p.tick + d.payload.remainingUs && d.deadlineTick == deadline
  }

  /** The permit of request `q` from device `at` says what was true when epoch `e` issued
      it, in the pass that first let this request through. */
  ghost predicate Truthful(w: World, e: Id, at: Device, q: PermitRequest, d: Delivery) {
    var c := q.commandId;
    && e in w.nodes && c in w.origins && c in w.db.commands && c in w.db.controls
    && d.grant && d.epoch == e == q.coreEpoch && d.commandId == c && q.intent == w.db.controls[c].digest
    && d.payload.Grant? && d.payload.request == q
    && exists i :: 0 <= i < |w.nodes[e].passes| && w.nodes[e].passes[i].key == at
         && IssuedBy(w.nodes[e].auth.clock, w.origins[c].deadline, w.db.commands[c].expiresAt, w.nodes[e].passes[i], d)
  }

  /** The event hands out a truthful permit, for a request with its binding. */
  ghost predicate TruthfulEvent(w: World, ev: Event) {
    ev.Granted? ==>
      && ev.delivery.payload.Grant?
      && (var at, q := Device(ev.binding.houseId, ev.binding.deviceId), ev.delivery.payload.request;
          && q.commandId == ev.commandId && ev.binding == BindingOf(at, q)
          && Truthful(w, q.coreEpoch, at, q, ev.delivery))
  }

  ghost predicate AllTruthful(w: World) {
    forall i :: 0 <= i < |w.log| ==> TruthfulEvent(w, w.log[i])
  }

  /** A request that was granted afresh. */
  lemma IssueTells(a: Authority, db: Database, at: Device, q: PermitRequest, admission: Outcome<()>, s: SampleReads)
    requires var r := RequestStep(a, db, at, q, admission, s); r.passed && r.answer.Done?
    ensures var d, c := RequestStep(a, db, at, q, admission, s).answer.value, q.commandId;
            && c in a.windows && c in db.commands && c in db.controls && s.tick.Ticks? && a.clock.anchor.Utc?
            && s.tick.us < a.windows[c].deadline && a.windows[c].identity == IdentityOf(c, db.commands[c])
            && q.coreEpoch == a.Epoch() && q.intent == db.controls[c].digest
            && d.payload.Grant? && d.payload.request == q && d.grant && d.epoch == a.Epoch() && d.commandId == c
            && d.payload.coreTime == a.clock.anchor.us + s.tick.us - a.clock.start
            && d.payload.expiresAt == db.commands[c].expiresAt
            && d.payload.remainingUs == (if a.windows[c].deadline - s.tick.us < 2_000_000 then a.windows[c].deadline - s.tick.us else 2_000_000) - 1
            && 0 < d.payload.remainingUs && d.validUntilTick == s.tick.us + d.payload.remainingUs
            && d.deadlineTick == a.windows[c].deadline
  {
    hide LimitStep, LiveReplies, BindingFree;
    SampleGranted(a.clock, s);
    ClockOnlyMovesForward(a.clock, s);
  }

  lemma FirstGrantIsTruthful(env: Env, w: World, e: Id, at: real, op: Op)
    requires Good(env, w) && Possible(env, w, Call(e, at, op)) && op.Request?
    requires RequestStep(w.nodes[e].auth, w.db, op.device, op.q, op.admission, op.s).passed
    requires RequestStep(w.nodes[e].auth, w.db, op.device, op.q, op.admission, op.s).answer.Done?
    ensures Truthful(Apply(w, Call(e, at, op)), e, op.device, op.q,
              RequestStep(w.nodes[e].auth, w.db, op.device, op.q, op.admission, op.s).answer.value)
  {
    hide Good, RequestStep, LimiterUse, BindingFree;
    var n, w', c := w.nodes[e], Apply(w, Call(e, at, op)), op.q.commandId;
    var r := RequestStep(n.auth, w.db, op.device, op.q, op.admission, op.s);
    NodeEpoch(env, w, e);
    WindowFacts(env, w, e);
    RequestCases(env, w, e, at, op);
    IssueTells(n.auth, w.db, op.device, op.q, op.admission, op.s);
    assert WindowOk(w.db, w.origins, e, n.auth.clock, c, n.auth.windows[c]);
    var p := Pass(op.device, op.s.tick.us, Some(r.answer.value));
    assert w'.nodes[e].passes == n.passes + [p] && w'.nodes[e].passes[|n.passes|] == p;
  }

  /** Nothing that a permit was drawn up from ever changes. */
  lemma TruthStays(env: Env, w: World, act: Action, e: Id, at: Device, q: PermitRequest, d: Delivery)
    requires Good(env, w) && Possible(env, w, act) && Truthful(w, e, at, q, d)
    ensures Truthful(Apply(w, act), e, at, q, d)
  {
    hide Good, Possible, Apply;
    var w', c := Apply(w, act), q.commandId;
    StepGrows(env, w, act);
    ZeroKept(env, w, act, e);
    PassesGrow(env, w, act, e);
    var i :| 0 <= i < |w.nodes[e].passes| && w.nodes[e].passes[i].key == at
         && IssuedBy(w.nodes[e].auth.clock, w.origins[c].deadline, w.db.commands[c].expiresAt, w.nodes[e].passes[i], d);
    assert w'.nodes[e].passes[i] == w.nodes[e].passes[i];
    assert IdentityOf(c, w'.db.commands[c]) == IdentityOf(c, w.db.commands[c]);
  }

  lemma PassesGrow(env: Env, w: World, act: Action, e: Id)
    requires e in w.nodes && Possible(env, w, act)
    ensures e in Apply(w, act).nodes && w.nodes[e].passes <= Apply(w, act).nodes[e].passes
  {
    hide PrepareStep, StageStep, RequestStep, ValidateStep, ExpiredStep, InitializeStep, PossibleOp;
  }

  lemma EventStaysTruthful(env: Env, w: World, act: Action, ev: Event)
    requires Good(env, w) && Possible(env, w, act) && TruthfulEvent(w, ev)
    ensures TruthfulEvent(Apply(w, act), ev)
  {
    hide Good, Possible, Apply, Truthful;
    if ev.Granted? {
      var q := ev.delivery.payload.request;
      TruthStays(env, w, act, q.coreEpoch, Device(ev.binding.houseId, ev.binding.deviceId), q, ev.delivery);
    }
  }

  /** The event of a repeated grant is one that is in the log already. */
  lemma RepeatIsLogged(env: Env, w: World, e: Id, at: real, op: Op) returns (i: nat)
    requires Good(env, w) && Possible(env, w, Call(e, at, op)) && op.Request?
    requires var r := RequestStep(w.nodes[e].auth, w.db, op.device, op.q, op.admission, op.s); r.answer.Done? && !r.passed
    ensures i < |w.log| && w.log[i] == Granted(op.q.commandId, BindingOf(op.device, op.q),
              RequestStep(w.nodes[e].auth, w.db, op.device, op.q, op.admission, op.s).answer.value)
  {
    hide Good, RequestStep, LimiterUse, BindingFree, History;
    NodeEpoch(env, w, e);
    RequestCases(env, w, e, at, op);
    ReplyKnown(env, w, e, op.q.commandId);
    i := HistoryIsLogged(w.log, op.q.commandId, 2);
  }

  lemma NewEventIsTruthful(env: Env, w: World, act: Action, ev: Event)
    requires Good(env, w) && AllTruthful(w) && Possible(env, w, act) && Apply(w, act).log == w.log + [ev]
    ensures TruthfulEvent(Apply(w, act), ev)
  {
    hide Good, PrepareStep, StageStep, RequestStep, ValidateStep, ExpiredStep, InitializeStep, Truthful;
    assert (w.log + [ev])[|w.log|] == ev;
    if ev.Granted? {
      assert act.Call? && act.op.Request?;
      var r := RequestStep(w.nodes[act.epoch].auth, w.db, act.op.device, act.op.q, act.op.admission, act.op.s);
      if r.passed {
        FirstGrantIsTruthful(env, w, act.epoch, act.at, act.op);
        GrantTellsRequest(Apply(w, act), act.epoch, act.op.device, act.op.q, r.answer.value);
      } else {
        var i := RepeatIsLogged(env, w, act.epoch, act.at, act.op);
        EventStaysTruthful(env, w, act, w.log[i]);
      }
    }
  }

  lemma GrantTellsRequest(w: World, e: Id, at: Device, q: PermitRequest, d: Delivery)
    requires Truthful(w, e, at, q, d)
    ensures d.payload.Grant? && d.payload.request == q && q.coreEpoch == e
  {
  }

  lemma StepKeepsTruth(env: Env, w: World, act: Action)
    requires Good(env, w) && AllTruthful(w) && Possible(env, w, act)
    ensures AllTruthful(Apply(w, act))
  {
    hide Good, Possible, Apply, TruthfulEvent;
    var w' := Apply(w, act);
    forall i | 0 <= i < |w.log|
      ensures TruthfulEvent(w', w.log[i])
    {
      EventStaysTruthful(env, w, act, w.log[i]);
    }
    LogGrowsByOne(w, act);
    if w'.log != w.log {
      var ev :| w'.log == w.log + [ev];
      NewEventIsTruthful(env, w, act, ev);
    }
  }

  lemma NothingToTellAtStart()
    ensures CandidatesTell(START.db) && AllTruthful(START)
  {
  }

  lemma {:induction false} RunTellsTruth(env: Env, acts: seq<Action>, w: World)
    requires Reaches(env, acts, w)
    ensures CandidatesTell(w.db) && AllTruthful(w)
  {
    hide Good, Possible, Apply, CandidatesTell, AllTruthful;
    if acts == [] {
      NothingToTellAtStart();
    } else {
      var before := acts[..|acts| - 1];
      RunTellsTruth(env, before, Exec(START, before));
      ReachedIsGood(env, before, Exec(START, before));
      StepKeepsCandidates(env, Exec(START, before), acts[|acts| - 1]);
      StepKeepsTruth(env, Exec(START, before), acts[|acts| - 1]);
    }
  }

  /** Whenever a request is answered with a permit, new or repeated, that permit is
      truthful about this very request. */
  lemma PermitTellsTruth(env: Env, acts: seq<Action>, w: World, e: Id, at: real, op: Op)
    requires Reaches(env, acts, w) && Possible(env, w, Call(e, at, op)) && op.Request?
    requires RequestStep(w.nodes[e].auth, w.db, op.device, op.q, op.admission, op.s).answer.Done?
    ensures Truthful(Apply(w, Call(e, at, op)), e, op.device, op.q,
              RequestStep(w.nodes[e].auth, w.db, op.device, op.q, op.admission, op.s).answer.value)
  {
    hide Good, Apply, Reaches, RequestStep, Truthful, CandidatesTell;
    ReachedIsGood(env, acts, w);
    RunTellsTruth(env, acts, w);
    if RequestStep(w.nodes[e].auth, w.db, op.device, op.q, op.admission, op.s).passed {
      FirstGrantIsTruthful(env, w, e, at, op);
    } else {
      var i := RepeatIsLogged(env, w, e, at, op);
      EventStaysTruthful(env, w, Call(e, at, op), w.log[i]);
      RequestIsBound(env, w, e, at, op, w.log[i].delivery);
    }
  }

  /** The device session and the candidate determine the whole request. */
  lemma RequestIsBound(env: Env, w: World, e: Id, at: real, op: Op, d: Delivery)
    requires Good(env, w) && Possible(env, w, Call(e, at, op)) && op.Request? && d.payload.Grant?
    requires RequestStep(w.nodes[e].auth, w.db, op.device, op.q, op.admission, op.s).answer.Done?
    requires var q := d.payload.request;
             && q.commandId == op.q.commandId && BindingOf(op.device, op.q) == BindingOf(op.device, q)
             && Truthful(Apply(w, Call(e, at, op)), q.coreEpoch, op.device, q, d)
    ensures d.payload.request == op.q && op.q.coreEpoch == e
  {
    hide Good;
    NodeEpoch(env, w, e);
    StepGrows(env, w, Call(e, at, op));
    RequestMatches(w.nodes[e].auth, w.db, op.device, op.q, op.admission, op.s);
  }

  lemma RequestMatches(a: Authority, db: Database, at: Device, q: PermitRequest, admission: Outcome<()>, s: SampleReads)
    requires RequestStep(a, db, at, q, admission, s).answer.Done?
    ensures q.commandId in db.controls && q.intent == db.controls[q.commandId].digest && q.coreEpoch == a.Epoch()
  {
    hide SampleStep, LimitStep, LiveReplies, BindingFree;
    ClockOnlyMovesForward(a.clock, s);
  }
}
