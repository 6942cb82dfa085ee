/** The deliveries of a whole run, and the calendar deadline of their commands. */
module DeliveryDates {
  import opened Common
  import opened CommandRecords
  import opened ControlClock
  import opened ControlAuthority
  import opened PermitLimiter
  import opened AuthorityRuns
  import opened AuthorityInvariant
  import opened AuthorityTheorems

  /** The delivery of an event belongs to the epoch and deadline of its command. */
  ghost predicate Dated(origins: map<Id, Origin>, ev: Event) {
    ev.Prepared? ||
    (&& ev.commandId in origins && ev.delivery.commandId == ev.commandId
     && ev.delivery.epoch == origins[ev.commandId].epoch && ev.delivery.deadlineTick == origins[ev.commandId].deadline)
  }

  /** The tick deadline of a command is its calendar deadline on its epoch's clock. */
  ghost predicate OnCalendar(w: World, c: Id)
    requires c in w.origins
  {
    var o := w.origins[c];
    && o.epoch in w.nodes && c in w.db.commands && w.nodes[o.epoch].auth.clock.anchor.Utc?
    && o.deadline - w.nodes[o.epoch].auth.clock.start == w.db.commands[c].expiresAt - w.nodes[o.epoch].auth.clock.anchor.us
  }

  ghost predicate Calendared(w: World) {
    forall c :: c in w.origins ==> OnCalendar(w, c)
  }

  ghost predicate AllDated(w: World) {
    forall i :: 0 <= i < |w.log| ==> Dated(w.origins, w.log[i])
  }

  lemma StagedIsDated(env: Env, w: World, e: Id, at: real, op: Op)
    requires Good(env, w) && Possible(env, w, Call(e, at, op)) && op.Stage?
    ensures var r := StageStep(w.nodes[e].auth, w.db, op.device, op.commandId, op.admission, op.s);
            r.answer.Done? ==> Dated(w.origins, Staged(op.commandId, r.answer.value))
  {
    hide Good;
    WindowFacts(env, w, e);
    FenceFacts(env, w, e);
    SampleMoves(env, w.nodes[e], op.s, op.readAt, op.againAt);
    if op.commandId in w.nodes[e].auth.windows {
      assert WindowOk(w.db, w.origins, e, w.nodes[e].auth.clock, op.commandId, w.nodes[e].auth.windows[op.commandId]);
    }
  }

  lemma GrantIsForWindow(a: Authority, db: Database, at: Device, q: PermitRequest, admission: Outcome<()>, s: SampleReads)
    requires RequestStep(a, db, at, q, admission, s).answer.Done?
    ensures var d := RequestStep(a, db, at, q, admission, s).answer.value;
            || (q.commandId in a.replies && d == a.replies[q.commandId].delivery)
            || (q.commandId in a.windows && d.commandId == q.commandId && d.epoch == a.Epoch()
                && d.deadlineTick == a.windows[q.commandId].deadline)
  {
    hide LimitStep, LiveReplies, BindingFree;
    ClockOnlyMovesForward(a.clock, s);
  }

  lemma {:induction false} HistoryIsLogged(log: seq<Event>, c: Id, k: nat) returns (i: nat)
    requires k < |History(log, c)|
    ensures i < |log| && log[i] == History(log, c)[k]
  {
    if k < |History(log[..|log| - 1], c)| {
      i := HistoryIsLogged(log[..|log| - 1], c, k);
    } else {
      i := |log| - 1;
    }
  }

  lemma GrantedIsDated(env: Env, w: World, e: Id, at: real, op: Op)
    requires Good(env, w) && AllDated(w) && Possible(env, w, Call(e, at, op)) && op.Request?
    ensures var r := RequestStep(w.nodes[e].auth, w.db, op.device, op.q, op.admission, op.s);
            r.answer.Done? ==> Dated(w.origins, Granted(op.q.commandId, BindingOf(op.device, op.q), r.answer.value))
  {
    hide Good, RequestStep, PossibleOp;
    var c := op.q.commandId;
    if RequestStep(w.nodes[e].auth, w.db, op.device, op.q, op.admission, op.s).answer.Done? {
      WindowFacts(env, w, e);
      FenceFacts(env, w, e);
      GrantIsForWindow(w.nodes[e].auth, w.db, op.device, op.q, op.admission, op.s);
      if c in w.nodes[e].auth.replies {
        ReplyKnown(env, w, e, c);
        var i := HistoryIsLogged(w.log, c, 2);
        assert Dated(w.origins, w.log[i]);
      }
      if c in w.nodes[e].auth.windows {
        assert WindowOk(w.db, w.origins, e, w.nodes[e].auth.clock, c, w.nodes[e].auth.windows[c]);
      }
    }
  }

  lemma PreparedIsCalendared(env: Env, w: World, e: Id, at: real, op: Op)
    requires Good(env, w) && Possible(env, w, Call(e, at, op)) && op.Prepare?
    requires PrepareStep(w.nodes[e].auth, w.db, op.intent, op.admission, op.s).answer.Done?
    ensures var w' := Apply(w, Call(e, at, op));
            op.intent.commandId in w'.origins && OnCalendar(w', op.intent.commandId)
  {
    hide Good, PrepareStep, SampleStep;
    NodeEpoch(env, w, e);
    PreparedEffect(env, w, e, at, op);
  }

  predicate SameZero(c: Clock, d: Clock) {
    d.start == c.start && d.anchor == c.anchor
  }

  lemma OperationKeepsZero(a: Authority, db: Database, op: Op)
    ensures match op
            case Initialize(r, _) => SameZero(a.clock, InitializeStep(a, db, r).0.clock)
            case Prepare(i, admission, s, _, _) => SameZero(a.clock, PrepareStep(a, db, i, admission, s).auth.clock)
            case Stage(at, c, admission, s, _, _) => SameZero(a.clock, StageStep(a, db, at, c, admission, s).auth.clock)
            case Request(at, q, admission, s, _, _) => SameZero(a.clock, RequestStep(a, db, at, q, admission, s).auth.clock)
            case Validate(d, s, _, _) => SameZero(a.clock, ValidateStep(a, d, s).0.clock)
            case Expired(c, r, _) => forall record :: SameZero(a.clock, ExpiredStep(a, c, record, r).0.clock)
            case LogicalNow(r, _) => SameZero(a.clock, LogicalNowStep(a.clock, r).0)
  {
    hide Pruned, LimitStep, LiveReplies, BindingFree, Current, Matches, Admits, Preparable;
  }

  /** Clocks keep their zero and their anchor, and processes are never forgotten. */
  lemma ZeroKept(env: Env, w: World, act: Action, e: Id)
    requires Possible(env, w, act) && e in w.nodes
    ensures e in Apply(w, act).nodes
    ensures SameZero(w.nodes[e].auth.clock, Apply(w, act).nodes[e].auth.clock)
  {
    hide PrepareStep, StageStep, RequestStep, ValidateStep, ExpiredStep, InitializeStep, PossibleOp;
    if act.Call? && act.epoch == e {
      OperationKeepsZero(w.nodes[e].auth, w.db, act.op);
    }
  }

  /** New origins come with a successful prepare only. */
  lemma NewOrigin(env: Env, w: World, act: Action, c: Id)
    requires Good(env, w) && Possible(env, w, act) && c in Apply(w, act).origins && c !in w.origins
    ensures act.Call? && act.op.Prepare? && act.op.intent.commandId == c
    ensures PrepareStep(w.nodes[act.epoch].auth, w.db, act.op.intent, act.op.admission, act.op.s).answer.Done?
  {
    hide Good, PrepareStep, StageStep, RequestStep, ValidateStep, ExpiredStep, InitializeStep, Possible;
  }

  lemma NewEvent(env: Env, w: World, act: Action, ev: Event)
    requires Good(env, w) && AllDated(w) && Possible(env, w, act) && Apply(w, act).log == w.log + [ev]
    ensures Dated(w.origins, ev)
  {
    hide Good, PrepareStep, StageStep, RequestStep, ValidateStep, ExpiredStep, InitializeStep;
    assert (w.log + [ev])[|w.log|] == ev;
    if act.Call? && act.op.Stage? {
      StagedIsDated(env, w, act.epoch, act.at, act.op);
    } else if act.Call? && act.op.Request? {
      GrantedIsDated(env, w, act.epoch, act.at, act.op);
    }
  }

  lemma LogGrowsByOne(w: World, act: Action)
    ensures Apply(w, act).log == w.log || (exists ev :: Apply(w, act).log == w.log + [ev])
  {
    hide PrepareStep, StageStep, RequestStep, ValidateStep, ExpiredStep, InitializeStep;
  }

  lemma StepKeepsDates(env: Env, w: World, act: Action)
    requires Good(env, w) && AllDated(w) && Calendared(w) && Possible(env, w, act)
    ensures AllDated(Apply(w, act)) && Calendared(Apply(w, act))
  {
    hide Good, Possible, Apply;
    var w' := Apply(w, act);
    StepGrows(env, w, act);
    LogGrowsByOne(w, act);
    if w'.log != w.log {
      var ev :| w'.log == w.log + [ev];
      NewEvent(env, w, act, ev);
    }
    forall c | c in w'.origins
      ensures OnCalendar(w', c)
    {
      if c in w.origins {
        assert OnCalendar(w, c);
        ZeroKept(env, w, act, w.origins[c].epoch);
      } else {
        NewOrigin(env, w, act, c);
        PreparedIsCalendared(env, w, act.epoch, act.at, act.op);
      }
    }
  }

  lemma {:induction false} RunKeepsDates(env: Env, acts: seq<Action>, w: World)
    requires Reaches(env, acts, w)
    ensures AllDated(w) && Calendared(w)
  {
    hide Good, Possible, Apply;
    if acts != [] {
      var before := acts[..|acts| - 1];
      RunKeepsDates(env, before, Exec(START, before));
      ReachedIsGood(env, before, Exec(START, before));
      StepKeepsDates(env, Exec(START, before), acts[|acts| - 1]);
    }
  }

  /** Whatever was staged or granted at any time in a run leaves the process only
      while its own epoch's logical time is before the command's stored deadline and,
      for a permit, before the permit itself runs out; by then the stage, and the
      binding of a permit, are durable. */
  lemma NothingLeavesLate(env: Env, acts: seq<Action>, w: World, e: Id, at: real, i: nat, s: SampleReads, readAt: real, againAt: real)
    requires Reaches(env, acts, w) && i < |w.log| && !w.log[i].Prepared?
    requires Possible(env, w, Call(e, at, Validate(w.log[i].delivery, s, readAt, againAt)))
    requires ValidateStep(w.nodes[e].auth, w.log[i].delivery, s).1.Done?
    ensures var c, clock := w.log[i].commandId, w.nodes[e].auth.clock;
            && c in w.db.commands && c in w.db.controls && w.db.controls[c].epoch == e
            && w.db.commands[c].dispatchStartedAt.Some?
            && s.tick.us == env.counter(e, readAt) && clock.anchor.Utc?
            && clock.LogicalAt(s.tick.us) < w.db.commands[c].expiresAt
    ensures w.log[i].Granted? ==>
              && w.db.controls[w.log[i].commandId].binding == Some(w.log[i].binding)
              && s.tick.us < w.log[i].delivery.validUntilTick < w.log[i].delivery.deadlineTick
  {
    hide Good, Reaches, Exec, Apply, PossibleRun, LegalHistory, Recorded, History;
    ReachedIsGood(env, acts, w);
    RunKeepsDates(env, acts, w);
    FenceFacts(env, w, e);
    SampleMoves(env, w.nodes[e], s, readAt, againAt);
    assert Dated(w.origins, w.log[i]);
    var c := w.log[i].commandId;
    assert OnCalendar(w, c);
    OriginFacts(env, w, c);
    LoggedIsRecorded(env, acts, w, i);
  }

  lemma {:induction false} LoggedIsHistory(log: seq<Event>, i: nat) returns (k: nat)
    requires i < |log|
    ensures k < |History(log, log[i].commandId)| && History(log, log[i].commandId)[k] == log[i]
  {
    if i == |log| - 1 {
      k := |History(log[..i], log[i].commandId)|;
    } else {
      k := LoggedIsHistory(log[..|log| - 1], i);
    }
  }

  /** A logged stage or grant is durable, and a logged grant is a short permit. */
  lemma LoggedIsRecorded(env: Env, acts: seq<Action>, w: World, i: nat)
    requires Reaches(env, acts, w) && i < |w.log| && !w.log[i].Prepared?
    ensures var c := w.log[i].commandId;
            && c in w.db.controls && c in w.db.commands && w.db.commands[c].dispatchStartedAt.Some?
            && (w.log[i].Granted? ==> w.db.controls[c].binding == Some(w.log[i].binding) && ShortPermit(w.log[i].delivery))
  {
    hide NodeOk, OriginsOk, BindingsUnique, Reaches, Exec, Apply, PossibleRun, History;
    var c := w.log[i].commandId;
    ReachedIsGood(env, acts, w);
    var k := LoggedIsHistory(w.log, i);
    assert LegalHistory(History(w.log, c)) && Recorded(w.db, c, History(w.log, c));
  }
}
