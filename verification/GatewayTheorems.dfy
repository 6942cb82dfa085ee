/** What the gateway publishes, in every reachable world. */
module GatewayTheorems {
  import opened Common
  import opened CommandRecords
  import opened ControlClock
  import opened ControlAuthority
  import opened PermitLimiter
  import opened AuthorityRuns
  import opened AuthorityInvariant
  import opened AuthorityTheorems
  import opened DeliveryDates
  import opened PermitContent
  import opened AuthorityAnswers
  import opened ControlGateway
  import M = MqttTopics

  /** A step that asks the authority for something to publish. */
  predicate Asks(op: Op) {
    op.Stage? || op.Request?
  }

  function Asked(a: Authority, db: Database, op: Op): Outcome<Delivery>
    requires Asks(op)
  {
    if op.Stage? then StageStep(a, db, op.device, op.commandId, op.admission, op.s).answer
    else RequestStep(a, db, op.device, op.q, op.admission, op.s).answer
  }

  /** The gateway's reaction: the same call, its final check and the publication. */
  function Reaction(a: Authority, db: Database, link: Link, op: Op, check: SampleReads): Emitted
    requires Asks(op)
  {
    if op.Stage? then SendStep(a, db, link, op.device, op.commandId, op.admission, op.s, check)
    else AnswerStep(a, db, link, op.device, op.q, op.admission, op.s, check)
  }

  function CommandOf(op: Op): Id
    requires Asks(op)
  {
    if op.Stage? then op.commandId else op.q.commandId
  }

  /** A delivery may leave process `e`, whose clock shows `tick`: it is for its
      command, before the stored deadline and its own end, and what it rests on is
      in the store: the stage, and for a permit the one binding it was given for. The
      candidate repeats the stored row, the permit tells the truth. */
  ghost predicate MayLeave(w: World, e: Id, op: Op, d: Delivery, tick: int)
    requires Asks(op)
  {
    var c := CommandOf(op);
    && d.commandId == c && d.epoch == e && d.grant == op.Request?
    && e in w.nodes && c in w.db.commands && c in w.db.controls && w.db.controls[c].epoch == e
    && w.db.commands[c].dispatchStartedAt.Some?
    && w.nodes[e].auth.clock.anchor.Utc? && w.nodes[e].auth.clock.LogicalAt(tick) < w.db.commands[c].expiresAt
    && tick < d.validUntilTick <= d.deadlineTick
    && (op.Stage? ==> d.payload == Candidate(w.db.controls[c].payload) && CandidateTells(w.db, c))
    && (op.Request? ==> d.validUntilTick < d.deadlineTick && w.db.controls[c].binding == Some(BindingOf(op.device, op.q)))
    && (op.Request? ==> Truthful(w, e, op.device, op.q, d))
  }

  function EventOf(op: Op, d: Delivery): Event
    requires Asks(op)
  {
    if op.Stage? then Staged(op.commandId, d) else Granted(op.q.commandId, BindingOf(op.device, op.q), d)
  }

  lemma AskedIsLogged(w: World, e: Id, at: real, op: Op)
    requires e in w.nodes && Asks(op) && Asked(w.nodes[e].auth, w.db, op).Done?
    ensures Apply(w, Call(e, at, op)).log == w.log + [EventOf(op, Asked(w.nodes[e].auth, w.db, op).value)]
  {
    hide StageStep, RequestStep;
  }

  lemma StagedDelivery(a: Authority, db: Database, op: Op)
    requires op.Stage? && Asked(a, db, op).Done?
    ensures var d, c := Asked(a, db, op).value, op.commandId;
            && !d.grant && d.validUntilTick == d.deadlineTick
            && c in db.controls && d.payload == Candidate(db.controls[c].payload)
  {
  }

  lemma ValidDelivery(a: Authority, d: Delivery, s: SampleReads)
    requires ValidateStep(a, d, s).1.Done?
    ensures d.epoch == a.Epoch() && s.tick.us < d.validUntilTick && s.tick.us < d.deadlineTick
  {
    SampleGranted(a.clock, s);
  }

  /** The candidate bytes of a staged command are still those of the store later. */
  lemma CandidateStays(env: Env, w: World, e: Id, at: real, op: Op, between: seq<Action>)
    requires Good(env, w) && op.Stage? && Possible(env, w, Call(e, at, op)) && op.commandId in w.db.controls
    requires PossibleRun(env, Apply(w, Call(e, at, op)), between)
    ensures var w2 := Exec(Apply(w, Call(e, at, op)), between);
            op.commandId in w2.db.controls && w2.db.controls[op.commandId].payload == w.db.controls[op.commandId].payload
  {
    hide Good, Apply, Possible;
    StepGrows(env, w, Call(e, at, op));
    StepKeepsGood(env, w, Call(e, at, op));
    RunGrows(env, Apply(w, Call(e, at, op)), between);
  }

  lemma {:induction false} RunExtendsLog(w: World, acts: seq<Action>)
    ensures w.log <= Exec(w, acts).log
  {
    hide Apply;
    if acts != [] {
      RunExtendsLog(w, acts[..|acts| - 1]);
      LogGrowsByOne(Exec(w, acts[..|acts| - 1]), acts[|acts| - 1]);
    }
  }

  lemma {:induction false} RunKeepsNodes(env: Env, w: World, acts: seq<Action>, e: Id)
    requires PossibleRun(env, w, acts) && e in w.nodes
    ensures e in Exec(w, acts).nodes
  {
    hide Possible, Apply;
    if acts != [] {
      RunKeepsNodes(env, w, acts[..|acts| - 1], e);
      ZeroKept(env, Exec(w, acts[..|acts| - 1]), acts[|acts| - 1], e);
    }
  }

  lemma {:induction false} TruthOutlives(env: Env, w: World, acts: seq<Action>, e: Id, at: Device, q: PermitRequest, d: Delivery)
    requires Good(env, w) && PossibleRun(env, w, acts) && Truthful(w, e, at, q, d)
    ensures Truthful(Exec(w, acts), e, at, q, d)
  {
    hide Good, Possible, Apply, Truthful;
    if acts != [] {
      var before := acts[..|acts| - 1];
      TruthOutlives(env, w, before, e, at, q, d);
      RunKeepsGood(env, w, before);
      TruthStays(env, Exec(w, before), acts[|acts| - 1], e, at, q, d);
    }
  }

  lemma AskedTellsTruth(env: Env, acts: seq<Action>, w: World, e: Id, at: real, op: Op, between: seq<Action>)
    requires Reaches(env, acts, w) && op.Request? && e in w.nodes && Possible(env, w, Call(e, at, op))
    requires Asked(w.nodes[e].auth, w.db, op).Done? && PossibleRun(env, Apply(w, Call(e, at, op)), between)
    ensures Truthful(Exec(Apply(w, Call(e, at, op)), between), e, op.device, op.q, Asked(w.nodes[e].auth, w.db, op).value)
  {
    hide Good, Apply, Truthful, Reaches, Possible;
    ReachedIsGood(env, acts, w);
    StepKeepsGood(env, w, Call(e, at, op));
    PermitTellsTruth(env, acts, w, e, at, op);
    TruthOutlives(env, Apply(w, Call(e, at, op)), between, e, op.device, op.q, Asked(w.nodes[e].auth, w.db, op).value);
  }

  /** What was asked for in a reachable world, whatever happens before it is checked:
      if the check lets it through, it may leave. */
  lemma CheckedMayLeave(env: Env, acts: seq<Action>, w: World, e: Id, at: real, op: Op, between: seq<Action>,
                        checkAt: real, check: SampleReads, readAt: real, againAt: real)
    requires Reaches(env, acts, w) && Asks(op) && e in w.nodes && Possible(env, w, Call(e, at, op))
    requires Asked(w.nodes[e].auth, w.db, op).Done?
    requires PossibleRun(env, Apply(w, Call(e, at, op)), between)
    requires var d, w2 := Asked(w.nodes[e].auth, w.db, op).value, Exec(Apply(w, Call(e, at, op)), between);
             && e in w2.nodes && Possible(env, w2, Call(e, checkAt, Validate(d, check, readAt, againAt)))
             && ValidateStep(w2.nodes[e].auth, d, check).1.Done?
    ensures var d, w2 := Asked(w.nodes[e].auth, w.db, op).value, Exec(Apply(w, Call(e, at, op)), between);
            && check.tick.us == env.counter(e, readAt)
            && MayLeave(w2, e, op, d, check.tick.us)
  {
    hide Good, Apply, Possible, Asked, ValidateStep, History, Recorded, LegalHistory, Truthful, CandidateTells;
    var d, w1 := Asked(w.nodes[e].auth, w.db, op).value, Apply(w, Call(e, at, op));
    var w2, all := Exec(w1, between), acts + [Call(e, at, op)] + between;
    assert [Call(e, at, op)][..0] == [] && Exec(w, [Call(e, at, op)]) == w1;
    RunsConcatenate(env, START, acts, [Call(e, at, op)]);
    RunsConcatenate(env, START, acts + [Call(e, at, op)], between);
    AskedIsLogged(w, e, at, op);
    RunExtendsLog(w1, between);
    assert w2.log[|w.log|] == EventOf(op, d);
    NothingLeavesLate(env, all, w2, e, checkAt, |w.log|, check, readAt, againAt);
    LoggedIsRecorded(env, all, w2, |w.log|);
    RunKeepsDates(env, all, w2);
    assert Dated(w2.origins, w2.log[|w.log|]);
    ValidDelivery(w2.nodes[e].auth, d, check);
    ReachedIsGood(env, all, w2);
    NodeEpoch(env, w2, e);
    RunTellsTruth(env, all, w2);
    if op.Request? {
      AskedTellsTruth(env, acts, w, e, at, op, between);
    }
    if op.Stage? {
      StagedDelivery(w.nodes[e].auth, w.db, op);
      ReachedIsGood(env, acts, w);
      CandidateStays(env, w, e, at, op, between);
    }
  }

  /** What the handler of one message does is the run of its two authority calls;
      while the control subscription is missing the second one does not happen. */
  function CallsOf(e: Id, at: real, op: Op, link: Link, granted: Outcome<Delivery>, checkAt: real, check: SampleReads, readAt: real, againAt: real): seq<Action> {
    if granted.Done? && link.connected && link.controlSubscribed
    then [Call(e, at, op), Call(e, checkAt, Validate(granted.value, check, readAt, againAt))]
    else [Call(e, at, op)]
  }

  lemma ExecOne(w: World, act: Action)
    ensures Exec(w, [act]) == Apply(w, act)
  {
    hide Apply;
    assert [act][..0] == [];
  }

  lemma ExecTwo(w: World, act: Action, next: Action)
    ensures Exec(w, [act, next]) == Apply(Apply(w, act), next)
  {
    hide Apply;
    ExecOne(w, act);
    assert [act, next][..1] == [act];
  }

  lemma ReactionIsRun(w: World, e: Id, at: real, op: Op, link: Link, checkAt: real, check: SampleReads, readAt: real, againAt: real)
    requires e in w.nodes && Asks(op)
    ensures var granted, r := Asked(w.nodes[e].auth, w.db, op), Reaction(w.nodes[e].auth, w.db, link, op, check);
            var w' := Exec(w, CallsOf(e, at, op, link, granted, checkAt, check, readAt, againAt));
            e in w'.nodes && w'.nodes[e].auth == r.auth && w'.db == r.db
  {
    hide StageStep, RequestStep, ValidateStep, Exec;
    var granted := Asked(w.nodes[e].auth, w.db, op);
    ExecOne(w, Call(e, at, op));
    if granted.Done? {
      ExecTwo(w, Call(e, at, op), Call(e, checkAt, Validate(granted.value, check, readAt, againAt)));
    }
  }

  /** Nothing that was staged or granted is published unless the last event of the
      connection opened it with every subscription accepted, the control one too. */
  lemma NothingLeavesUnsubscribed(a: Authority, db: Database, ev: LinkEvent, op: Op, check: SampleReads)
    requires Asks(op) && !(ev.Connects? && ev.reached && forall k :: k in SUBSCRIPTIONS ==> k in ev.accepted)
    ensures !Reaction(a, db, LinkAfter(ev), op, check).published.Delivered?
  {
    hide StageStep, RequestStep, ValidateStep;
    assert M.ControlRequest in SUBSCRIPTIONS;
  }

  lemma DeliveredMeansChecked(a: Authority, db: Database, link: Link, op: Op, check: SampleReads)
    requires Asks(op) && Reaction(a, db, link, op, check).published.Delivered?
    ensures link.connected && link.controlSubscribed
    ensures Asked(a, db, op) == Done(Reaction(a, db, link, op, check).published.delivery)
    ensures op.Stage? ==> ValidateStep(StageStep(a, db, op.device, op.commandId, op.admission, op.s).auth, Asked(a, db, op).value, check).1.Done?
    ensures op.Request? ==> ValidateStep(RequestStep(a, db, op.device, op.q, op.admission, op.s).auth, Asked(a, db, op).value, check).1.Done?
  {
    hide StageStep, RequestStep, ValidateStep;
  }

  /** In every reachable world, whatever either handler publishes may leave: in time,
      over a connection with the control subscription, with its stage or its binding
      already in the store that the handler leaves behind. */
  lemma PublishedMayLeave(env: Env, acts: seq<Action>, w: World, e: Id, at: real, op: Op, ev: LinkEvent,
                          checkAt: real, check: SampleReads, readAt: real, againAt: real)
    requires Reaches(env, acts, w) && Asks(op) && e in w.nodes
    requires PossibleRun(env, w, CallsOf(e, at, op, LinkAfter(ev), Asked(w.nodes[e].auth, w.db, op), checkAt, check, readAt, againAt))
    requires Reaction(w.nodes[e].auth, w.db, LinkAfter(ev), op, check).published.Delivered?
    ensures var r, w1 := Reaction(w.nodes[e].auth, w.db, LinkAfter(ev), op, check), Apply(w, Call(e, at, op));
            && r.db == w1.db && check.tick.us == env.counter(e, readAt)
            && MayLeave(w1, e, op, r.published.delivery, check.tick.us)
    ensures ev.Connects? && ev.reached && forall k :: k in SUBSCRIPTIONS ==> k in ev.accepted
  {
    hide Good, StageStep, RequestStep, ValidateStep, Possible, MayLeave, Reaches;
    var a, d := w.nodes[e].auth, Asked(w.nodes[e].auth, w.db, op).value;
    if !(forall k :: k in SUBSCRIPTIONS ==> k in ev.accepted) {
      NothingLeavesUnsubscribed(a, w.db, ev, op, check);
      assert false;
    }
    DeliveredMeansChecked(a, w.db, LinkAfter(ev), op, check);
    var first, second := Call(e, at, op), Call(e, checkAt, Validate(d, check, readAt, againAt));
    ExecOne(w, first);
    assert [first, second][..1] == [first] && [first][..0] == [];
    assert Possible(env, w, first) && Possible(env, Apply(w, first), second);
    CheckedMayLeave(env, acts, w, e, at, op, [], checkAt, check, readAt, againAt);
  }

  // ----- when something is published -----

  /** A delivery of this epoch ends no later than its command. */
  lemma AskedIsOwn(env: Env, acts: seq<Action>, w: World, e: Id, at: real, op: Op)
    requires Reaches(env, acts, w) && Asks(op) && e in w.nodes && Possible(env, w, Call(e, at, op))
    requires Asked(w.nodes[e].auth, w.db, op).Done?
    ensures var d := Asked(w.nodes[e].auth, w.db, op).value;
            d.epoch == e == w.nodes[e].auth.clock.epoch && d.validUntilTick <= d.deadlineTick
  {
    hide Good, Reaches, Apply, Possible, RequestStep;
    ReachedIsGood(env, acts, w);
    NodeEpoch(env, w, e);
    if op.Request? {
      PermitTellsTruth(env, acts, w, e, at, op);
    }
  }

  lemma AskedKeepsEpoch(env: Env, w: World, e: Id, at: real, op: Op)
    requires Good(env, w) && Asks(op) && e in w.nodes && Possible(env, w, Call(e, at, op))
    ensures var w1 := Apply(w, Call(e, at, op));
            e in w1.nodes && w1.nodes[e].auth.clock.epoch == e
            && w1.nodes[e].auth == if op.Stage? then StageStep(w.nodes[e].auth, w.db, op.device, op.commandId, op.admission, op.s).auth
                                   else RequestStep(w.nodes[e].auth, w.db, op.device, op.q, op.admission, op.s).auth
  {
    hide Good, StageStep, RequestStep, Possible;
    StepKeepsGood(env, w, Call(e, at, op));
    NodeEpoch(env, Apply(w, Call(e, at, op)), e);
  }

  /** What is asked for is published if and only if it was granted, the control topics
      are subscribed, the clock is trusted once more and the delivery has not run out.
      A request that is not is denied, or its error raised if the destination is
      unknown; a candidate that is not published leaves the reason as the error. */
  lemma PublishedExactlyWhen(env: Env, acts: seq<Action>, w: World, e: Id, at: real, op: Op, link: Link, check: SampleReads)
    requires Reaches(env, acts, w) && Asks(op) && e in w.nodes && Possible(env, w, Call(e, at, op))
    ensures var w1 := Apply(w, Call(e, at, op));
            var asked, r := Asked(w.nodes[e].auth, w.db, op), Reaction(w.nodes[e].auth, w.db, link, op, check);
            var up := link.connected && link.controlSubscribed;
            && e in w1.nodes
            && (r.published.Delivered? <==>
                  asked.Done? && up && Trusted(w1.nodes[e].auth.clock, check) && check.tick.us < asked.value.validUntilTick)
            && (r.published.Delivered? ==> r.published.delivery == asked.value && r.raised == None)
            && (op.Request? && !r.published.Delivered? ==>
                  if asked == Refused(NotFound) || asked == Refused(InvalidReference)
                  then r.published == Nothing && r.raised == Some(asked.error)
                  else r.published == Denied(op.q) && r.raised == None)
            && (op.Stage? && !r.published.Delivered? ==>
                  && r.published == Nothing
                  && r.raised == Some(if asked.Refused? then asked.error
                                      else if !up || !Trusted(w1.nodes[e].auth.clock, check) then Unavailable
                                      else Conflict))
  {
    hide Good, Reaches, Apply, Possible, StageStep, RequestStep, ValidateStep, Trusted;
    ReachedIsGood(env, acts, w);
    AskedKeepsEpoch(env, w, e, at, op);
    var asked := Asked(w.nodes[e].auth, w.db, op);
    if asked.Done? {
      AskedIsOwn(env, acts, w, e, at, op);
      DeliveryValidExactlyWhen(Apply(w, Call(e, at, op)).nodes[e].auth, asked.value, check);
    }
  }
}
