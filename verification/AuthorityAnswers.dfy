/** When exactly the permit authority says yes, in every reachable state: conditions on
    the stored rows, the clock and the history of requests, and on nothing else. */
module AuthorityAnswers {
  import opened Common
  import opened CommandRecords
  import opened ControlClock
  import opened ControlAuthority
  import opened PermitLimiter
  import opened AuthorityRuns
  import opened AuthorityInvariant
  import opened AuthorityTheorems

  /** The command of this device is pending and was prepared by epoch `e`. */
  predicate Awaiting(db: Database, e: Id, at: Device, c: Id) {
    && c in db.commands && db.commands[c].houseId == at.houseId && db.commands[c].deviceId == at.deviceId
    && (db.commands[c].status == Queued || db.commands[c].status == Dispatched)
    && c in db.controls && db.controls[c].epoch == e
  }

  /** The logical time of a tick. */
  function TimeOf(c: Clock, tick: int): int
    requires c.anchor.Utc?
  {
    c.anchor.us + tick - c.start
  }

  /** The window of an awaiting command says what the store says. */
  lemma AwaitedWindow(env: Env, acts: seq<Action>, w: World, e: Id, at: Device, c: Id)
    requires Reaches(env, acts, w) && e in w.nodes && Awaiting(w.db, e, at, c)
    ensures w.nodes[e].auth.clock.epoch == e && w.nodes[e].auth.clock.anchor.Utc? && c in w.nodes[e].auth.windows
    ensures var window, clock := w.nodes[e].auth.windows[c], w.nodes[e].auth.clock;
            && window.identity == IdentityOf(c, w.db.commands[c])
            && window.digest == w.db.controls[c].digest == Sha256(w.db.controls[c].payload)
            && window.deadline - clock.start == w.db.commands[c].expiresAt - clock.anchor.us
  {
    hide Good, Reaches, Exec, Apply, PossibleRun;
    ReachedIsGood(env, acts, w);
    NodeEpoch(env, w, e);
    assert OwnPending(w.db, e, c);
    TableMatchesLedger(env, acts, w, e);
    WindowFacts(env, w, e);
    assert WindowOk(w.db, w.origins, e, w.nodes[e].auth.clock, c, w.nodes[e].auth.windows[c]);
  }

  // ----- prepare -----

  /** The intent is new, pending and inside its validity interval of at most 30 s. */
  predicate Proper(db: Database, i: Intent, now: int) {
    var row := i.row;
    && i.isTransient && (row.status == Queued || row.status == Dispatched) && row.dispatchStartedAt == None
    && row.createdAt <= now < row.expiresAt && row.expiresAt - row.createdAt <= 30_000_000
    && i.commandId !in db.commands
  }

  /** No stored row has its correlation, its key, or its device still pending. */
  predicate Admissible(db: Database, row: CommandRow) {
    forall c :: c in db.commands ==>
      var other := db.commands[c];
      && other.correlationId != row.correlationId
      && !(other.houseId == row.houseId && other.requestedBy == row.requestedBy && other.idempotencyHash == row.idempotencyHash)
      && !(other.deviceId == row.deviceId && (other.status == Queued || other.status == Dispatched))
  }

  function OwnPendings(db: Database, e: Id): set<Id> {
    set c | c in db.controls && OwnPending(db, e, c)
  }

  lemma {:induction false} KeysBound(windows: map<Id, Window>, keys: set<Id>)
    requires keys <= windows.Keys
    ensures |keys| <= |windows|
  {
    Subsets(keys, windows.Keys);
    assert |windows| == |windows.Keys|;
  }

  lemma {:induction false} Subsets(a: set<Id>, b: set<Id>)
    requires a <= b
    ensures |a| <= |b|
  {
    if x :| x in a {
      Subsets(a - {x}, b - {x});
    }
  }

  /** After pruning there is room if and only if fewer than 4096 commands are pending. */
  lemma RoomExactlyWhen(env: Env, acts: seq<Action>, w: World, e: Id)
    requires Reaches(env, acts, w) && e in w.nodes
    ensures |Pruned(w.nodes[e].auth.windows, w.db)| < MAX_WINDOWS <==> |OwnPendings(w.db, e)| < 4096
  {
    hide Good, Reaches, Exec, Apply, PossibleRun;
    ReachedIsGood(env, acts, w);
    TableMatchesLedger(env, acts, w, e);
    WindowFacts(env, w, e);
    var windows, pruned := w.nodes[e].auth.windows, Pruned(w.nodes[e].auth.windows, w.db);
    KeysBound(windows, OwnPendings(w.db, e));
    KeysBound(pruned, OwnPendings(w.db, e));
    if |windows| >= MAX_WINDOWS {
      forall c | c in pruned
        ensures c in OwnPendings(w.db, e)
      {
        assert WindowOk(w.db, w.origins, e, w.nodes[e].auth.clock, c, windows[c]);
        OriginFacts(env, w, c);
      }
      Subsets(pruned.Keys, OwnPendings(w.db, e));
      assert |pruned| == |pruned.Keys|;
    }
  }

  lemma PrepareExactlyWhen(env: Env, acts: seq<Action>, w: World, e: Id, i: Intent, admission: Outcome<()>, s: SampleReads)
    requires Reaches(env, acts, w) && e in w.nodes
    ensures var a, r := w.nodes[e].auth, PrepareStep(w.nodes[e].auth, w.db, i, admission, s);
            && (r.answer.Done? <==>
                  && admission.Done? && a.recoveryInitialized && Trusted(a.clock, s)
                  && Proper(w.db, i, TimeOf(a.clock, s.tick.us)) && |OwnPendings(w.db, e)| < 4096 && Admissible(w.db, i.row))
            && (r.answer.Done? ==>
                  && r.db.commands == w.db.commands[i.commandId := i.row]
                  && i.commandId in r.db.controls
                  && r.db.controls == w.db.controls[i.commandId := r.db.controls[i.commandId]]
                  && r.db.controls[i.commandId].epoch == e && r.db.controls[i.commandId].binding == None)
            && (r.answer.Refused? ==>
                  && r.db == w.db
                  && r.answer.error == if admission.Refused? then admission.error
                                       else if !a.recoveryInitialized || !Trusted(a.clock, s) then Unavailable
                                       else if !Proper(w.db, i, TimeOf(a.clock, s.tick.us)) then Conflict
                                       else if |OwnPendings(w.db, e)| >= 4096 then Unavailable
                                       else Conflict)
  {
    hide Good, Reaches, Exec, Apply, PossibleRun, SampleStep, Pruned, OwnPendings;
    RoomExactlyWhen(env, acts, w, e);
    ReachedIsGood(env, acts, w);
    NodeEpoch(env, w, e);
    SampleGrantedExactlyWhen(w.nodes[e].auth.clock, s);
  }

  // ----- stage -----

  lemma StageExactlyWhen(env: Env, acts: seq<Action>, w: World, e: Id, at: Device, c: Id, admission: Outcome<()>, s: SampleReads)
    requires Reaches(env, acts, w) && e in w.nodes
    ensures var a, r := w.nodes[e].auth, StageStep(w.nodes[e].auth, w.db, at, c, admission, s);
            && (r.answer.Done? <==>
                  && admission.Done? && Trusted(a.clock, s)
                  && Awaiting(w.db, e, at, c) && w.db.commands[c].dispatchStartedAt == None
                  && TimeOf(a.clock, s.tick.us) < w.db.commands[c].expiresAt)
            && (r.answer.Done? ==>
                  && r.db == w.db.(commands := w.db.commands[c := w.db.commands[c].(dispatchStartedAt := Some(TimeOf(a.clock, s.tick.us)))])
                  && r.answer.value.payload == Candidate(w.db.controls[c].payload)
                  && r.answer.value.commandId == c && r.answer.value.epoch == e && !r.answer.value.grant
                  && TimeOf(a.clock, r.answer.value.deadlineTick) == w.db.commands[c].expiresAt
                  && r.answer.value.validUntilTick == r.answer.value.deadlineTick)
            && (r.answer.Refused? ==>
                  && r.db == w.db
                  && r.answer.error == if admission.Refused? then admission.error
                                       else if !Trusted(a.clock, s) then Unavailable else Conflict)
  {
    hide Good, Reaches, Exec, Apply, PossibleRun, SampleStep;
    if Awaiting(w.db, e, at, c) {
      AwaitedWindow(env, acts, w, e, at, c);
    }
    ReachedIsGood(env, acts, w);
    NodeEpoch(env, w, e);
    SampleGrantedExactlyWhen(w.nodes[e].auth.clock, s);
  }

  // ----- request -----

  /** The request is about the staged candidate of this device and this epoch. */
  predicate Entitled(db: Database, e: Id, at: Device, q: PermitRequest) {
    && Awaiting(db, e, at, q.commandId) && q.coreEpoch == e && q.intent == db.controls[q.commandId].digest
    && db.commands[q.commandId].dispatchStartedAt != None
  }

  function SessionOf(at: Device, q: PermitRequest): Binding {
    Binding(at.houseId, at.deviceId, q.coreEpoch, q.bootId, q.sessionId, q.nonce)
  }

  /** The device had no pass for a second, and this second is not used up. */
  predicate Unlimited(passes: seq<Pass>, key: Device, tick: int) {
    && (forall i :: 0 <= i < |passes| && passes[i].key == key ==> passes[i].tick + 1_000_000 <= tick)
    && CountIn(passes, tick / 1_000_000 * 1_000_000, tick / 1_000_000 * 1_000_000 + 1_000_000) < 100
  }

  /** The session was never given a permit for another command. */
  predicate NewSession(controls: map<Id, ControlRow>, session: Binding) {
    forall c :: c in controls ==> controls[c].binding != Some(session)
  }

  /** A first permit is due: at least two ticks before the deadline. */
  predicate FreshDue(w: World, e: Id, at: Device, q: PermitRequest, s: SampleReads)
    requires e in w.nodes && w.nodes[e].auth.clock.anchor.Utc? && s.tick.Ticks? && Entitled(w.db, e, at, q)
  {
    && w.db.controls[q.commandId].binding == None
    && TimeOf(w.nodes[e].auth.clock, s.tick.us) + 1 < w.db.commands[q.commandId].expiresAt
    && Unlimited(w.nodes[e].passes, at, s.tick.us) && NewSession(w.db.controls, SessionOf(at, q))
  }

  /** The stored permit of the same session is still remembered and good. */
  predicate RepeatDue(w: World, e: Id, at: Device, q: PermitRequest, s: SampleReads)
    requires e in w.nodes && w.nodes[e].auth.clock.anchor.Utc? && s.tick.Ticks? && Entitled(w.db, e, at, q)
  {
    && w.db.controls[q.commandId].binding == Some(SessionOf(at, q))
    && TimeOf(w.nodes[e].auth.clock, s.tick.us) < w.db.commands[q.commandId].expiresAt
    && q.commandId in w.nodes[e].auth.replies && s.tick.us < w.nodes[e].auth.replies[q.commandId].delivery.validUntilTick
  }

  lemma LimiterExactlyWhen(env: Env, acts: seq<Action>, w: World, e: Id, key: Device, tick: int)
    requires Reaches(env, acts, w) && e in w.nodes && w.nodes[e].auth.clock.last <= tick
    ensures LimitStep(w.nodes[e].auth.limiter, key, tick).1 <==> Unlimited(w.nodes[e].passes, key, tick)
    ensures |LiveReplies(w.nodes[e].auth.replies, tick)| < MAX_REPLIES
  {
    hide Good, Reaches, Exec, Apply, PossibleRun, LimitStep, Explains, RepliesExplained, AllIssued, CountIn, Fresh, LiveReplies;
    ReachedIsGood(env, acts, w);
    NodeLimited(env, w, e);
    CapacityNeverRefuses(env, acts, w, e, tick);
    LimitedExactlyWhen(w.nodes[e].auth.limiter, w.nodes[e].passes, w.nodes[e].auth.clock.last, key, tick);
  }

  lemma ReplyIsStored(env: Env, acts: seq<Action>, w: World, e: Id, c: Id)
    requires Reaches(env, acts, w) && e in w.nodes && c in w.nodes[e].auth.replies
    ensures c in w.db.controls && w.db.controls[c].binding == Some(w.nodes[e].auth.replies[c].binding)
  {
    hide Good, Reaches, Exec, Apply, PossibleRun, History;
    ReachedIsGood(env, acts, w);
    ReplyKnown(env, w, e, c);
    StoredBindingIsGranted(env, acts, w, c);
  }

  /** A request is answered with a permit if and only if it is admitted, the clock is
      trusted, it is entitled and either a first permit is due or the stored one again. */
  lemma RequestExactlyWhen(env: Env, acts: seq<Action>, w: World, e: Id, at: Device, q: PermitRequest, admission: Outcome<()>, s: SampleReads)
    requires Reaches(env, acts, w) && e in w.nodes
    ensures var a, r := w.nodes[e].auth, RequestStep(w.nodes[e].auth, w.db, at, q, admission, s);
            var heard := admission.Done? && Trusted(a.clock, s) && Entitled(w.db, e, at, q);
            && (r.answer.Done? <==> heard && (FreshDue(w, e, at, q, s) || RepeatDue(w, e, at, q, s)))
            && (heard && FreshDue(w, e, at, q, s) ==>
                  r.passed && r.db == w.db.(controls :=
                    w.db.controls[q.commandId := w.db.controls[q.commandId].(binding := Some(SessionOf(at, q)))]))
            && (heard && RepeatDue(w, e, at, q, s) ==>
                  !r.passed && r.db == w.db && r.answer == Done(a.replies[q.commandId].delivery))
  {
    hide Good, Reaches, Exec, Apply, PossibleRun, SampleStep, LimitStep, LiveReplies, Unlimited;
    ReachedIsGood(env, acts, w);
    NodeEpoch(env, w, e);
    SampleGrantedExactlyWhen(w.nodes[e].auth.clock, s);
    if Trusted(w.nodes[e].auth.clock, s) {
      LimiterExactlyWhen(env, acts, w, e, at, s.tick.us);
    }
    if Awaiting(w.db, e, at, q.commandId) {
      AwaitedWindow(env, acts, w, e, at, q.commandId);
    }
    if q.commandId in w.nodes[e].auth.replies {
      ReplyIsStored(env, acts, w, e, q.commandId);
    }
  }

  /** Why a request is refused, and that a refusal stores nothing. */
  lemma RequestRefusal(env: Env, acts: seq<Action>, w: World, e: Id, at: Device, q: PermitRequest, admission: Outcome<()>, s: SampleReads)
    requires Reaches(env, acts, w) && e in w.nodes
    requires RequestStep(w.nodes[e].auth, w.db, at, q, admission, s).answer.Refused?
    ensures var a, r := w.nodes[e].auth, RequestStep(w.nodes[e].auth, w.db, at, q, admission, s);
            && r.db == w.db
            && r.answer.error ==
               if admission.Refused? then admission.error
               else if !Trusted(a.clock, s) then Unavailable
               else if !Entitled(w.db, e, at, q) || w.db.commands[q.commandId].expiresAt <= TimeOf(a.clock, s.tick.us) then Conflict
               else if w.db.controls[q.commandId].binding == None && !Unlimited(w.nodes[e].passes, at, s.tick.us) then Unavailable
               else Conflict
  {
    hide Good, Reaches, Exec, Apply, PossibleRun, SampleStep, LimitStep, LiveReplies, Unlimited;
    ReachedIsGood(env, acts, w);
    NodeEpoch(env, w, e);
    SampleGrantedExactlyWhen(w.nodes[e].auth.clock, s);
    if Trusted(w.nodes[e].auth.clock, s) {
      LimiterExactlyWhen(env, acts, w, e, at, s.tick.us);
    }
    if Awaiting(w.db, e, at, q.commandId) {
      AwaitedWindow(env, acts, w, e, at, q.commandId);
    }
  }

  /** Whatever the state: a candidate whose bytes, digest or row are not those that were
      prepared is neither staged nor granted. */
  lemma TamperedIsRefused(a: Authority, db: Database, at: Device, q: PermitRequest, admission: Outcome<()>, s: SampleReads)
    requires q.commandId in a.windows && q.commandId in db.controls && q.commandId in db.commands
    requires var window, record := a.windows[q.commandId], db.controls[q.commandId];
             || record.digest != window.digest || Sha256(record.payload) != window.digest
             || window.identity != IdentityOf(q.commandId, db.commands[q.commandId])
    ensures StageStep(a, db, at, q.commandId, admission, s).answer.Refused?
    ensures RequestStep(a, db, at, q, admission, s).answer.Refused?
  {
    hide LimitStep, GrantStep;
    ClockOnlyMovesForward(a.clock, s);
  }

  /** Whatever the state: once a session is stored, no other is given a permit. */
  lemma OtherSessionIsRefused(a: Authority, db: Database, at: Device, q: PermitRequest, admission: Outcome<()>, s: SampleReads)
    requires q.commandId in db.controls && db.controls[q.commandId].binding.Some?
    requires db.controls[q.commandId].binding.value != SessionOf(at, q)
    ensures RequestStep(a, db, at, q, admission, s).answer.Refused?
  {
    hide LimitStep, GrantStep;
  }

  /** The capacities behind the limiter: 4096 remembered devices and 1024 live replies. */
  lemma CapacitiesAre(l: Limiter, key: Device, tick: int, a: Authority, db: Database, at: Device, q: PermitRequest, now: Sampled)
    requires q.commandId in a.windows && q.commandId in db.controls && q.commandId in db.commands
    ensures LimitStep(l, key, tick).1 ==> |Fresh(l.rates, tick)| < 4096
    ensures key !in Fresh(l.rates, tick) && tick / 1_000_000 != l.globalSecond && |Fresh(l.rates, tick)| < 4096 ==> LimitStep(l, key, tick).1
    ensures |LiveReplies(a.replies, now.tick)| >= 1024 <==> GrantStep(a, db, at, q, now).answer == Refused(Unavailable)
  {
    hide Fresh, LiveReplies, BindingFree;
  }

  // ----- delivery check, recovery and foreign expiry -----

  lemma DeliveryValidExactlyWhen(a: Authority, d: Delivery, s: SampleReads)
    ensures ValidateStep(a, d, s).1.Done? <==>
              Trusted(a.clock, s) && d.epoch == a.clock.epoch && s.tick.us < d.validUntilTick && s.tick.us < d.deadlineTick
    ensures ValidateStep(a, d, s).1.Refused? ==> ValidateStep(a, d, s).1.error == if Trusted(a.clock, s) then Conflict else Unavailable
  {
    SampleGrantedExactlyWhen(a.clock, s);
  }

  /** The first successful initialization remembers every pending command of other
      epochs, and there are at most 4096 of them. */
  lemma InitializeExactlyWhen(a: Authority, db: Database, r: TickReading)
    ensures var foreign := set c | c in db.controls && c in db.commands && db.controls[c].epoch != a.clock.epoch
                                   && (db.commands[c].status == Queued || db.commands[c].status == Dispatched);
            var (a1, o) := InitializeStep(a, db, r);
            && (o.Done? <==> a.recoveryInitialized
                             || (|foreign| <= 4096 && !a.clock.timerFault && r.Ticks? && a.clock.last <= r.us))
            && (o.Refused? ==> o.error == Unavailable && a1.recoveryIds == a.recoveryIds && !a1.recoveryInitialized)
            && (o.Done? ==> a1.recoveryInitialized)
            && (o.Done? && a.recoveryInitialized ==> a1 == a)
            && (o.Done? && !a.recoveryInitialized ==> a1.recoveryIds == foreign && a1.clock.fenceStart == r.us == a1.clock.last)
  {
    var foreign := set c | c in db.controls && c in db.commands && db.controls[c].epoch != a.clock.epoch
                           && (db.commands[c].status == Queued || db.commands[c].status == Dispatched);
    assert foreign == ForeignPending(db, a.Epoch());
  }

  /** An own command is judged by its window: overdue from its deadline on. */
  lemma OwnExpiredExactlyWhen(a: Authority, c: Id, record: ControlRow, r: TickReading)
    requires record.epoch == a.clock.epoch
    ensures var o := ExpiredStep(a, c, record, r).1;
            if c in a.windows && a.clock.qualified && !a.clock.timerFault && r.Ticks? && a.clock.last <= r.us
            then o == Done(a.windows[c].deadline <= r.us) else o == Refused(Unavailable)
  {
  }

  /** A foreign command is either expired or unknown, never alive: it is expired exactly
      when the snapshot has it and an accepted reading is past the fence. */
  lemma ForeignExpiredExactlyWhen(a: Authority, c: Id, record: ControlRow, r: TickReading)
    requires record.epoch != a.clock.epoch
    ensures var o := ExpiredStep(a, c, record, r).1;
            && (o == Done(true) <==>
                  && a.recoveryInitialized && c in a.recoveryIds
                  && a.clock.qualified && !a.clock.timerFault && r.Ticks? && a.clock.last <= r.us
                  && a.clock.fenceStart + a.clock.fenceUs <= r.us)
            && (o != Done(true) ==> o == Refused(Unavailable))
  {
  }
}
