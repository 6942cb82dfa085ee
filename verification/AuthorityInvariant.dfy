/** Every step of every run keeps the invariant of AuthorityRuns. */
module AuthorityInvariant {
  import opened Common
  import opened CommandRecords
  import opened ControlClock
  import opened RecoveryFence
  import opened ControlAuthority
  import opened PermitLimiter
  import opened AuthorityRuns

  lemma SubmapSize<K, V>(m: map<K, V>, m': map<K, V>)
    requires m'.Keys <= m.Keys
    ensures |m'| <= |m|
  {
    assert m.Keys == m'.Keys + (m.Keys - m'.Keys);
  }

  // ----- one node changes, the store does not -----

  /** The node only read its clock, and forgot windows of terminal commands or replies. */
  ghost predicate Forgets(db: Database, e: Id, n: Node, n': Node) {
    && Later(n.auth.clock, n'.auth.clock) && n'.auth.clock.fenceStart == n.auth.clock.fenceStart
    && n'.auth.recoveryInitialized == n.auth.recoveryInitialized && n'.auth.recoveryIds == n.auth.recoveryIds
    && n'.ratePpm == n.ratePpm && n'.errorUs == n.errorUs && n.lastReadAt <= n'.lastReadAt
    && n'.snapshotAt == n.snapshotAt && n'.fenceAt == n.fenceAt && n'.stoppedAt == n.stoppedAt
    && (forall c :: c in n'.auth.windows ==> c in n.auth.windows && n'.auth.windows[c] == n.auth.windows[c])
    && (forall c :: c in n.auth.windows && c !in n'.auth.windows ==> !OwnPending(db, e, c))
    && (forall c :: c in n'.auth.replies ==> c in n.auth.replies && n'.auth.replies[c] == n.auth.replies[c])
  }

  lemma ForgetfulNodeKept(env: Env, db: Database, origins: map<Id, Origin>, log: seq<Event>, e: Id, n: Node, n': Node)
    requires NodeOk(env, db, origins, log, e, n) && Forgets(db, e, n, n') && Limited(n')
    ensures NodeOk(env, db, origins, log, e, n')
  {
    SubmapSize(n.auth.windows, n'.auth.windows);
    forall c | c in n'.auth.windows
      ensures WindowOk(db, origins, e, n'.auth.clock, c, n'.auth.windows[c])
    {
      assert WindowOk(db, origins, e, n.auth.clock, c, n.auth.windows[c]);
    }
    forall c | c in n'.auth.replies
      ensures ReplyOk(db, log, e, c, n'.auth.replies[c])
    {
      assert ReplyOk(db, log, e, c, n.auth.replies[c]);
    }
  }

  /** Without a limiter pass the limits survive. */
  lemma ForgetfulLimits(db: Database, e: Id, n: Node, n': Node)
    requires Limited(n) && Forgets(db, e, n, n')
    requires n'.passes == n.passes && n'.auth.limiter == n.auth.limiter
    ensures Limited(n')
  {
    Relax(n.auth.limiter, n.passes, n.auth.clock.last, n'.auth.clock.last);
    SubmapSize(n.auth.replies, n'.auth.replies);
  }

  lemma QuietStep(env: Env, w: World, e: Id, n': Node, at: real)
    requires Good(env, w) && e in w.nodes && w.now <= at
    requires NodeOk(env, w.db, w.origins, w.log, e, n') && n'.stoppedAt == w.nodes[e].stoppedAt
    ensures Good(env, w.(nodes := w.nodes[e := n'], now := at))
  {
    hide NodeOk, Historical, BindingsUnique;
    var w' := w.(nodes := w.nodes[e := n'], now := at);
    forall c | c in w'.origins
      ensures OriginOk(env, w', c)
    {
      assert OriginOk(env, w, c);
    }
  }

  lemma ForgetfulStep(env: Env, w: World, e: Id, n': Node, at: real)
    requires Good(env, w) && e in w.nodes && w.now <= at
    requires Forgets(w.db, e, w.nodes[e], n')
    requires n'.passes == w.nodes[e].passes && n'.auth.limiter == w.nodes[e].auth.limiter
    ensures Good(env, w.(nodes := w.nodes[e := n'], now := at))
  {
    hide Historical, BindingsUnique, OriginsOk, Fenced, Windowed, Tabled, Replying, Explains, RepliesExplained;
    ForgetfulLimits(w.db, e, w.nodes[e], n');
    ForgetfulNodeKept(env, w.db, w.origins, w.log, e, w.nodes[e], n');
    QuietStep(env, w, e, n', at);
  }

  // ----- the store changes, the nodes do not -----

  lemma StoreStep(env: Env, w: World, w': World)
    requires Good(env, w)
    requires w'.nodes == w.nodes && w'.origins == w.origins && w.now <= w'.now
    requires StoreGrows(w.db, w'.db) && LogGrows(w.log, w'.log) && w'.db.controls.Keys == w.db.controls.Keys
    requires Historical(w'.db, w'.log) && BindingsUnique(w'.db.controls)
    ensures Good(env, w')
  {
    hide NodeOk, Historical, BindingsUnique;
    ControlsHaveRows(w.db, w.log);
    forall e | e in w'.nodes
      ensures NodeOk(env, w'.db, w'.origins, w'.log, e, w'.nodes[e])
    {
      BystanderKept(env, w, w', e);
    }
    forall c | c in w'.origins
      ensures OriginOk(env, w', c)
    {
      assert OriginOk(env, w, c);
    }
  }

  // ----- operations -----

  lemma SampleMoves(env: Env, n: Node, s: SampleReads, readAt: real, againAt: real)
    requires TrueSample(env, n, s, readAt, againAt)
    ensures var (clock, sampled) := SampleStep(n.auth.clock, s);
            && Later(n.auth.clock, clock) && clock.fenceStart == n.auth.clock.fenceStart
            && (sampled.Done? ==>
                  && s.tick.Ticks? && s.again.Ticks? && n.auth.clock.anchor.Utc?
                  && n.auth.clock.last <= s.tick.us <= s.again.us == clock.last
                  && s.tick.us == env.counter(n.auth.Epoch(), readAt)
                  && s.again.us == env.counter(n.auth.Epoch(), againAt)
                  && s.again.us - n.auth.clock.fenceStart >= n.auth.clock.fenceUs
                  && sampled.value == Sampled(n.auth.clock.LogicalAt(s.tick.us), s.tick.us))
  {
    ClockOnlyMovesForward(n.auth.clock, s);
    if SampleStep(n.auth.clock, s).1.Done? {
      SampleGranted(n.auth.clock, s);
    }
  }

  /** What initializing changes: the clock, and the recovery fields the first time. */
  lemma InitializeEffect(w: World, e: Id, at: real, op: Op)
    requires e in w.nodes && op.Initialize?
    ensures e in CallStep(w, e, at, op).nodes
    ensures var n, n' := w.nodes[e], CallStep(w, e, at, op).nodes[e];
            && n' == n.(auth := n'.auth, lastReadAt := op.readAt, snapshotAt := n'.snapshotAt, fenceAt := n'.fenceAt)
            && n'.auth == n.auth.(clock := n'.auth.clock, recoveryInitialized := n'.auth.recoveryInitialized, recoveryIds := n'.auth.recoveryIds)
            && Later(n.auth.clock, n'.auth.clock)
            && (n'.auth.recoveryInitialized == n.auth.recoveryInitialized ==>
                  && n'.auth.recoveryIds == n.auth.recoveryIds && n'.auth.clock.fenceStart == n.auth.clock.fenceStart
                  && n'.snapshotAt == n.snapshotAt && n'.fenceAt == n.fenceAt)
            && (n'.auth.recoveryInitialized != n.auth.recoveryInitialized ==>
                  && n'.auth.recoveryInitialized && n'.auth.recoveryIds == ForeignPending(w.db, n.auth.Epoch())
                  && op.r.Ticks? && n.auth.clock.last <= op.r.us == n'.auth.clock.fenceStart
                  && n'.snapshotAt == at && n'.fenceAt == op.readAt)
  {
  }

  lemma InitializedNode(env: Env, w: World, e: Id, at: real, op: Op)
    requires OriginsOk(env, w) && e in w.nodes && op.Initialize? && w.now <= at
    requires PossibleOp(env, w, w.nodes[e], at, op) && NodeOk(env, w.db, w.origins, w.log, e, w.nodes[e])
    ensures NodeOk(env, w.db, w.origins, w.log, e, CallStep(w, e, at, op).nodes[e])
  {
    InitializeEffect(w, e, at, op);
    hide Explains, OriginsOk, RepliesExplained, CallStep, ForeignPending;
    var n, n' := w.nodes[e], CallStep(w, e, at, op).nodes[e];
    if n'.auth.recoveryInitialized && !n.auth.recoveryInitialized {
      SnapshotPrecedesFence(env, w, e, op.readAt);
    }
    Relax(n.auth.limiter, n.passes, n.auth.clock.last, n'.auth.clock.last);
    assert Windowed(w.db, w.origins, e, n');
    assert Tabled(w.db, e, n') && Limited(n') && Replying(w.db, w.log, e, n');
  }

  lemma SnapshotPrecedesFence(env: Env, w: World, e: Id, readAt: real)
    requires OriginsOk(env, w) && w.now <= readAt
    ensures forall c :: c in ForeignPending(w.db, e) ==> c in w.origins && w.origins[c].readAt <= readAt
  {
    forall c | c in ForeignPending(w.db, e)
      ensures c in w.origins && w.origins[c].readAt <= readAt
    {
      assert OriginOk(env, w, c);
    }
  }

  lemma InitializeKeepsGood(env: Env, w: World, e: Id, at: real, op: Op)
    requires Good(env, w) && Possible(env, w, Call(e, at, op)) && op.Initialize?
    ensures Good(env, CallStep(w, e, at, op))
  {
    hide NodeOk, Historical, BindingsUnique, OriginsOk;
    InitializedNode(env, w, e, at, op);
    QuietStep(env, w, e, CallStep(w, e, at, op).nodes[e], at);
  }

  lemma ValidateKeepsGood(env: Env, w: World, e: Id, at: real, op: Op)
    requires Good(env, w) && Possible(env, w, Call(e, at, op)) && op.Validate?
    ensures Good(env, CallStep(w, e, at, op))
  {
    hide NodeOk, Historical, BindingsUnique, OriginsOk;
    SampleMoves(env, w.nodes[e], op.s, op.readAt, op.againAt);
    ForgetfulStep(env, w, e, CallStep(w, e, at, op).nodes[e], at);
  }

  lemma ExpiredKeepsGood(env: Env, w: World, e: Id, at: real, op: Op)
    requires Good(env, w) && Possible(env, w, Call(e, at, op)) && op.Expired?
    ensures Good(env, CallStep(w, e, at, op))
  {
    hide NodeOk, Historical, BindingsUnique, OriginsOk;
    ClockOnlyMovesForward(w.nodes[e].auth.clock, SampleReads(op.r, NotUtc, false, op.r));
    ForgetfulStep(env, w, e, CallStep(w, e, at, op).nodes[e], at);
  }

  lemma LogicalNowKeepsGood(env: Env, w: World, e: Id, at: real, op: Op)
    requires Good(env, w) && Possible(env, w, Call(e, at, op)) && op.LogicalNow?
    ensures Good(env, CallStep(w, e, at, op))
  {
    hide NodeOk, Historical, BindingsUnique, OriginsOk;
    ClockOnlyMovesForward(w.nodes[e].auth.clock, SampleReads(op.r, NotUtc, false, op.r));
    ForgetfulStep(env, w, e, CallStep(w, e, at, op).nodes[e], at);
  }

  lemma StageEffect(env: Env, w: World, e: Id, at: real, op: Op)
    requires op.Stage? && e in w.nodes && PossibleOp(env, w, w.nodes[e], at, op)
    ensures var n, r := w.nodes[e], StageStep(w.nodes[e].auth, w.db, op.device, op.commandId, op.admission, op.s);
            var c := op.commandId;
            && r.auth == n.auth.(clock := r.auth.clock)
            && Forgets(w.db, e, n, n.(auth := r.auth, lastReadAt := op.againAt))
            && (r.answer.Refused? ==> r.db == w.db)
            && (r.answer.Done? ==>
                  && c in w.db.controls && c in w.db.commands && w.db.commands[c].dispatchStartedAt == None
                  && Pending(w.db.commands[c].status)
                  && exists t :: r.db == w.db.(commands := w.db.commands[c := w.db.commands[c].(dispatchStartedAt := Some(t))]))
  {
    SampleMoves(env, w.nodes[e], op.s, op.readAt, op.againAt);
    var r := StageStep(w.nodes[e].auth, w.db, op.device, op.commandId, op.admission, op.s);
    if r.answer.Done? {
      var t := SampleStep(w.nodes[e].auth.clock, op.s).1.value.now;
      assert r.db == w.db.(commands := w.db.commands[op.commandId := w.db.commands[op.commandId].(dispatchStartedAt := Some(t))]);
    }
  }

  lemma StageKeepsGood(env: Env, w: World, e: Id, at: real, op: Op)
    requires Good(env, w) && Possible(env, w, Call(e, at, op)) && op.Stage?
    ensures Good(env, CallStep(w, e, at, op))
  {
    hide NodeOk, Historical, BindingsUnique, OriginsOk, StageStep, SampleStep;
    var w' := CallStep(w, e, at, op);
    var r := StageStep(w.nodes[e].auth, w.db, op.device, op.commandId, op.admission, op.s);
    StageEffect(env, w, e, at, op);
    ForgetfulStep(env, w, e, w'.nodes[e], at);
    if r.answer.Done? {
      var w1 := w.(nodes := w'.nodes, now := at);
      StagedHistory(w1.db, w1.log, w'.db, w'.log, op.commandId, r.answer.value);
      StoreStep(env, w1, w');
    }
  }

  /** Recording the one stage of a prepared command. */
  lemma StagedHistory(db: Database, log: seq<Event>, db': Database, log': seq<Event>, c: Id, d: Delivery)
    requires Historical(db, log) && c in db.controls && c in db.commands && db.commands[c].dispatchStartedAt == None
    requires log' == log + [Staged(c, d)]
    requires exists t :: db' == db.(commands := db.commands[c := db.commands[c].(dispatchStartedAt := Some(t))])
    ensures Historical(db', log') && LogGrows(log, log')
  {
    AppendHistory(log, Staged(c, d));
    forall x
      ensures LegalHistory(History(log', x)) && Recorded(db', x, History(log', x))
    {
      assert LegalHistory(History(log, x)) && Recorded(db, x, History(log, x));
    }
  }

  lemma UpdateRowKeepsGood(env: Env, w: World, c: Id, row: CommandRow)
    requires Good(env, w) && Possible(env, w, UpdateRow(c, row))
    ensures Good(env, Apply(w, UpdateRow(c, row)))
  {
    hide NodeOk, OriginsOk, BindingsUnique;
    var w' := Apply(w, UpdateRow(c, row));
    forall d
      ensures LegalHistory(History(w'.log, d)) && Recorded(w'.db, d, History(w'.log, d))
    {
      assert LegalHistory(History(w.log, d)) && Recorded(w.db, d, History(w.log, d));
    }
    StoreStep(env, w, w');
  }

  lemma InsertRowKeepsGood(env: Env, w: World, c: Id, row: CommandRow)
    requires Good(env, w) && Possible(env, w, InsertRow(c, row))
    ensures Good(env, Apply(w, InsertRow(c, row)))
  {
    hide NodeOk, OriginsOk, BindingsUnique;
    var w' := Apply(w, InsertRow(c, row));
    forall d
      ensures LegalHistory(History(w'.log, d)) && Recorded(w'.db, d, History(w'.log, d))
    {
      assert LegalHistory(History(w.log, d)) && Recorded(w.db, d, History(w.log, d));
    }
    StoreStep(env, w, w');
  }

  lemma LoseRepliesKeepsGood(env: Env, w: World, e: Id, kept: set<Id>)
    requires Good(env, w) && Possible(env, w, LoseReplies(e, kept))
    ensures Good(env, Apply(w, LoseReplies(e, kept)))
  {
    hide NodeOk, Historical, BindingsUnique, OriginsOk;
    var w' := Apply(w, LoseReplies(e, kept));
    ForgetfulStep(env, w, e, w'.nodes[e], w.now);
  }

  lemma StopKeepsGood(env: Env, w: World, e: Id, at: real)
    requires Good(env, w) && Possible(env, w, Stop(e, at))
    ensures Good(env, Apply(w, Stop(e, at)))
  {
    hide NodeOk, Historical, BindingsUnique;
    var w' := Apply(w, Stop(e, at));
    forall c | c in w'.origins
      ensures OriginOk(env, w', c)
    {
      assert OriginOk(env, w, c);
    }
    OthersKept(env, w, w', e);
    StoppedNodeKept(env, w, e, w'.nodes[e]);
  }

  lemma StoppedNodeKept(env: Env, w: World, e: Id, n': Node)
    requires e in w.nodes && NodeOk(env, w.db, w.origins, w.log, e, w.nodes[e])
    requires n' == w.nodes[e].(stoppedAt := n'.stoppedAt)
    ensures NodeOk(env, w.db, w.origins, w.log, e, n')
  {
    hide Explains, RepliesExplained, WindowOk, ReplyOk;
  }

  lemma BootedNodeOk(env: Env, w: World, act: Action)
    requires OriginsOk(env, w) && act.Boot? && Possible(env, w, act)
    ensures act.epoch in Apply(w, act).nodes
    ensures NodeOk(env, w.db, w.origins, w.log, act.epoch, Apply(w, act).nodes[act.epoch])
  {
    var e, n := act.epoch, Apply(w, act).nodes[act.epoch];
    forall c
      ensures !OwnPending(w.db, e, c)
    {
      if c in w.origins {
        assert OriginOk(env, w, c);
      }
    }
    assert Limited(n) by {
      hide OriginsOk;
    }
  }

  lemma BootKeepsGood(env: Env, w: World, act: Action)
    requires Good(env, w) && act.Boot? && Possible(env, w, act)
    ensures Good(env, Apply(w, act))
  {
    hide NodeOk, Historical, BindingsUnique;
    var w' := Apply(w, act);
    forall c | c in w'.origins
      ensures OriginOk(env, w', c)
    {
      assert OriginOk(env, w, c);
    }
    BootedNodeOk(env, w, act);
  }

  // ----- prepare -----

  lemma PreparedEffect(env: Env, w: World, e: Id, at: real, op: Op)
    requires op.Prepare? && e in w.nodes && w.nodes[e].auth.Epoch() == e && PossibleOp(env, w, w.nodes[e], at, op)
    requires PrepareStep(w.nodes[e].auth, w.db, op.intent, op.admission, op.s).answer.Done?
    ensures var a, r := w.nodes[e].auth, PrepareStep(w.nodes[e].auth, w.db, op.intent, op.admission, op.s);
            var wire := CandidateWire(e, op.intent.commandId, op.intent.row);
            && a.clock.anchor.Utc? && op.intent.commandId !in w.db.commands && op.intent.row.dispatchStartedAt == None
            && op.s.tick.Ticks? && op.s.tick.us == env.counter(e, op.readAt)
            && |Pruned(a.windows, w.db)| < MAX_WINDOWS
            && (var deadline := op.intent.row.expiresAt - a.clock.anchor.us + a.clock.start;
                && deadline <= op.s.tick.us + LIFETIME_US
                && r.auth == a.(clock := r.auth.clock,
                     windows := Pruned(a.windows, w.db)[op.intent.commandId := Window(deadline, IdentityOf(op.intent.commandId, op.intent.row), Sha256(wire))]))
            && Later(a.clock, r.auth.clock) && r.auth.clock.fenceStart == a.clock.fenceStart
            && r.db == Database(w.db.commands[op.intent.commandId := op.intent.row],
                                w.db.controls[op.intent.commandId := ControlRow(e, wire, Sha256(wire), None)])
  {
    hide Pruned;
    SampleMoves(env, w.nodes[e], op.s, op.readAt, op.againAt);
  }

  lemma PruningForgets(db: Database, e: Id, windows: map<Id, Window>)
    ensures forall c :: c in Pruned(windows, db) ==> c in windows && Pruned(windows, db)[c] == windows[c]
    ensures forall c :: c in windows && c !in Pruned(windows, db) ==> !OwnPending(db, e, c)
  {
  }

  /** A refused preparation changes the clock and at most drops terminal windows. */
  lemma RefusedPrepare(env: Env, w: World, e: Id, at: real, op: Op)
    requires op.Prepare? && e in w.nodes && PossibleOp(env, w, w.nodes[e], at, op)
    requires PrepareStep(w.nodes[e].auth, w.db, op.intent, op.admission, op.s).answer.Refused?
    ensures var n, r := w.nodes[e], PrepareStep(w.nodes[e].auth, w.db, op.intent, op.admission, op.s);
            r.db == w.db && Forgets(w.db, e, n, n.(auth := r.auth, lastReadAt := op.againAt)) && r.auth.limiter == n.auth.limiter
  {
    hide Pruned, SampleStep;
    SampleMoves(env, w.nodes[e], op.s, op.readAt, op.againAt);
    PruningForgets(w.db, e, w.nodes[e].auth.windows);
  }

  lemma PrepareKeepsGood(env: Env, w: World, e: Id, at: real, op: Op)
    requires Good(env, w) && Possible(env, w, Call(e, at, op)) && op.Prepare?
    ensures Good(env, CallStep(w, e, at, op))
  {
    hide NodeOk, Historical, BindingsUnique, OriginsOk, PrepareStep, SampleStep, Pruned;
    var n := w.nodes[e];
    var r := PrepareStep(n.auth, w.db, op.intent, op.admission, op.s);
    if r.answer.Refused? {
      RefusedPrepare(env, w, e, at, op);
      ForgetfulStep(env, w, e, n.(auth := r.auth, lastReadAt := op.againAt), at);
    } else {
      NodeEpoch(env, w, e);
      PreparedEffect(env, w, e, at, op);
      PruningForgets(w.db, e, n.auth.windows);
      var n1 := n.(auth := n.auth.(clock := r.auth.clock, windows := Pruned(n.auth.windows, w.db)), lastReadAt := op.againAt);
      ForgetfulStep(env, w, e, n1, at);
      AdoptsCommand(env, w.(nodes := w.nodes[e := n1], now := at), CallStep(w, e, at, op), e, op.intent.commandId, op.intent.row);
    }
  }

  lemma NodeEpoch(env: Env, w: World, e: Id)
    requires Good(env, w) && e in w.nodes
    ensures w.nodes[e].auth.Epoch() == e
  {
    hide OriginsOk, Historical, BindingsUnique, Windowed, Tabled, Limited, Replying;
    assert NodeOk(env, w.db, w.origins, w.log, e, w.nodes[e]);
  }

  /** The window, the ledger row, the control row and the log entry of a new command. */
  lemma AdoptsCommand(env: Env, w: World, w': World, e: Id, c: Id, row: CommandRow)
    requires Good(env, w) && e in w.nodes && w.nodes[e].stoppedAt == None && |w.nodes[e].auth.windows| < MAX_WINDOWS
    requires c !in w.db.commands && row.dispatchStartedAt == None
    requires var wire := CandidateWire(e, c, row);
             w'.db == Database(w.db.commands[c := row], w.db.controls[c := ControlRow(e, wire, Sha256(wire), None)])
    requires c in w'.origins && w'.origins == w.origins[c := w'.origins[c]]
    requires var o, n := w'.origins[c], w.nodes[e];
             && o.epoch == e && o.tick == env.counter(e, o.readAt) && o.deadline <= o.tick + LIFETIME_US && o.readAt <= w.now
             && n.auth.clock.anchor.Utc? && o.deadline - n.auth.clock.start == row.expiresAt - n.auth.clock.anchor.us
    requires var window := Window(w'.origins[c].deadline, IdentityOf(c, row), w'.db.controls[c].digest);
             w'.nodes == w.nodes[e := w.nodes[e].(auth := w.nodes[e].auth.(windows := w.nodes[e].auth.windows[c := window]))]
    requires w'.log == w.log + [Prepared(c)] && w'.now == w.now
    ensures Good(env, w')
  {
    hide NodeOk, Historical, BindingsUnique, OriginsOk;
    PreparedHistory(w.db, w.log, w'.db, w'.log, c);
    ControlsHaveRows(w.db, w.log);
    OriginAdopted(env, w, w', e, c);
    OthersKept(env, w, w', e);
    AdopterKept(env, w, w', e, c, row);
    UnboundAdopted(w.db.controls, w'.db.controls, c);
  }

  lemma OriginAdopted(env: Env, w: World, w': World, e: Id, c: Id)
    requires OriginsOk(env, w) && e in w.nodes && w.nodes[e].stoppedAt == None && w.now <= w'.now
    requires c !in w.db.controls && c in w'.db.controls && w'.db.controls == w.db.controls[c := w'.db.controls[c]]
    requires w'.db.controls[c].epoch == e
    requires c in w'.origins && w'.origins == w.origins[c := w'.origins[c]]
    requires var o := w'.origins[c];
             o.epoch == e && o.tick == env.counter(e, o.readAt) && o.deadline <= o.tick + LIFETIME_US && o.readAt <= w.now
    requires w'.nodes.Keys == w.nodes.Keys && forall d :: d in w.nodes ==> w'.nodes[d].stoppedAt == w.nodes[d].stoppedAt
    ensures OriginsOk(env, w') && c !in w.origins
  {
    forall d | d in w'.origins
      ensures OriginOk(env, w', d)
    {
      if d != c {
        assert OriginOk(env, w, d);
      }
    }
  }

  lemma UnboundAdopted(controls: map<Id, ControlRow>, controls': map<Id, ControlRow>, c: Id)
    requires BindingsUnique(controls) && c in controls' && controls' == controls[c := controls'[c]]
    requires c !in controls && controls'[c].binding == None
    ensures BindingsUnique(controls')
  {
  }

  lemma PreparedHistory(db: Database, log: seq<Event>, db': Database, log': seq<Event>, c: Id)
    requires Historical(db, log) && c !in db.commands && log' == log + [Prepared(c)]
    requires c in db'.commands && c in db'.controls && db'.commands[c].dispatchStartedAt == None
    requires db'.controls[c].digest == Sha256(db'.controls[c].payload) && db'.controls[c].binding == None
    requires db' == Database(db.commands[c := db'.commands[c]], db.controls[c := db'.controls[c]])
    ensures Historical(db', log') && LogGrows(log, log')
  {
    AppendHistory(log, Prepared(c));
    forall d
      ensures LegalHistory(History(log', d)) && Recorded(db', d, History(log', d))
    {
      assert LegalHistory(History(log, d)) && Recorded(db, d, History(log, d));
    }
  }

  lemma AdopterKept(env: Env, w: World, w': World, e: Id, c: Id, row: CommandRow)
    requires e in w.nodes && NodeOk(env, w.db, w.origins, w.log, e, w.nodes[e]) && |w.nodes[e].auth.windows| < MAX_WINDOWS
    requires c !in w.db.commands && w.db.controls.Keys <= w.db.commands.Keys
    requires c in w'.db.commands && c in w'.db.controls
    requires w'.db == Database(w.db.commands[c := row], w.db.controls[c := w'.db.controls[c]])
    requires c in w'.origins && w'.origins == w.origins[c := w'.origins[c]] && w'.origins[c].epoch == e
    requires var n := w.nodes[e];
             n.auth.clock.anchor.Utc? && w'.origins[c].deadline - n.auth.clock.start == row.expiresAt - n.auth.clock.anchor.us
    requires var window := Window(w'.origins[c].deadline, IdentityOf(c, row), w'.db.controls[c].digest);
             w'.nodes == w.nodes[e := w.nodes[e].(auth := w.nodes[e].auth.(windows := w.nodes[e].auth.windows[c := window]))]
    requires LogGrows(w.log, w'.log) && c !in w.origins
    ensures NodeOk(env, w'.db, w'.origins, w'.log, e, w'.nodes[e])
  {
    var n, n' := w.nodes[e], w'.nodes[e];
    forall d | d in n'.auth.windows
      ensures WindowOk(w'.db, w'.origins, e, n'.auth.clock, d, n'.auth.windows[d])
    {
      if d != c {
        assert WindowOk(w.db, w.origins, e, n.auth.clock, d, n.auth.windows[d]);
      }
    }
    forall d | OwnPending(w'.db, e, d)
      ensures d in n'.auth.windows && n'.auth.windows[d].digest == w'.db.controls[d].digest
    {
      if d != c {
        assert OwnPending(w.db, e, d);
      }
    }
    forall d | d in n'.auth.replies
      ensures ReplyOk(w'.db, w'.log, e, d, n'.auth.replies[d])
    {
      assert ReplyOk(w.db, w.log, e, d, n.auth.replies[d]);
      assert History(w.log, d) <= History(w'.log, d);
    }
  }

  // ----- request -----

  /** What the limiter and the reply cache look like after a request at this tick. */
  ghost predicate LimiterUse(a: Authority, at: Device, tick: int, r: Requested) {
    var limited := LimitStep(a.limiter, at, tick);
    || (!r.passed && r.auth.limiter == a.limiter && r.auth.replies == a.replies)
    || (!r.passed && r.auth.limiter == limited.0 && !limited.1 && r.auth.replies == a.replies)
    || (r.passed && r.auth.limiter == limited.0 && limited.1 && r.answer.Refused? && r.auth.replies == LiveReplies(a.replies, tick))
    || (r.passed && r.auth.limiter == limited.0 && limited.1 && r.answer.Done?
        && r.auth.replies == LiveReplies(a.replies, tick)[r.answer.value.commandId := Reply(BindingOf(at, GrantedTo(r)), r.answer.value)])
  }

  function GrantedTo(r: Requested): PermitRequest {
    if r.answer.Done? && r.answer.value.payload.Grant? then r.answer.value.payload.request else PermitRequest(0, 0, 0, 0, 0, Sha256(Wire(0, 0, 0, 0, 0, false)))
  }

  /** A permit issued for the first time. */
  ghost predicate FirstGrant(db: Database, e: Id, at: Device, q: PermitRequest, tick: int, r: Requested) {
    var c := q.commandId;
    && r.passed && r.answer.Done? && c in db.controls && c in db.commands
    && db.controls[c].epoch == e && db.controls[c].binding == None && db.commands[c].dispatchStartedAt != None
    && BindingFree(db.controls, BindingOf(at, q))
    && r.db == db.(controls := db.controls[c := db.controls[c].(binding := Some(BindingOf(at, q)))])
    && r.answer.value.commandId == c && ShortPermit(r.answer.value) && r.answer.value.payload.request == q
    && tick < r.answer.value.validUntilTick < tick + PERMIT_US
  }

  /** The same permit handed out again. */
  ghost predicate RepeatedGrant(a: Authority, db: Database, at: Device, q: PermitRequest, r: Requested) {
    && !r.passed && r.db == db && r.auth == a.(clock := r.auth.clock)
    && q.commandId in a.replies && r.answer == Done(a.replies[q.commandId].delivery)
    && a.replies[q.commandId].binding == BindingOf(at, q)
  }

  lemma RequestCases(env: Env, w: World, e: Id, at: real, op: Op)
    requires op.Request? && e in w.nodes && w.nodes[e].auth.Epoch() == e && PossibleOp(env, w, w.nodes[e], at, op)
    ensures var a, r := w.nodes[e].auth, RequestStep(w.nodes[e].auth, w.db, op.device, op.q, op.admission, op.s);
            && Later(a.clock, r.auth.clock) && r.auth.clock.fenceStart == a.clock.fenceStart
            && r.auth.windows == a.windows && r.auth.recoveryInitialized == a.recoveryInitialized && r.auth.recoveryIds == a.recoveryIds
            && LimiterUse(a, op.device, TickOf(op.s.tick), r)
            && (r.passed || r.auth.limiter != a.limiter ==> a.clock.last <= TickOf(op.s.tick) <= r.auth.clock.last)
            && (r.answer.Refused? ==> r.db == w.db)
            && (r.answer.Done? ==> FirstGrant(w.db, e, op.device, op.q, TickOf(op.s.tick), r) || RepeatedGrant(a, w.db, op.device, op.q, r))
  {
    hide LimitStep, LiveReplies, BindingFree;
    SampleMoves(env, w.nodes[e], op.s, op.readAt, op.againAt);
  }

  /** The limits hold for the node after any request. */
  lemma RequestKeepsLimits(n: Node, n': Node, at: Device, tick: int, r: Requested)
    requires Limited(n) && LimiterUse(n.auth, at, tick, r) && n'.auth == r.auth
    requires n.auth.clock.last <= r.auth.clock.last
    requires r.passed || r.auth.limiter != n.auth.limiter ==> n.auth.clock.last <= tick <= r.auth.clock.last
    requires r.passed && r.answer.Done? ==> tick < r.answer.value.validUntilTick < tick + PERMIT_US
    requires n'.passes == if r.passed then n.passes + [Pass(at, tick, if r.answer.Done? then Some(r.answer.value) else None)] else n.passes
    ensures Limited(n')
  {
    hide Explains, LimitStep;
    var grant := if r.answer.Done? then Some(r.answer.value) else None;
    if r.passed || r.auth.limiter != n.auth.limiter {
      LimitKeepsExplanation(n.auth.limiter, n.passes, n.auth.clock.last, at, tick, grant, r.auth.clock.last);
      LimitKeepsExplanation(n.auth.limiter, n.passes, n.auth.clock.last, at, tick, grant, tick);
      LimiterStaysSmall(n.auth.limiter, at, tick, n'.passes);
    } else {
      Relax(n.auth.limiter, n.passes, n.auth.clock.last, r.auth.clock.last);
    }
    if r.passed {
      LimiterCounts(n'.auth.limiter, n'.passes, tick);
      RepliesStaySmall(n.auth.replies, n'.auth.replies, n.passes, n'.passes, tick, r.answer);
    }
  }

  lemma LimiterCounts(l: Limiter, passes: seq<Pass>, last: int)
    requires Explains(l, passes, last)
    ensures forall s :: InSecond(passes, s) <= PER_SECOND
    ensures forall i :: 0 <= i < |passes| ==> passes[i].tick <= last
    ensures Remembered(l.rates, passes)
  {
  }

  lemma LimiterStaysSmall(l: Limiter, at: Device, tick: int, passes: seq<Pass>)
    requires Explains(LimitStep(l, at, tick).0, passes, tick)
    ensures |LimitStep(l, at, tick).0.rates| <= 200
  {
    var rates := LimitStep(l, at, tick).0.rates;
    LimiterCounts(LimitStep(l, at, tick).0, passes, tick);
    forall k | k in rates
      ensures tick - SECOND < rates[k] <= tick
    {
      assert exists i :: 0 <= i < |passes| && PassedAt(passes[i], k, rates[k]);
    }
    RatesBounded(rates, passes, tick);
  }

  lemma RepliesStaySmall(replies: map<Id, Reply>, replies': map<Id, Reply>, passes: seq<Pass>, passes': seq<Pass>, tick: int, answer: Outcome<Delivery>)
    requires RepliesExplained(replies, passes)
    requires passes' != [] && passes' == passes + [passes'[|passes'| - 1]]
    requires passes'[|passes'| - 1].tick == tick && passes'[|passes'| - 1].grant == if answer.Done? then Some(answer.value) else None
    requires answer.Done? ==> tick < answer.value.validUntilTick < tick + PERMIT_US
    requires answer.Refused? ==> replies' == LiveReplies(replies, tick)
    requires answer.Done? ==> answer.value.commandId in replies'
                              && replies' == LiveReplies(replies, tick)[answer.value.commandId := replies'[answer.value.commandId]]
                              && replies'[answer.value.commandId].delivery == answer.value
    requires forall s :: InSecond(passes', s) <= PER_SECOND
    requires forall i :: 0 <= i < |passes'| ==> passes'[i].tick <= tick
    ensures RepliesExplained(replies', passes') && |replies'| <= 300
  {
    forall c | c in replies'
      ensures exists i :: 0 <= i < |passes'| && Issued(passes'[i], replies'[c].delivery) && replies'[c].delivery.commandId == c
    {
      if answer.Done? && c == answer.value.commandId {
        assert Issued(passes'[|passes'| - 1], replies'[c].delivery);
      } else {
        var i :| 0 <= i < |passes| && Issued(passes[i], replies[c].delivery) && replies[c].delivery.commandId == c;
        assert passes'[i] == passes[i];
      }
    }
    RepliesBounded(replies', passes', tick);
  }

  /** A node after a request, apart from the reply it may have just stored. */
  lemma RequestedNodeKept(env: Env, w: World, w': World, e: Id, n': Node, stored: set<Id>)
    requires e in w.nodes && NodeOk(env, w.db, w.origins, w.log, e, w.nodes[e]) && Limited(n')
    requires var n := w.nodes[e];
             && Later(n.auth.clock, n'.auth.clock) && n'.auth.clock.fenceStart == n.auth.clock.fenceStart
             && n'.auth.windows == n.auth.windows && n'.auth.recoveryInitialized == n.auth.recoveryInitialized
             && n'.auth.recoveryIds == n.auth.recoveryIds && n'.ratePpm == n.ratePpm && n'.errorUs == n.errorUs
             && n.lastReadAt <= n'.lastReadAt && n'.snapshotAt == n.snapshotAt && n'.fenceAt == n.fenceAt
             && (forall c :: c in n'.auth.replies && c !in stored ==> c in n.auth.replies && n'.auth.replies[c] == n.auth.replies[c])
    requires StoreGrows(w.db, w'.db) && LogGrows(w.log, w'.log) && w'.origins == w.origins && w'.db.controls.Keys == w.db.controls.Keys
    requires w'.db.commands == w.db.commands
    requires forall c :: c in stored && c in n'.auth.replies ==> ReplyOk(w'.db, w'.log, e, c, n'.auth.replies[c])
    ensures NodeOk(env, w'.db, w'.origins, w'.log, e, n')
  {
    hide Limited;
    var n := w.nodes[e];
    forall c | c in n'.auth.windows
      ensures WindowOk(w'.db, w'.origins, e, n'.auth.clock, c, n'.auth.windows[c])
    {
      assert WindowOk(w.db, w.origins, e, n.auth.clock, c, n.auth.windows[c]);
    }
    forall c | OwnPending(w'.db, e, c)
      ensures c in n'.auth.windows && n'.auth.windows[c].digest == w'.db.controls[c].digest
    {
      assert OwnPending(w.db, e, c);
    }
    forall c | c in n'.auth.replies
      ensures ReplyOk(w'.db, w'.log, e, c, n'.auth.replies[c])
    {
      if c !in stored {
        assert ReplyOk(w.db, w.log, e, c, n.auth.replies[c]);
        assert History(w.log, c) <= History(w'.log, c);
      }
    }
  }

  lemma FirstGrantHistory(db: Database, log: seq<Event>, e: Id, at: Device, q: PermitRequest, tick: int, r: Requested)
    requires Historical(db, log) && BindingsUnique(db.controls) && FirstGrant(db, e, at, q, tick, r)
    ensures var log' := log + [Granted(q.commandId, BindingOf(at, q), r.answer.value)];
            && Historical(r.db, log') && LogGrows(log, log') && StoreGrows(db, r.db) && BindingsUnique(r.db.controls)
            && r.db.controls.Keys == db.controls.Keys && r.db.commands == db.commands
            && ReplyOk(r.db, log', e, q.commandId, Reply(BindingOf(at, q), r.answer.value))
  {
    var ev := Granted(q.commandId, BindingOf(at, q), r.answer.value);
    var log' := log + [ev];
    AppendHistory(log, ev);
    assert LegalHistory(History(log, q.commandId)) && Recorded(db, q.commandId, History(log, q.commandId));
    forall c
      ensures LegalHistory(History(log', c)) && Recorded(r.db, c, History(log', c))
    {
      assert LegalHistory(History(log, c)) && Recorded(db, c, History(log, c));
    }
  }

  lemma RepeatedGrantHistory(db: Database, log: seq<Event>, e: Id, c: Id, reply: Reply)
    requires Historical(db, log) && ReplyOk(db, log, e, c, reply)
    ensures var log' := log + [Granted(c, reply.binding, reply.delivery)];
            Historical(db, log') && LogGrows(log, log')
  {
    var ev := Granted(c, reply.binding, reply.delivery);
    AppendHistory(log, ev);
    forall x
      ensures LegalHistory(History(log + [ev], x)) && Recorded(db, x, History(log + [ev], x))
    {
      assert LegalHistory(History(log, x)) && Recorded(db, x, History(log, x));
    }
  }

  lemma RequestKeepsGood(env: Env, w: World, e: Id, at: real, op: Op)
    requires Good(env, w) && Possible(env, w, Call(e, at, op)) && op.Request?
    ensures Good(env, CallStep(w, e, at, op))
  {
    hide NodeOk, Historical, BindingsUnique, OriginsOk, RequestStep, Limited;
    var w', n, n' := CallStep(w, e, at, op), w.nodes[e], CallStep(w, e, at, op).nodes[e];
    var r := RequestStep(n.auth, w.db, op.device, op.q, op.admission, op.s);
    NodeEpoch(env, w, e);
    RequestCases(env, w, e, at, op);
    NodeLimited(env, w, e);
    RequestKeepsLimits(n, n', op.device, TickOf(op.s.tick), r);
    GrowsReflexive(w.db, w.log);
    if r.answer.Refused? {
      RequestedNodeKept(env, w, w', e, n', {});
      QuietStep(env, w, e, n', at);
    } else if FirstGrant(w.db, e, op.device, op.q, TickOf(op.s.tick), r) {
      FirstGrantHistory(w.db, w.log, e, op.device, op.q, TickOf(op.s.tick), r);
      RequestedNodeKept(env, w, w', e, n', {op.q.commandId});
      NodeAndStoreStep(env, w, w', e);
    } else {
      ReplyKnown(env, w, e, op.q.commandId);
      RepeatedGrantHistory(w.db, w.log, e, op.q.commandId, n.auth.replies[op.q.commandId]);
      RequestedNodeKept(env, w, w', e, n', {});
      NodeAndStoreStep(env, w, w', e);
    }
  }

  lemma NodeLimited(env: Env, w: World, e: Id)
    requires Good(env, w) && e in w.nodes
    ensures Limited(w.nodes[e])
  {
    hide OriginsOk, Historical, BindingsUnique, Fenced, Windowed, Tabled, Limited, Replying;
  }

  lemma ReplyKnown(env: Env, w: World, e: Id, c: Id)
    requires Good(env, w) && e in w.nodes && c in w.nodes[e].auth.replies
    ensures ReplyOk(w.db, w.log, e, c, w.nodes[e].auth.replies[c])
  {
    hide OriginsOk, Historical, BindingsUnique, Fenced, Windowed, Tabled, Limited;
    assert Replying(w.db, w.log, e, w.nodes[e]);
  }

  lemma GrowsReflexive(db: Database, log: seq<Event>)
    ensures StoreGrows(db, db) && LogGrows(log, log)
  {
  }

  lemma NodeAndStoreStep(env: Env, w: World, w': World, e: Id)
    requires e in w.nodes && e in w'.nodes && w'.nodes == w.nodes[e := w'.nodes[e]] && w'.origins == w.origins && w.now <= w'.now
    requires w'.nodes[e].stoppedAt == w.nodes[e].stoppedAt
    requires StoreGrows(w.db, w'.db) && LogGrows(w.log, w'.log) && w'.db.controls.Keys == w.db.controls.Keys
    requires Good(env, w) && NodeOk(env, w'.db, w'.origins, w'.log, e, w'.nodes[e])
    requires Historical(w'.db, w'.log) && BindingsUnique(w'.db.controls)
    ensures Good(env, w')
  {
    hide NodeOk, Historical, BindingsUnique;
    OthersKept(env, w, w', e);
    forall c | c in w'.origins
      ensures OriginOk(env, w', c)
    {
      assert OriginOk(env, w, c);
    }
  }

  // ----- every run -----

  lemma StepKeepsGood(env: Env, w: World, act: Action)
    requires Good(env, w) && Possible(env, w, act)
    ensures Good(env, Apply(w, act))
  {
    hide Good;
    match act
    case Boot(_, _, _, _, _, _, _) => BootKeepsGood(env, w, act);
    case Stop(e, at) => StopKeepsGood(env, w, e, at);
    case UpdateRow(c, row) => UpdateRowKeepsGood(env, w, c, row);
    case InsertRow(c, row) => InsertRowKeepsGood(env, w, c, row);
    case LoseReplies(e, kept) => LoseRepliesKeepsGood(env, w, e, kept);
    case Call(e, at, op) =>
      match op
      case Initialize(_, _) => InitializeKeepsGood(env, w, e, at, op);
      case Prepare(_, _, _, _, _) => PrepareKeepsGood(env, w, e, at, op);
      case Stage(_, _, _, _, _, _) => StageKeepsGood(env, w, e, at, op);
      case Request(_, _, _, _, _, _) => RequestKeepsGood(env, w, e, at, op);
      case Validate(_, _, _, _) => ValidateKeepsGood(env, w, e, at, op);
      case Expired(_, _, _) => ExpiredKeepsGood(env, w, e, at, op);
      case LogicalNow(_, _) => LogicalNowKeepsGood(env, w, e, at, op);
  }

  lemma {:induction false} RunKeepsGood(env: Env, w: World, acts: seq<Action>)
    requires Good(env, w) && PossibleRun(env, w, acts)
    ensures Good(env, Exec(w, acts))
  {
    hide Good, Possible, Apply;
    if acts != [] {
      RunKeepsGood(env, w, acts[..|acts| - 1]);
      StepKeepsGood(env, Exec(w, acts[..|acts| - 1]), acts[|acts| - 1]);
    }
  }

  lemma StartIsGood(env: Env)
    ensures Good(env, START)
  {
  }
}
