/** Any number of permit authorities (epochs) over one durable store, with drifting
    clocks, restarts, lost caches and ledger updates in between.

    Store effects happen one at a time, at non-decreasing real times. The clock
    readings of an operation happen at their own real times, so operations of
    different processes may overlap. */
module AuthorityRuns {
  import opened Common
  import opened CommandRecords
  import opened ControlClock
  import opened RecoveryFence
  import opened ControlAuthority
  import opened PermitLimiter

  /** The hardware: what each epoch's counter shows at each real time, and how far
      such counters may drift. */
  datatype Env = Env(counter: (Id, real) -> int, drift: Drift)

  ghost predicate Steady(env: Env, epoch: Id) {
    forall t: real, u: real :: t <= u ==>
      MayAdvance(env.drift, u - t, env.counter(epoch, u) - env.counter(epoch, t))
  }

  ghost predicate Honest(env: Env) {
    forall epoch :: Steady(env, epoch)
  }

  /** What is remembered of a prepared command for the statements below. */
  datatype Origin = Origin(epoch: Id, tick: int, readAt: real, deadline: int)

  datatype Event =
    | Prepared(commandId: Id)
    | Staged(commandId: Id, delivery: Delivery)
    | Granted(commandId: Id, binding: Binding, delivery: Delivery)

  datatype Node = Node(
    auth: Authority, ratePpm: nat, errorUs: nat, lastReadAt: real, snapshotAt: real, fenceAt: real,
    stoppedAt: Option<real>, passes: seq<Pass>)

  datatype World = World(db: Database, nodes: map<Id, Node>, origins: map<Id, Origin>, now: real, log: seq<Event>)

  datatype Op =
    | Initialize(r: TickReading, readAt: real)
    | Prepare(intent: Intent, admission: Outcome<()>, s: SampleReads, readAt: real, againAt: real)
    | Stage(device: Device, commandId: Id, admission: Outcome<()>, s: SampleReads, readAt: real, againAt: real)
    | Request(device: Device, q: PermitRequest, admission: Outcome<()>, s: SampleReads, readAt: real, againAt: real)
    | Validate(delivery: Delivery, s: SampleReads, readAt: real, againAt: real)
    | Expired(commandId: Id, r: TickReading, readAt: real)
    | LogicalNow(r: TickReading, readAt: real)

  datatype Action =
    | Boot(epoch: Id, qualified: bool, first: TickReading, wall: WallReading, ratePpm: nat, errorUs: nat, at: real)
    | Stop(epoch: Id, at: real)
    | Call(epoch: Id, at: real, op: Op)
    | UpdateRow(commandId: Id, row: CommandRow)
    | InsertRow(commandId: Id, row: CommandRow)
    | LoseReplies(epoch: Id, kept: set<Id>)

  const START := World(Database(map[], map[]), map[], map[], 0.0, [])

  function TickOf(r: TickReading): int {
    if r.Ticks? then r.us else 0
  }

  function DeadlineOf(a: Authority, commandId: Id): int {
    if commandId in a.windows then a.windows[commandId].deadline else 0
  }

  // ----- what may happen -----

  /** A reading that the latch lets through shows the hardware counter. */
  predicate True(env: Env, epoch: Id, last: int, r: TickReading, t: real) {
    r.Ticks? && last <= r.us ==> r.us == env.counter(epoch, t)
  }

  predicate TrueSample(env: Env, n: Node, s: SampleReads, readAt: real, againAt: real) {
    && n.lastReadAt <= readAt <= againAt
    && True(env, n.auth.Epoch(), n.auth.clock.last, s.tick, readAt)
    && (s.tick.Ticks? ==> True(env, n.auth.Epoch(), s.tick.us, s.again, againAt))
  }

  ghost predicate Possible(env: Env, w: World, act: Action) {
    match act
    case Boot(epoch, _, first, _, ratePpm, errorUs, at) =>
      && epoch !in w.nodes && w.now <= at && ValidDrift(env.drift, ratePpm, errorUs)
      && (first.Ticks? ==> first.us == env.counter(epoch, at))
    case Stop(epoch, at) => epoch in w.nodes && w.nodes[epoch].stoppedAt == None && w.now <= at
    case Call(epoch, at, op) =>
      && epoch in w.nodes && w.nodes[epoch].stoppedAt == None && w.now <= at
      && PossibleOp(env, w, w.nodes[epoch], at, op)
    case UpdateRow(c, row) => c in w.db.commands && Preserves(w.db.commands[c], row)  // all that CommandLedger does
    case InsertRow(c, row) => Admits(w.db.commands, c, row)
    case LoseReplies(epoch, _) => epoch in w.nodes
  }

  predicate PossibleOp(env: Env, w: World, n: Node, at: real, op: Op) {
    match op
    case Initialize(r, readAt) =>
      && at <= readAt && n.lastReadAt <= readAt
      && True(env, n.auth.Epoch(), n.auth.clock.last, r, readAt)
    case Prepare(_, _, s, readAt, againAt) => TrueSample(env, n, s, readAt, againAt) && againAt <= at
    case Stage(_, _, _, s, readAt, againAt) => TrueSample(env, n, s, readAt, againAt) && againAt <= at
    case Request(_, _, _, s, readAt, againAt) => TrueSample(env, n, s, readAt, againAt) && againAt <= at
    case Validate(_, s, readAt, againAt) => TrueSample(env, n, s, readAt, againAt)
    case Expired(c, r, readAt) =>
      && c in w.db.controls && n.lastReadAt <= readAt
      && True(env, n.auth.Epoch(), n.auth.clock.last, r, readAt)
    case LogicalNow(r, readAt) => n.lastReadAt <= readAt && True(env, n.auth.Epoch(), n.auth.clock.last, r, readAt)
  }

  // ----- what then happens -----

  function CallStep(w: World, e: Id, at: real, op: Op): World
    requires e in w.nodes
  {
    var n := w.nodes[e];
    match op
    case Initialize(r, readAt) =>
      var (auth, o) := InitializeStep(n.auth, w.db, r);
      var n1 := n.(auth := auth, lastReadAt := readAt);
      var n2 := if o.Done? && !n.auth.recoveryInitialized then n1.(snapshotAt := at, fenceAt := readAt) else n1;
      w.(nodes := w.nodes[e := n2], now := at)
    case Prepare(i, admission, s, readAt, againAt) =>
      var r := PrepareStep(n.auth, w.db, i, admission, s);
      var w1 := w.(db := r.db, nodes := w.nodes[e := n.(auth := r.auth, lastReadAt := againAt)], now := at);
      if r.answer.Refused? then w1
      else w1.(origins := w.origins[i.commandId := Origin(e, TickOf(s.tick), readAt, DeadlineOf(r.auth, i.commandId))],
               log := w.log + [Prepared(i.commandId)])
    case Stage(device, c, admission, s, _, againAt) =>
      var r := StageStep(n.auth, w.db, device, c, admission, s);
      var w1 := w.(db := r.db, nodes := w.nodes[e := n.(auth := r.auth, lastReadAt := againAt)], now := at);
      if r.answer.Refused? then w1 else w1.(log := w.log + [Staged(c, r.answer.value)])
    case Request(device, q, admission, s, _, againAt) =>
      var r := RequestStep(n.auth, w.db, device, q, admission, s);
      var grant := if r.answer.Done? then Some(r.answer.value) else None;
      var passes := if r.passed then n.passes + [Pass(device, TickOf(s.tick), grant)] else n.passes;
      var w1 := w.(db := r.db, nodes := w.nodes[e := n.(auth := r.auth, lastReadAt := againAt, passes := passes)], now := at);
      if r.answer.Refused? then w1
      else w1.(log := w.log + [Granted(q.commandId, BindingOf(device, q), r.answer.value)])
    case Validate(d, s, _, againAt) =>
      w.(nodes := w.nodes[e := n.(auth := ValidateStep(n.auth, d, s).0, lastReadAt := againAt)], now := at)
    case Expired(c, r, readAt) =>
      if c !in w.db.controls then w
      else w.(nodes := w.nodes[e := n.(auth := ExpiredStep(n.auth, c, w.db.controls[c], r).0, lastReadAt := readAt)], now := at)
    case LogicalNow(r, readAt) =>
      var auth := n.auth.(clock := LogicalNowStep(n.auth.clock, r).0);
      w.(nodes := w.nodes[e := n.(auth := auth, lastReadAt := readAt)], now := at)
  }

  function Apply(w: World, act: Action): World {
    match act
    case Boot(epoch, qualified, first, wall, ratePpm, errorUs, at) =>
      if ratePpm >= PPM then w
      else
        var clock := InitialClock(epoch, qualified, first, wall, ratePpm, errorUs);
        w.(nodes := w.nodes[epoch := Node(InitialAuthority(clock), ratePpm, errorUs, at, at, at, None, [])], now := at)
    case Stop(epoch, at) =>
      if epoch in w.nodes then w.(nodes := w.nodes[epoch := w.nodes[epoch].(stoppedAt := Some(at))], now := at) else w
    case Call(epoch, at, op) => if epoch in w.nodes then CallStep(w, epoch, at, op) else w
    case UpdateRow(c, row) => w.(db := w.db.(commands := w.db.commands[c := row]))
    case InsertRow(c, row) => w.(db := w.db.(commands := w.db.commands[c := row]))
    case LoseReplies(epoch, kept) =>
      if epoch in w.nodes then
        var n := w.nodes[epoch];
        var replies := map c | c in n.auth.replies && c in kept :: n.auth.replies[c];
        w.(nodes := w.nodes[epoch := n.(auth := n.auth.(replies := replies))])
      else w
  }

  function Exec(w: World, acts: seq<Action>): World {
    if acts == [] then w else Apply(Exec(w, acts[..|acts| - 1]), acts[|acts| - 1])
  }

  ghost predicate PossibleRun(env: Env, w: World, acts: seq<Action>) {
    acts == [] ||
    (PossibleRun(env, w, acts[..|acts| - 1]) && Possible(env, Exec(w, acts[..|acts| - 1]), acts[|acts| - 1]))
  }

  /** The events of one command, in order. */
  function History(log: seq<Event>, c: Id): seq<Event> {
    if log == [] then []
    else History(log[..|log| - 1], c) + (if log[|log| - 1].commandId == c then [log[|log| - 1]] else [])
  }

  // ----- the invariant -----

  predicate ShortPermit(d: Delivery) {
    && d.grant && d.payload.Grant? && 0 < d.payload.remainingUs < PERMIT_US
    && d.validUntilTick < d.deadlineTick
  }

  /** prepare, then one stage, then one and the same permit again and again. */
  ghost predicate LegalHistory(h: seq<Event>) {
    && (|h| > 0 ==> h[0].Prepared?)
    && (|h| > 1 ==> h[1].Staged?)
    && (forall k :: 2 <= k < |h| ==> h[k] == h[2])
    && (|h| > 2 ==> h[2].Granted? && ShortPermit(h[2].delivery))
  }

  ghost predicate Recorded(db: Database, c: Id, h: seq<Event>) {
    && (h == [] <==> c !in db.controls)
    && (c in db.controls ==>
          && c in db.commands && db.controls[c].digest == Sha256(db.controls[c].payload)
          && (|h| == 1 <==> db.commands[c].dispatchStartedAt == None)
          && (|h| <= 2 <==> db.controls[c].binding == None)
          && (|h| > 2 ==> h[2].Granted? && db.controls[c].binding == Some(h[2].binding)))
  }

  ghost predicate Historical(db: Database, log: seq<Event>) {
    forall c :: LegalHistory(History(log, c)) && Recorded(db, c, History(log, c))
  }

  ghost predicate BindingsUnique(controls: map<Id, ControlRow>) {
    forall c, d :: c in controls && d in controls && c != d && controls[c].binding != None
      ==> controls[c].binding != controls[d].binding
  }

  ghost predicate OriginOk(env: Env, w: World, c: Id)
    requires c in w.origins
  {
    var o := w.origins[c];
    && c in w.db.controls && w.db.controls[c].epoch == o.epoch && o.epoch in w.nodes
    && o.tick == env.counter(o.epoch, o.readAt) && o.deadline <= o.tick + LIFETIME_US && o.readAt <= w.now
    && (w.nodes[o.epoch].stoppedAt.Some? ==> o.readAt <= w.nodes[o.epoch].stoppedAt.value)
  }

  ghost predicate OriginsOk(env: Env, w: World) {
    && w.origins.Keys == w.db.controls.Keys
    && forall c :: c in w.origins ==> OriginOk(env, w, c)
  }

  ghost predicate Fenced(env: Env, origins: map<Id, Origin>, e: Id, n: Node) {
    && n.auth.Epoch() == e && ValidDrift(env.drift, n.ratePpm, n.errorUs)
    && n.auth.clock.fenceUs == FenceUs(n.ratePpm, n.errorUs)
    && (n.auth.recoveryInitialized ==>
          && n.auth.clock.fenceStart == env.counter(e, n.fenceAt)
          && n.snapshotAt <= n.fenceAt <= n.lastReadAt
          && forall c :: c in n.auth.recoveryIds ==> c in origins && origins[c].readAt <= n.fenceAt)
  }

  ghost predicate WindowOk(db: Database, origins: map<Id, Origin>, e: Id, clock: Clock, c: Id, window: Window) {
    && c in origins && origins[c].epoch == e && window.deadline == origins[c].deadline
    && c in db.commands && window.identity == IdentityOf(c, db.commands[c])
    && clock.anchor.Utc? && window.deadline - clock.start == window.identity.expiresAt - clock.anchor.us
  }

  ghost predicate Windowed(db: Database, origins: map<Id, Origin>, e: Id, n: Node) {
    && |n.auth.windows| <= MAX_WINDOWS
    && forall c :: c in n.auth.windows ==> WindowOk(db, origins, e, n.auth.clock, c, n.auth.windows[c])
  }

  /** A pending control command of this epoch. */
  predicate OwnPending(db: Database, e: Id, c: Id) {
    c in db.controls && db.controls[c].epoch == e && c in db.commands && Pending(db.commands[c].status)
  }

  ghost predicate Tabled(db: Database, e: Id, n: Node) {
    forall c :: OwnPending(db, e, c) ==> c in n.auth.windows && n.auth.windows[c].digest == db.controls[c].digest
  }

  ghost predicate Limited(n: Node) {
    && Explains(n.auth.limiter, n.passes, n.auth.clock.last)
    && RepliesExplained(n.auth.replies, n.passes) && AllIssued(n.passes)
    && |n.auth.limiter.rates| <= 200 && |n.auth.replies| <= 300
  }

  ghost predicate ReplyOk(db: Database, log: seq<Event>, e: Id, c: Id, reply: Reply) {
    && c in db.controls && db.controls[c].epoch == e
    && |History(log, c)| > 2 && History(log, c)[2] == Granted(c, reply.binding, reply.delivery)
  }

  ghost predicate Replying(db: Database, log: seq<Event>, e: Id, n: Node) {
    forall c :: c in n.auth.replies ==> ReplyOk(db, log, e, c, n.auth.replies[c])
  }

  ghost predicate NodeOk(env: Env, db: Database, origins: map<Id, Origin>, log: seq<Event>, e: Id, n: Node) {
    && Fenced(env, origins, e, n) && Windowed(db, origins, e, n) && Tabled(db, e, n) && Limited(n)
    && Replying(db, log, e, n)
  }

  ghost predicate Good(env: Env, w: World) {
    && OriginsOk(env, w) && Historical(w.db, w.log) && BindingsUnique(w.db.controls)
    && forall e :: e in w.nodes ==> NodeOk(env, w.db, w.origins, w.log, e, w.nodes[e])
  }

  // ----- how the store evolves -----

  /** Stored intents and candidates never change, terminal rows stay terminal, a
      binding is written once. */
  ghost predicate StoreGrows(db: Database, db': Database) {
    && db.commands.Keys <= db'.commands.Keys && db.controls.Keys <= db'.controls.Keys
    && (forall c :: c in db.commands ==>
          && IdentityOf(c, db'.commands[c]) == IdentityOf(c, db.commands[c])
          && (Pending(db'.commands[c].status) ==> Pending(db.commands[c].status)))
    && (forall c :: c in db.controls ==>
          && db'.controls[c].(binding := db.controls[c].binding) == db.controls[c]
          && (db.controls[c].binding.Some? ==> db'.controls[c].binding == db.controls[c].binding))
  }

  ghost predicate LogGrows(log: seq<Event>, log': seq<Event>) {
    forall c :: History(log, c) <= History(log', c)
  }

  lemma AppendHistory(log: seq<Event>, ev: Event)
    ensures forall c :: History(log + [ev], c) == History(log, c) + (if ev.commandId == c then [ev] else [])
    ensures LogGrows(log, log + [ev])
  {
    assert (log + [ev])[..|log|] == log;
  }

  /** Nodes that did not act keep their part of the invariant. */
  lemma BystanderKept(env: Env, w: World, w': World, e: Id)
    requires e in w.nodes && e in w'.nodes && w'.nodes[e] == w.nodes[e]
    requires NodeOk(env, w.db, w.origins, w.log, e, w.nodes[e])
    requires StoreGrows(w.db, w'.db) && LogGrows(w.log, w'.log)
    requires forall c :: c in w.origins ==> c in w'.origins && w'.origins[c] == w.origins[c]
    requires forall c :: c in w'.db.controls && c !in w.db.controls ==> w'.db.controls[c].epoch != e
    requires w.db.controls.Keys <= w.db.commands.Keys
    ensures NodeOk(env, w'.db, w'.origins, w'.log, e, w'.nodes[e])
  {
    var n := w.nodes[e];
    forall c | c in n.auth.windows
      ensures WindowOk(w'.db, w'.origins, e, n.auth.clock, c, n.auth.windows[c])
    {
      assert WindowOk(w.db, w.origins, e, n.auth.clock, c, n.auth.windows[c]);
    }
    forall c | OwnPending(w'.db, e, c)
      ensures c in n.auth.windows && n.auth.windows[c].digest == w'.db.controls[c].digest
    {
      assert c in w.db.controls;
      assert OwnPending(w.db, e, c);
    }
    forall c | c in n.auth.replies
      ensures ReplyOk(w'.db, w'.log, e, c, n.auth.replies[c])
    {
      assert ReplyOk(w.db, w.log, e, c, n.auth.replies[c]);
      assert History(w.log, c) <= History(w'.log, c);
    }
  }

  lemma OthersKept(env: Env, w: World, w': World, actor: Id)
    requires Good(env, w)
    requires w'.nodes.Keys == w.nodes.Keys && forall e :: e in w.nodes && e != actor ==> w'.nodes[e] == w.nodes[e]
    requires StoreGrows(w.db, w'.db) && LogGrows(w.log, w'.log)
    requires forall c :: c in w.origins ==> c in w'.origins && w'.origins[c] == w.origins[c]
    requires forall c :: c in w'.db.controls && c !in w.db.controls ==> w'.db.controls[c].epoch == actor
    ensures forall e :: e in w'.nodes && e != actor ==> NodeOk(env, w'.db, w'.origins, w'.log, e, w'.nodes[e])
  {
    ControlsHaveRows(w.db, w.log);
    forall e | e in w'.nodes && e != actor
      ensures NodeOk(env, w'.db, w'.origins, w'.log, e, w'.nodes[e])
    {
      BystanderKept(env, w, w', e);
    }
  }

  lemma ControlsHaveRows(db: Database, log: seq<Event>)
    requires Historical(db, log)
    ensures db.controls.Keys <= db.commands.Keys
  {
    forall c | c in db.controls
      ensures c in db.commands
    {
      assert Recorded(db, c, History(log, c));
    }
  }
}
