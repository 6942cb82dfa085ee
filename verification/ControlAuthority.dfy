/** The permit authority: prepares a candidate with a tick deadline, stages it once
    and grants one permit per command. */
module ControlAuthority {
  import opened Common
  import opened CommandRecords
  import opened ControlClock

  const MAX_WINDOWS := 4096
  const MAX_REPLIES := 1024
  const MAX_RATES := 4096
  const PER_SECOND := 100
  const SECOND := 1_000_000

  datatype PermitRequest = PermitRequest(coreEpoch: Id, commandId: Id, bootId: Id, sessionId: Id, nonce: Id, intent: Digest)

  datatype Payload =
    | Candidate(wire: Wire)
    | Grant(request: PermitRequest, coreTime: int, expiresAt: int, remainingUs: int)

  datatype Delivery = Delivery(
    payload: Payload, commandId: Id, epoch: Id, deadlineTick: int, validUntilTick: int, grant: bool)

  datatype Window = Window(deadline: int, identity: Identity, digest: Digest)

  datatype Reply = Reply(binding: Binding, delivery: Delivery)

  datatype Device = Device(houseId: Id, deviceId: Id)

  datatype Limiter = Limiter(rates: map<Device, int>, globalSecond: int, globalCount: int)

  datatype Authority = Authority(
    clock: Clock, windows: map<Id, Window>, replies: map<Id, Reply>, limiter: Limiter,
    recoveryInitialized: bool, recoveryIds: set<Id>)
  {
    function Epoch(): Id {
      clock.epoch
    }
  }

  function InitialAuthority(clock: Clock): Authority {
    Authority(clock, map[], map[], Limiter(map[], -1, 0), false, {})
  }

  /** A new ledger row that has not been stored yet. */
  datatype Intent = Intent(commandId: Id, row: CommandRow, isTransient: bool)

  datatype Result<+T> = Result(auth: Authority, db: Database, answer: Outcome<T>)

  // ----- recovery snapshot -----

  function ForeignPending(db: Database, epoch: Id): set<Id> {
    set c | c in db.controls && c in db.commands && Pending(db.commands[c].status) && db.controls[c].epoch != epoch
  }

  function InitializeStep(a: Authority, db: Database, r: TickReading): (Authority, Outcome<()>) {
    var foreign := ForeignPending(db, a.Epoch());
    if a.recoveryInitialized then (a, Done(()))
    else if |foreign| > MAX_WINDOWS then (a, Refused(Unavailable))
    else if a.clock.timerFault || r.NotAnInteger? || r.us < a.clock.last then
      (a.(clock := a.clock.(timerFault := true)), Refused(Unavailable))
    else
      (a.(clock := a.clock.(last := r.us, fenceStart := r.us), recoveryIds := foreign, recoveryInitialized := true), Done(()))
  }

  // ----- prepare -----

  function CandidateWire(epoch: Id, commandId: Id, row: CommandRow): Wire {
    Wire(epoch, commandId, row.correlationId, row.createdAt, row.expiresAt, row.requestedOn)
  }

  predicate Preparable(db: Database, i: Intent) {
    && i.isTransient && Pending(i.row.status)
    && i.commandId !in db.commands && i.row.dispatchStartedAt == None
  }

  predicate Timely(row: CommandRow, now: int) {
    row.createdAt <= now < row.expiresAt && 0 < row.expiresAt - row.createdAt <= LIFETIME_US
  }

  /** Timing windows whose ledger row is already terminal. */
  function Terminal(windows: map<Id, Window>, db: Database): set<Id> {
    set c | c in windows && c in db.commands && !Pending(db.commands[c].status)
  }

  function Pruned(windows: map<Id, Window>, db: Database): map<Id, Window> {
    if |windows| >= MAX_WINDOWS then windows - Terminal(windows, db) else windows
  }

  function PrepareStep(a: Authority, db: Database, i: Intent, admission: Outcome<()>, s: SampleReads): Result<()> {
    if admission.Refused? then Result(a, db, Refused(admission.error))
    else if !a.recoveryInitialized then Result(a, db, Refused(Unavailable))
    else
      var (clock, sampled) := SampleStep(a.clock, s);
      var a1 := a.(clock := clock);
      if sampled.Refused? then Result(a1, db, Refused(sampled.error))
      else if !Preparable(db, i) || !Timely(i.row, sampled.value.now) then Result(a1, db, Refused(Conflict))
      else
        var a2 := a1.(windows := Pruned(a1.windows, db));
        if |a2.windows| >= MAX_WINDOWS then Result(a2, db, Refused(Unavailable))
        else if !Admits(db.commands, i.commandId, i.row) then Result(a2, db, Refused(Conflict))
        else
          var wire := CandidateWire(a.Epoch(), i.commandId, i.row);
          var window := Window(sampled.value.tick + (i.row.expiresAt - sampled.value.now), IdentityOf(i.commandId, i.row), Sha256(wire));
          Result(
            a2.(windows := a2.windows[i.commandId := window]),
            Database(db.commands[i.commandId := i.row],
                     db.controls[i.commandId := ControlRow(a.Epoch(), wire, Sha256(wire), None)]),
            Done(()))
  }

  // ----- stage -----

  predicate Found(db: Database, at: Device, commandId: Id) {
    && commandId in db.commands
    && db.commands[commandId].houseId == at.houseId && db.commands[commandId].deviceId == at.deviceId
  }

  /** The stored command, its control record and its timing window belong together. */
  predicate Current(a: Authority, db: Database, at: Device, commandId: Id) {
    && Found(db, at, commandId) && commandId in db.controls && commandId in a.windows
    && db.controls[commandId].epoch == a.Epoch()
    && Pending(db.commands[commandId].status)
    && a.windows[commandId].identity == IdentityOf(commandId, db.commands[commandId])
    && db.controls[commandId].digest == a.windows[commandId].digest
    && Sha256(db.controls[commandId].payload) == a.windows[commandId].digest
  }

  function StageStep(a: Authority, db: Database, at: Device, commandId: Id, admission: Outcome<()>, s: SampleReads): Result<Delivery> {
    if admission.Refused? then Result(a, db, Refused(admission.error))
    else
      var (clock, sampled) := SampleStep(a.clock, s);
      var a1 := a.(clock := clock);
      if sampled.Refused? then Result(a1, db, Refused(sampled.error))
      else if !Current(a1, db, at, commandId) || db.commands[commandId].dispatchStartedAt != None
              || sampled.value.tick >= a1.windows[commandId].deadline
      then Result(a1, db, Refused(Conflict))
      else
        var row := db.commands[commandId].(dispatchStartedAt := Some(sampled.value.now));
        var deadline := a1.windows[commandId].deadline;
        Result(a1, db.(commands := db.commands[commandId := row]),
          Done(Delivery(Candidate(db.controls[commandId].payload), commandId, a.Epoch(), deadline, deadline, false)))
  }

  // ----- request -----

  function Fresh(rates: map<Device, int>, tick: int): map<Device, int> {
    map k | k in rates && tick - rates[k] < SECOND :: rates[k]
  }

  function LimitStep(l: Limiter, key: Device, tick: int): (Limiter, bool) {
    var rates := Fresh(l.rates, tick);
    var second := tick / SECOND;
    var count := if second != l.globalSecond then 0 else l.globalCount;
    if key in rates || |rates| >= MAX_RATES || count >= PER_SECOND then (Limiter(rates, second, count), false)
    else (Limiter(rates[key := tick], second, count + 1), true)
  }

  function LiveReplies(replies: map<Id, Reply>, tick: int): map<Id, Reply> {
    map c | c in replies && replies[c].delivery.validUntilTick > tick :: replies[c]
  }

  function BindingOf(at: Device, q: PermitRequest): Binding {
    Binding(at.houseId, at.deviceId, q.coreEpoch, q.bootId, q.sessionId, q.nonce)
  }

  function Min(x: int, y: int): int {
    if x <= y then x else y
  }

  predicate Matches(a: Authority, db: Database, at: Device, q: PermitRequest) {
    && Current(a, db, at, q.commandId)
    && q.coreEpoch == a.Epoch() && q.intent == db.controls[q.commandId].digest
    && db.commands[q.commandId].dispatchStartedAt != None
  }

  /** A stored reply that may be repeated to the same device session. */
  predicate Replayable(a: Authority, db: Database, at: Device, q: PermitRequest, tick: int)
    requires q.commandId in db.controls
  {
    && db.controls[q.commandId].binding == Some(BindingOf(at, q))
    && q.commandId in a.replies && a.replies[q.commandId].binding == BindingOf(at, q)
    && tick < a.replies[q.commandId].delivery.validUntilTick
  }

  /** `passed` tells that the limiter spent a slot on this request. */
  datatype Requested = Requested(auth: Authority, db: Database, answer: Outcome<Delivery>, passed: bool)

  function RequestStep(a: Authority, db: Database, at: Device, q: PermitRequest, admission: Outcome<()>, s: SampleReads): Requested {
    if admission.Refused? then Requested(a, db, Refused(admission.error), false)
    else
      var (clock, sampled) := SampleStep(a.clock, s);
      var a1 := a.(clock := clock);
      if sampled.Refused? then Requested(a1, db, Refused(sampled.error), false)
      else if !Matches(a1, db, at, q) || sampled.value.tick >= a1.windows[q.commandId].deadline
      then Requested(a1, db, Refused(Conflict), false)
      else if db.controls[q.commandId].binding != None then
        Requested(a1, db,
          if Replayable(a1, db, at, q, sampled.value.tick) then Done(a1.replies[q.commandId].delivery) else Refused(Conflict),
          false)
      else
        var (limiter, passed) := LimitStep(a1.limiter, at, sampled.value.tick);
        var a2 := a1.(limiter := limiter);
        if !passed then Requested(a2, db, Refused(Unavailable), false)
        else GrantStep(a2, db, at, q, sampled.value)
  }

  /** What follows once the limiter let a fresh request through. */
  function GrantStep(a: Authority, db: Database, at: Device, q: PermitRequest, now: Sampled): Requested
    requires q.commandId in a.windows && q.commandId in db.controls && q.commandId in db.commands
  {
    var a1 := a.(replies := LiveReplies(a.replies, now.tick));
    var deadline := a.windows[q.commandId].deadline;
    var remaining := Min(PERMIT_US, deadline - now.tick) - 1;
    if |a1.replies| >= MAX_REPLIES then Requested(a1, db, Refused(Unavailable), true)
    else if remaining <= 0 || !BindingFree(db.controls, BindingOf(at, q)) then Requested(a1, db, Refused(Conflict), true)
    else
      var delivery := Delivery(Grant(q, now.now, db.commands[q.commandId].expiresAt, remaining),
        q.commandId, a.Epoch(), deadline, now.tick + remaining, true);
      var record := db.controls[q.commandId].(binding := Some(BindingOf(at, q)));
      Requested(
        a1.(replies := a1.replies[q.commandId := Reply(BindingOf(at, q), delivery)]),
        db.(controls := db.controls[q.commandId := record]),
        Done(delivery), true)
  }

  // ----- delivery check and expiry -----

  function ValidateStep(a: Authority, d: Delivery, s: SampleReads): (Authority, Outcome<()>) {
    var (clock, sampled) := SampleStep(a.clock, s);
    (a.(clock := clock),
     if sampled.Refused? then Refused(sampled.error)
     else if d.epoch != a.Epoch() || sampled.value.tick >= Min(d.validUntilTick, d.deadlineTick) then Refused(Conflict)
     else Done(()))
  }

  function ExpiredStep(a: Authority, commandId: Id, record: ControlRow, r: TickReading): (Authority, Outcome<bool>) {
    if record.epoch != a.Epoch() then
      if !a.recoveryInitialized || commandId !in a.recoveryIds then (a, Refused(Unavailable))
      else
        var (clock, ready) := RecoveredStep(a.clock, r);
        (a.(clock := clock), if ready == Done(true) then Done(true) else Refused(Unavailable))
    else if commandId !in a.windows then (a, Refused(Unavailable))
    else
      var (clock, tick) := TickStep(a.clock, r);
      (a.(clock := clock), if tick.Refused? then Refused(tick.error) else Done(tick.value >= a.windows[commandId].deadline))
  }

  class ControlAuthority {
    const clock: ControlClock
    var windows: map<Id, Window>
    var replies: map<Id, Reply>
    var rates: map<Device, int>
    var globalSecond: int
    var globalCount: int
    var recoveryInitialized: bool
    var recoveryIds: set<Id>

    function Model(): Authority
      reads this, clock
    {
      Authority(clock.Model(), windows, replies, Limiter(rates, globalSecond, globalCount), recoveryInitialized, recoveryIds)
    }

    constructor (clock: ControlClock)
      ensures this.clock == clock && Model() == InitialAuthority(clock.Model())
    {
      this.clock := clock;
      windows, replies, rates := map[], map[], map[];
      globalSecond, globalCount := -1, 0;
      recoveryInitialized, recoveryIds := false, {};
    }

    method Initialize(session: Session, r: TickReading) returns (o: Outcome<()>)
      modifies this, clock
      ensures (Model(), o) == InitializeStep(old(Model()), session.Db(), r)
    {
      if recoveryInitialized {
        return Done(());
      }
      var identifiers := ForeignPending(session.Db(), clock.epoch);
      if |identifiers| > MAX_WINDOWS {
        return Refused(Unavailable);
      }
      if clock.timerFault || r.NotAnInteger? || r.us < clock.last {
        clock.timerFault := true;
        return Refused(Unavailable);
      }
      clock.last := r.us;
      clock.fenceStart := r.us;
      recoveryIds := identifiers;
      recoveryInitialized := true;
      return Done(());
    }

    /** Drops the windows of terminal commands, one by one, when the table is full. */
    method ReleaseTerminal(session: Session)
      modifies this`windows
      ensures windows == Pruned(old(windows), session.Db())
    {
      if |windows| >= MAX_WINDOWS {
        var terminal := Terminal(windows, session.Db());
        var left := terminal;
        while left != {}
          invariant left <= terminal
          invariant windows == old(windows) - (terminal - left)
        {
          var identifier :| identifier in left;
          windows := windows - {identifier};
          left := left - {identifier};
        }
      }
    }

    method Prepare(session: Session, i: Intent, admission: Outcome<()>, s: SampleReads) returns (o: Outcome<()>)
      modifies this, clock, session
      ensures Result(Model(), session.Db(), o) == PrepareStep(old(Model()), old(session.Db()), i, admission, s)
    {
      if admission.Refused? {
        return Refused(admission.error);
      }
      if !recoveryInitialized {
        return Refused(Unavailable);
      }
      var sampled := clock.Sample(s);
      if sampled.Refused? {
        return Refused(sampled.error);
      }
      var now, tick := sampled.value.now, sampled.value.tick;
      if !i.isTransient || !Pending(i.row.status) || i.commandId in session.commands || i.row.dispatchStartedAt != None {
        return Refused(Conflict);
      }
      var remaining := i.row.expiresAt - now;
      var lifetime := i.row.expiresAt - i.row.createdAt;
      if !(i.row.createdAt <= now < i.row.expiresAt) || !(0 < lifetime <= LIFETIME_US) {
        return Refused(Conflict);
      }
      ReleaseTerminal(session);
      if |windows| >= MAX_WINDOWS {
        return Refused(Unavailable);
      }
      var payload := CandidateWire(clock.epoch, i.commandId, i.row);
      var record := ControlRow(clock.epoch, payload, Sha256(payload), None);
      if !Admits(session.commands, i.commandId, i.row) {
        return Refused(Conflict);
      }
      session.commands := session.commands[i.commandId := i.row];
      session.controls := session.controls[i.commandId := record];
      windows := windows[i.commandId := Window(tick + remaining, IdentityOf(i.commandId, i.row), record.digest)];
      return Done(());
    }

    method Stage(session: Session, at: Device, commandId: Id, admission: Outcome<()>, s: SampleReads) returns (o: Outcome<Delivery>)
      modifies this, clock, session
      ensures Result(Model(), session.Db(), o) == StageStep(old(Model()), old(session.Db()), at, commandId, admission, s)
    {
      if admission.Refused? {
        return Refused(admission.error);
      }
      var sampled := clock.Sample(s);
      if sampled.Refused? {
        return Refused(sampled.error);
      }
      if !Current(Model(), session.Db(), at, commandId) {
        return Refused(Conflict);
      }
      var row, window := session.commands[commandId], windows[commandId];
      if row.dispatchStartedAt != None || sampled.value.tick >= window.deadline {
        return Refused(Conflict);
      }
      session.commands := session.commands[commandId := row.(dispatchStartedAt := Some(sampled.value.now))];
      return Done(Delivery(Candidate(session.controls[commandId].payload), commandId, clock.epoch, window.deadline, window.deadline, false));
    }

    /** False stands for the "rate exceeded" error. */
    method Limit(key: Device, tick: int) returns (passed: bool)
      modifies this`rates, this`globalSecond, this`globalCount
      ensures (Limiter(rates, globalSecond, globalCount), passed)
           == LimitStep(Limiter(old(rates), old(globalSecond), old(globalCount)), key, tick)
    {
      rates := map k | k in rates && tick - rates[k] < SECOND :: rates[k];
      var second := tick / SECOND;
      if second != globalSecond {
        globalSecond, globalCount := second, 0;
      }
      if key in rates || |rates| >= MAX_RATES || globalCount >= PER_SECOND {
        return false;
      }
      rates := rates[key := tick];
      globalCount := globalCount + 1;
      return true;
    }

    method Request(session: Session, at: Device, q: PermitRequest, admission: Outcome<()>, s: SampleReads) returns (o: Outcome<Delivery>)
      modifies this, clock, session
      ensures var r := RequestStep(old(Model()), old(session.Db()), at, q, admission, s);
              Model() == r.auth && session.Db() == r.db && o == r.answer
    {
      if admission.Refused? {
        return Refused(admission.error);
      }
      var sampled := clock.Sample(s);
      if sampled.Refused? {
        return Refused(sampled.error);
      }
      var now, tick := sampled.value.now, sampled.value.tick;
      if !Matches(Model(), session.Db(), at, q) {
        return Refused(Conflict);
      }
      var record, window := session.controls[q.commandId], windows[q.commandId];
      if tick >= window.deadline {
        return Refused(Conflict);
      }
      var binding := BindingOf(at, q);
      if record.binding != None {
        if record.binding == Some(binding) && q.commandId in replies && replies[q.commandId].binding == binding
           && tick < replies[q.commandId].delivery.validUntilTick
        {
          return Done(replies[q.commandId].delivery);
        }
        return Refused(Conflict);
      }
      var passed := Limit(at, tick);
      if !passed {
        return Refused(Unavailable);
      }
      o := Issue(session, at, q, sampled.value);
    }

    /** Consumes the binding and issues the permit, once the limiter let the request through. */
    method Issue(session: Session, at: Device, q: PermitRequest, now: Sampled) returns (o: Outcome<Delivery>)
      requires q.commandId in windows && q.commandId in session.controls && q.commandId in session.commands
      modifies this`replies, session`controls
      ensures var r := GrantStep(old(Model()), old(session.Db()), at, q, now);
              Model() == r.auth && session.Db() == r.db && o == r.answer
    {
      var binding, record, window := BindingOf(at, q), session.controls[q.commandId], windows[q.commandId];
      replies := map c | c in replies && replies[c].delivery.validUntilTick > now.tick :: replies[c];
      if |replies| >= MAX_REPLIES {
        return Refused(Unavailable);
      }
      var remaining := Min(PERMIT_US, window.deadline - now.tick) - 1;
      if remaining <= 0 {
        return Refused(Conflict);
      }
      var payload := Grant(q, now.now, session.commands[q.commandId].expiresAt, remaining);
      if !BindingFree(session.controls, binding) {
        return Refused(Conflict);
      }
      session.controls := session.controls[q.commandId := record.(binding := Some(binding))];
      var reply := Delivery(payload, q.commandId, clock.epoch, window.deadline, now.tick + remaining, true);
      replies := replies[q.commandId := Reply(binding, reply)];
      return Done(reply);
    }

    method ValidateDelivery(d: Delivery, s: SampleReads) returns (o: Outcome<()>)
      modifies clock
      ensures (Model(), o) == ValidateStep(old(Model()), d, s)
    {
      var sampled := clock.Sample(s);
      if sampled.Refused? {
        return Refused(sampled.error);
      }
      if d.epoch != clock.epoch || sampled.value.tick >= Min(d.validUntilTick, d.deadlineTick) {
        return Refused(Conflict);
      }
      return Done(());
    }

    method Expired(commandId: Id, record: ControlRow, r: TickReading) returns (o: Outcome<bool>)
      modifies clock
      ensures (Model(), o) == ExpiredStep(old(Model()), commandId, record, r)
    {
      if record.epoch != clock.epoch {
        if !recoveryInitialized || commandId !in recoveryIds {
          return Refused(Unavailable);
        }
        var ready := clock.Recovered(r);
        if ready != Done(true) {
          return Refused(Unavailable);
        }
        return Done(true);
      }
      if commandId !in windows {
        return Refused(Unavailable);
      }
      var tick := clock.Tick(r);
      if tick.Refused? {
        return Refused(tick.error);
      }
      return Done(tick.value >= windows[commandId].deadline);
    }
  }
}
