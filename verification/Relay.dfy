/** The software relay: a bounded, evicting duplicate cache in front of one output. */
module Relay {
  import opened Common

  const COMMAND_WINDOW := 300_000_000
  const COMMAND_LIFETIME := 30_000_000
  const CACHE_CAPACITY := 4096

  datatype Time = Aware(us: int) | Naive(us: int)

  /** A JSON value, as far as the relay tells them apart. */
  datatype Value = Bool(b: bool) | Number(n: int) | OtherValue(tag: Id)

  /** The requested state: exactly the key "on", or some other set of keys. */
  datatype Patch = OnlyOn(value: Value) | OtherKeys(tag: Id)

  datatype Command = Command(commandId: Id, correlationId: Id, timestamp: Time, expiresAt: Option<Time>, state: Patch)

  datatype ErrorCode = ProtocolError | Timeout | UnsupportedCapability | InvalidValue

  /** `error` is None for an "applied" acknowledgement, else it was "rejected". */
  datatype Ack = Ack(commandId: Id, correlationId: Id, timestamp: int, error: Option<ErrorCode>)

  datatype Entry = Entry(until: int, command: Command, ack: Ack)

  datatype Message = AckMessage(ack: Ack) | StateMessage(correlationId: Id, on: bool)

  datatype RelayState = RelayState(on: bool, seen: map<Id, Entry>)

  const POWERED_UP := RelayState(false, map[])

  /** Python compares True with 1 and False with 0 as equal, so the duplicate check
      cannot tell them apart; this is the representative of such a class. */
  function Normal(c: Command): Command {
    match c.state
    case OnlyOn(Bool(b)) => c.(state := OnlyOn(Number(if b then 1 else 0)))
    case _ => c
  }

  predicate Same(c: Command, d: Command) {
    Normal(c) == Normal(d)
  }

  /** Two commands count as the same if they differ at most in a 1 for a true or a 0 for
      a false. */
  lemma SameExactlyWhen(c: Command, d: Command)
    ensures Same(c, d) <==>
              && c.commandId == d.commandId && c.correlationId == d.correlationId
              && c.timestamp == d.timestamp && c.expiresAt == d.expiresAt
              && (|| c.state == d.state
                  || (c.state.OnlyOn? && d.state.OnlyOn?
                      && (|| {c.state.value, d.state.value} == {Bool(true), Number(1)}
                          || {c.state.value, d.state.value} == {Bool(false), Number(0)})))
  {
    var pair := if c.state.OnlyOn? && d.state.OnlyOn? then {c.state.value, d.state.value} else {};
    assert pair == {Bool(true), Number(1)} ==> Bool(true) in pair && Number(1) in pair;
    assert pair == {Bool(false), Number(0)} ==> Bool(false) in pair && Number(0) in pair;
  }

  function Max(x: int, y: int): int {
    if x >= y then x else y
  }

  function Check(c: Command, now: int): Option<ErrorCode>
    requires c.timestamp.Aware?
  {
    if c.expiresAt.Some? && (c.expiresAt.value.Naive? || !(0 < c.expiresAt.value.us - c.timestamp.us <= COMMAND_LIFETIME))
    then Some(ProtocolError)
    else if c.expiresAt.Some? && now >= c.expiresAt.value.us then Some(Timeout)
    else if !(now - COMMAND_WINDOW <= c.timestamp.us <= now + COMMAND_LIFETIME) then Some(Timeout)
    else if c.state.OtherKeys? then Some(UnsupportedCapability)
    else if !c.state.value.Bool? then Some(InvalidValue)
    else None
  }

  function Evict(seen: map<Id, Entry>, now: int): map<Id, Entry> {
    map k | k in seen && seen[k].until >= now :: seen[k]
  }

  /** `refused` stands for a raised ValueError. */
  datatype Handled = Handled(relay: RelayState, sent: seq<Message>, refused: bool)

  function HandleStep(r: RelayState, now: int, c: Command): Handled {
    if c.timestamp.Naive? then Handled(r, [], true)
    else
      var r1 := r.(seen := Evict(r.seen, now));
      if c.commandId in r1.seen then Repeat(r1, c)
      else if |r1.seen| >= CACHE_CAPACITY then Handled(r1, [], true)
      else Decide(r1, now, c)
  }

  /** A remembered command is answered as before; its identifier serves no other. */
  function Repeat(r: RelayState, c: Command): Handled
    requires c.commandId in r.seen
  {
    if !Same(c, r.seen[c.commandId].command) then Handled(r, [], true)
    else Handled(r, [AckMessage(r.seen[c.commandId].ack)], false)
  }

  function Decide(r: RelayState, now: int, c: Command): Handled
    requires c.timestamp.Aware?
  {
    var error := Check(c, now);
    var on := if error.None? then c.state.value.b else r.on;
    var ack := Ack(c.commandId, c.correlationId, now, error);
    var entry := Entry(Max(now, c.timestamp.us) + COMMAND_WINDOW, c, ack);
    Handled(RelayState(on, r.seen[c.commandId := entry]),
            [AckMessage(ack)] + (if error.None? then [StateMessage(c.correlationId, on)] else []), false)
  }

  /** The step decided this command afresh and set the output from it. */
  predicate Executes(r: RelayState, now: int, c: Command) {
    && c.timestamp.Aware? && c.commandId !in Evict(r.seen, now) && |Evict(r.seen, now)| < CACHE_CAPACITY
    && Check(c, now).None?
  }

  predicate Answers(h: Handled) {
    h.sent != [] && h.sent[0].AckMessage?
  }

  // ----- runs -----

  datatype Delivery = Delivery(now: int, command: Command)

  predicate ClockRuns(ds: seq<Delivery>) {
    forall i, j :: 0 <= i < j < |ds| ==> ds[i].now <= ds[j].now
  }

  function Run(ds: seq<Delivery>): RelayState {
    if ds == [] then POWERED_UP
    else HandleStep(Run(ds[..|ds| - 1]), ds[|ds| - 1].now, ds[|ds| - 1].command).relay
  }

  ghost predicate ExecutesAt(ds: seq<Delivery>, i: nat)
    requires i < |ds|
  {
    Executes(Run(ds[..i]), ds[i].now, ds[i].command)
  }

  ghost predicate AnswersAt(ds: seq<Delivery>, i: nat)
    requires i < |ds|
  {
    Answers(HandleStep(Run(ds[..i]), ds[i].now, ds[i].command))
  }

  /** Entries outlive the acceptance window of their command. */
  ghost predicate KeptLongEnough(r: RelayState) {
    forall k :: k in r.seen ==>
      && r.seen[k].command.commandId == k == r.seen[k].ack.commandId && r.seen[k].command.timestamp.Aware?
      && r.seen[k].until >= r.seen[k].command.timestamp.us + COMMAND_WINDOW
  }

  /** The command is remembered, or too old to be accepted again. */
  ghost predicate Settled(r: RelayState, now: int, c: Command)
    requires c.timestamp.Aware?
  {
    || (c.commandId in r.seen && Same(c, r.seen[c.commandId].command))
    || c.timestamp.us + COMMAND_WINDOW < now
  }

  lemma StepKeepsEntries(r: RelayState, now: int, c: Command)
    requires KeptLongEnough(r)
    ensures KeptLongEnough(HandleStep(r, now, c).relay)
  {
  }

  lemma SettledStays(r: RelayState, now: int, c: Command, d: Command, before: int)
    requires KeptLongEnough(r) && c.timestamp.Aware? && Settled(r, before, c) && before <= now
    ensures Settled(HandleStep(r, now, d).relay, now, c)
    ensures Same(c, d) ==> !Executes(r, now, d)
  {
    if c.commandId in r.seen && Same(c, r.seen[c.commandId].command) && r.seen[c.commandId].until < now {
      assert c.timestamp.us + COMMAND_WINDOW < now;
    }
  }

  lemma AnsweringSettles(r: RelayState, now: int, c: Command)
    requires KeptLongEnough(r) && Answers(HandleStep(r, now, c))
    ensures c.timestamp.Aware? && Settled(HandleStep(r, now, c).relay, now, c)
  {
  }

  lemma {:induction false} RunKeepsEntries(ds: seq<Delivery>)
    ensures KeptLongEnough(Run(ds))
  {
    if ds != [] {
      RunKeepsEntries(ds[..|ds| - 1]);
      StepKeepsEntries(Run(ds[..|ds| - 1]), ds[|ds| - 1].now, ds[|ds| - 1].command);
    }
  }

  lemma {:induction false} SettledAfterAnswer(ds: seq<Delivery>, i: nat, j: nat)
    requires ClockRuns(ds) && i < j <= |ds| && AnswersAt(ds, i)
    ensures ds[i].command.timestamp.Aware? && Settled(Run(ds[..j]), ds[j - 1].now, ds[i].command)
    decreases j
  {
    RunKeepsEntries(ds[..j - 1]);
    assert ds[..j][..j - 1] == ds[..j - 1];
    if j == i + 1 {
      AnsweringSettles(Run(ds[..i]), ds[i].now, ds[i].command);
    } else {
      SettledAfterAnswer(ds, i, j - 1);
      SettledStays(Run(ds[..j - 1]), ds[j - 1].now, ds[i].command, ds[j - 1].command, ds[j - 2].now);
    }
  }

  /** Once any copy of a command was answered, applied or rejected, no later copy
      changes the output, however often entries were evicted in between. */
  lemma AnsweredOnceNeverExecutedLater(ds: seq<Delivery>, i: nat, j: nat)
    requires ClockRuns(ds) && i < j < |ds| && AnswersAt(ds, i) && Same(ds[i].command, ds[j].command)
    ensures !ExecutesAt(ds, j)
  {
    SettledAfterAnswer(ds, i, j);
    RunKeepsEntries(ds[..j]);
    SettledStays(Run(ds[..j]), ds[j].now, ds[i].command, ds[j].command, ds[j - 1].now);
  }

  /** In particular every command is executed at most once in any run. */
  lemma ExecutedAtMostOnce(ds: seq<Delivery>, i: nat, j: nat)
    requires ClockRuns(ds) && i < |ds| && j < |ds| && Same(ds[i].command, ds[j].command)
    requires ExecutesAt(ds, i) && ExecutesAt(ds, j)
    ensures i == j
  {
    if i < j {
      AnsweredOnceNeverExecutedLater(ds, i, j);
    } else if j < i {
      AnsweredOnceNeverExecutedLater(ds, j, i);
    }
  }

  // ----- what the relay says -----

  /** Why a command is not executed, in the order the reasons are looked for. */
  lemma RejectedExactlyWhen(c: Command, now: int)
    requires c.timestamp.Aware?
    ensures var off := c.expiresAt.Some? && (c.expiresAt.value.Naive? || c.expiresAt.value.us <= c.timestamp.us
                                             || c.timestamp.us + 30_000_000 < c.expiresAt.value.us);
            var late := || (c.expiresAt.Some? && c.expiresAt.value.us <= now)
                        || c.timestamp.us + 300_000_000 < now || now + 30_000_000 < c.timestamp.us;
            && (Check(c, now) == Some(ProtocolError) <==> off)
            && (Check(c, now) == Some(Timeout) <==> !off && late)
            && (Check(c, now) == Some(UnsupportedCapability) <==> !off && !late && !c.state.OnlyOn?)
            && (Check(c, now) == Some(InvalidValue) <==> !off && !late && c.state.OnlyOn? && !c.state.value.Bool?)
            && (Check(c, now).None? <==> !off && !late && c.state.OnlyOn? && c.state.value.Bool?)
  {
  }

  function SentAt(ds: seq<Delivery>, i: nat): seq<Message>
    requires i < |ds|
  {
    HandleStep(Run(ds[..i]), ds[i].now, ds[i].command).sent
  }

  /** The entry was made by the h-th delivery: its answer, kept for 300 s after the
      later of its arrival and its timestamp. */
  ghost predicate MadeBy(ds: seq<Delivery>, h: nat, e: Entry) {
    && h < |ds| && ds[h].command == e.command && e.command.timestamp.Aware?
    && e.until == (if ds[h].now >= e.command.timestamp.us then ds[h].now else e.command.timestamp.us) + 300_000_000
    && e.ack == Ack(e.command.commandId, e.command.correlationId, ds[h].now, Check(e.command, ds[h].now))
  }

  lemma {:induction false} EntryIsMade(ds: seq<Delivery>, k: Id) returns (h: nat)
    requires k in Run(ds).seen
    ensures MadeBy(ds, h, Run(ds).seen[k]) && ds[h].command.commandId == k
  {
    hide Check;
    var pre, d := ds[..|ds| - 1], ds[|ds| - 1];
    if k in Run(pre).seen && Run(ds).seen[k] == Run(pre).seen[k] {
      h := EntryIsMade(pre, k);
    } else {
      h := |ds| - 1;
    }
  }

  /** A delivery is answered if and only if its time has a zone and its identifier is
      either remembered for the same command, or new while there is room. */
  lemma AnsweredExactlyWhen(ds: seq<Delivery>, i: nat)
    requires i < |ds|
    ensures var kept, c := Evict(Run(ds[..i]).seen, ds[i].now), ds[i].command;
            && (SentAt(ds, i) != [] <==>
                  c.timestamp.Aware? && if c.commandId in kept then Same(c, kept[c.commandId].command) else |kept| < 4096)
            && (SentAt(ds, i) == [] <==> HandleStep(Run(ds[..i]), ds[i].now, c).refused)
  {
    hide Run, Check;
  }

  /** Every acknowledgement is that of the first delivery of this very command. */
  lemma AckStemsFromFirst(ds: seq<Delivery>, i: nat, ack: Ack) returns (h: nat)
    requires i < |ds| && AckMessage(ack) in SentAt(ds, i)
    ensures h <= i && Same(ds[h].command, ds[i].command) && ds[h].command.timestamp.Aware?
    ensures ack == Ack(ds[h].command.commandId, ds[h].command.correlationId, ds[h].now, Check(ds[h].command, ds[h].now))
  {
    hide Run, Check;
    if ds[i].command.commandId in Evict(Run(ds[..i]).seen, ds[i].now) {
      h := EntryIsMade(ds[..i], ds[i].command.commandId);
    } else {
      h := i;
    }
  }

  /** A delivery that is executed sets the output to the requested value, acknowledges
      that and reports the new output; any other leaves the output alone and at most
      sends an acknowledgement. */
  lemma ExecutionIsReported(ds: seq<Delivery>, i: nat)
    requires i < |ds|
    ensures var c, before, after := ds[i].command, Run(ds[..i]).on, Run(ds[..i + 1]).on;
            && (ExecutesAt(ds, i) ==>
                  && c.state == OnlyOn(Bool(after))
                  && SentAt(ds, i) == [AckMessage(Ack(c.commandId, c.correlationId, ds[i].now, None)), StateMessage(c.correlationId, after)])
            && (!ExecutesAt(ds, i) ==>
                  after == before && |SentAt(ds, i)| <= 1 && forall m :: m in SentAt(ds, i) ==> m.AckMessage?)
  {
    assert ds[..i + 1][..i] == ds[..i];
    StepIsReported(Run(ds[..i]), ds[i].now, ds[i].command);
    hide HandleStep, Executes;
  }

  lemma StepIsReported(r: RelayState, now: int, c: Command)
    ensures var h := HandleStep(r, now, c);
            && (Executes(r, now, c) ==>
                  && c.state == OnlyOn(Bool(h.relay.on))
                  && h.sent == [AckMessage(Ack(c.commandId, c.correlationId, now, None)), StateMessage(c.correlationId, h.relay.on)])
            && (!Executes(r, now, c) ==>
                  h.relay.on == r.on && |h.sent| <= 1 && forall m :: m in h.sent ==> m.AckMessage?)
  {
  }

  /** Over every run: a state is reported by exactly the deliveries that are executed,
      under their correlation, and it is the requested one. */
  lemma ReportedExactlyWhen(ds: seq<Delivery>, i: nat, correlationId: Id, on: bool)
    requires i < |ds|
    ensures StateMessage(correlationId, on) in SentAt(ds, i)
       <==> ExecutesAt(ds, i) && ds[i].command.correlationId == correlationId && ds[i].command.state == OnlyOn(Bool(on))
    ensures StateMessage(correlationId, on) in SentAt(ds, i) ==> Run(ds[..i + 1]).on == on
  {
    hide SentAt, ExecutesAt, Run;
    ExecutionIsReported(ds, i);
  }

  // ----- the unbounded reference -----

  /** The same relay with a cache that forgets nothing and is never full. */
  function UnboundedStep(u: RelayState, now: int, c: Command): Handled {
    if c.timestamp.Naive? then Handled(u, [], true)
    else if c.commandId in u.seen then Repeat(u, c)
    else Decide(u, now, c)
  }

  function UnboundedRun(ds: seq<Delivery>): RelayState {
    if ds == [] then POWERED_UP
    else UnboundedStep(UnboundedRun(ds[..|ds| - 1]), ds[|ds| - 1].now, ds[|ds| - 1].command).relay
  }

  /** The identifier of the i-th delivery has not been used before. */
  ghost predicate FirstUse(ds: seq<Delivery>, i: nat)
    requires i < |ds|
  {
    forall h :: 0 <= h < i && ds[h].command.timestamp.Aware? ==> ds[h].command.commandId != ds[i].command.commandId
  }

  /** No new identifier meets a full cache. */
  ghost predicate RoomThroughout(ds: seq<Delivery>) {
    forall i :: 0 <= i < |ds| && ds[i].command.timestamp.Aware? && FirstUse(ds, i) ==>
      |Evict(Run(ds[..i]).seen, ds[i].now)| < CACHE_CAPACITY
  }

  /** There is some moment at which the relay would execute this command. */
  predicate Executable(c: Command) {
    && c.timestamp.Aware? && c.state.OnlyOn? && c.state.value.Bool?
    && (c.expiresAt.Some? ==> c.expiresAt.value.Aware? && 0 < c.expiresAt.value.us - c.timestamp.us <= COMMAND_LIFETIME)
  }

  function LastMoment(c: Command): int
    requires Executable(c)
  {
    if c.expiresAt.Some? then c.expiresAt.value.us - 1 else c.timestamp.us + COMMAND_WINDOW
  }

  /** `d` can still be executed when `c` may already be forgotten. */
  predicate Outlives(d: Command, c: Command) {
    Executable(d) && c.timestamp.Aware? && c.timestamp.us + COMMAND_WINDOW < LastMoment(d)
  }

  lemma ExecutableUntil(c: Command, now: int)
    requires c.timestamp.Aware?
    ensures Check(c, now).None? <==> Executable(c) && c.timestamp.us - COMMAND_LIFETIME <= now <= LastMoment(c)
  {
  }

  /** Two uses of one identifier are copies of one command, or the later one is over
      before the earlier one can be forgotten. */
  ghost predicate ReuseIsHarmless(ds: seq<Delivery>) {
    forall i, j :: 0 <= i < j < |ds| && ds[i].command.timestamp.Aware? && ds[j].command.timestamp.Aware?
                   && ds[i].command.commandId == ds[j].command.commandId
      ==> Same(ds[i].command, ds[j].command) || !Outlives(ds[j].command, ds[i].command)
  }

  /** What the unbounded cache holds, the bounded one still holds, or it is too old. */
  ghost predicate Covers(r: RelayState, u: RelayState, now: int) {
    && r.seen.Keys <= u.seen.Keys
    && forall k :: k in u.seen ==>
         && u.seen[k].command.timestamp.Aware?
         && ((k in r.seen && r.seen[k] == u.seen[k]) || u.seen[k].command.timestamp.us + COMMAND_WINDOW < now)
  }

  lemma {:induction false} SeenWasDelivered(ds: seq<Delivery>, k: Id) returns (i: nat)
    requires k in UnboundedRun(ds).seen
    ensures i < |ds| && ds[i].command == UnboundedRun(ds).seen[k].command && ds[i].command.commandId == k && ds[i].command.timestamp.Aware?
  {
    var pre, d := ds[..|ds| - 1], ds[|ds| - 1];
    if k in UnboundedRun(pre).seen {
      i := SeenWasDelivered(pre, k);
    } else {
      i := |ds| - 1;
    }
  }

  lemma {:induction false} DeliveredIsSeen(ds: seq<Delivery>, i: nat)
    requires i < |ds| && ds[i].command.timestamp.Aware?
    ensures ds[i].command.commandId in UnboundedRun(ds).seen
  {
    if i < |ds| - 1 {
      DeliveredIsSeen(ds[..|ds| - 1], i);
    }
  }

  /** A new command is decided by both, with the same outcome. */
  lemma BothDecide(r: RelayState, u: RelayState, before: int, now: int, c: Command)
    requires KeptLongEnough(r) && Covers(r, u, before) && before <= now && r.on == u.on
    requires c.timestamp.Aware? && c.commandId !in u.seen && |Evict(r.seen, now)| < CACHE_CAPACITY
    ensures var r', u' := HandleStep(r, now, c).relay, UnboundedStep(u, now, c).relay;
            Covers(r', u', now) && r'.on == u'.on
  {
  }

  /** A used identifier that may be forgotten is no longer executable. */
  lemma UsedIsOver(r: RelayState, u: RelayState, before: int, now: int, c: Command)
    requires KeptLongEnough(r) && Covers(r, u, before) && before <= now
    requires c.timestamp.Aware? && c.commandId in u.seen
    requires Same(u.seen[c.commandId].command, c) || !Outlives(c, u.seen[c.commandId].command)
    ensures !Executes(r, now, c)
  {
    ExecutableUntil(c, now);
  }

  lemma CoverStays(r: RelayState, u: RelayState, before: int, now: int, c: Command)
    requires KeptLongEnough(r) && Covers(r, u, before) && before <= now
    requires c.timestamp.Aware? && c.commandId in u.seen
    ensures Covers(HandleStep(r, now, c).relay, u, now)
  {
    hide Check, Same;
  }

  /** A used identifier changes neither output. */
  lemma NeitherExecutes(r: RelayState, u: RelayState, before: int, now: int, c: Command)
    requires KeptLongEnough(r) && Covers(r, u, before) && before <= now && r.on == u.on
    requires c.timestamp.Aware? && c.commandId in u.seen
    requires Same(u.seen[c.commandId].command, c) || !Outlives(c, u.seen[c.commandId].command)
    ensures var r', u' := HandleStep(r, now, c).relay, UnboundedStep(u, now, c).relay;
            Covers(r', u', now) && r'.on == u'.on
  {
    UsedIsOver(r, u, before, now, c);
    CoverStays(r, u, before, now, c);
    hide Covers, KeptLongEnough, Check, Outlives;
  }

  lemma Ignores(r: RelayState, u: RelayState, before: int, now: int, c: Command)
    requires Covers(r, u, before) && before <= now && r.on == u.on && c.timestamp.Naive?
    ensures var r', u' := HandleStep(r, now, c).relay, UnboundedStep(u, now, c).relay;
            Covers(r', u', now) && r'.on == u'.on
  {
  }

  lemma EmptyCovers(now: int)
    ensures Covers(POWERED_UP, POWERED_UP, now)
  {
  }

  lemma {:induction false} PrefixIsFair(ds: seq<Delivery>, n: nat)
    requires ClockRuns(ds) && RoomThroughout(ds) && ReuseIsHarmless(ds) && n <= |ds|
    ensures ClockRuns(ds[..n]) && RoomThroughout(ds[..n]) && ReuseIsHarmless(ds[..n])
  {
    hide Run, Outlives, Same;
    forall i | 0 <= i < n && ds[..n][i].command.timestamp.Aware? && FirstUse(ds[..n], i)
      ensures |Evict(Run(ds[..n][..i]).seen, ds[..n][i].now)| < CACHE_CAPACITY
    {
      assert ds[..n][..i] == ds[..i];
      assert forall h :: 0 <= h < i ==> ds[h] == ds[..n][h];
      assert FirstUse(ds, i);
    }
  }

  lemma {:induction false} CoversThroughout(ds: seq<Delivery>)
    requires ClockRuns(ds) && RoomThroughout(ds) && ReuseIsHarmless(ds)
    ensures Run(ds).on == UnboundedRun(ds).on
    ensures ds != [] ==> Covers(Run(ds), UnboundedRun(ds), ds[|ds| - 1].now)
  {
    if ds != [] {
      hide HandleStep, UnboundedStep, Covers, KeptLongEnough, Same, Outlives;
      var n := |ds| - 1;
      var pre, d := ds[..n], ds[n];
      PrefixIsFair(ds, n);
      CoversThroughout(pre);
      RunKeepsEntries(pre);
      var before := if pre == [] then d.now else pre[n - 1].now;
      EmptyCovers(d.now);
      if d.command.timestamp.Naive? {
        Ignores(Run(pre), UnboundedRun(pre), before, d.now, d.command);
      } else if d.command.commandId in UnboundedRun(pre).seen {
        var i := SeenWasDelivered(pre, d.command.commandId);
        NeitherExecutes(Run(pre), UnboundedRun(pre), before, d.now, d.command);
      } else {
        assert FirstUse(ds, n) by {
          forall h | 0 <= h < n && ds[h].command.timestamp.Aware?
            ensures ds[h].command.commandId != d.command.commandId
          {
            DeliveredIsSeen(pre, h);
          }
        }
        BothDecide(Run(pre), UnboundedRun(pre), before, d.now, d.command);
      }
    }
  }

  /** Eviction and capacity are invisible at the output as long as no new identifier
      meets a full cache and no identifier is used again by a command that outlives
      the memory of the first: the output is always that of the unbounded cache. */
  lemma EvictingCacheRefinesUnbounded(ds: seq<Delivery>, n: nat)
    requires ClockRuns(ds) && RoomThroughout(ds) && ReuseIsHarmless(ds) && n <= |ds|
    ensures Run(ds[..n]).on == UnboundedRun(ds[..n]).on
  {
    PrefixIsFair(ds, n);
    CoversThroughout(ds[..n]);
  }

  // ----- both conditions are needed -----

  /** The only identifier with different contents is that of `c` and `d`. */
  ghost predicate OnlyReuse(ds: seq<Delivery>, c: Command, d: Command) {
    forall i, j :: 0 <= i < j < |ds| && ds[i].command.timestamp.Aware? && ds[j].command.timestamp.Aware?
                   && ds[i].command.commandId == ds[j].command.commandId
      ==> Same(ds[i].command, ds[j].command) || (ds[i].command in {c, d} && ds[j].command in {c, d})
  }

  /** A run in which the output of the relay is not that of the unbounded cache. */
  ghost predicate Diverges(ds: seq<Delivery>) {
    ClockRuns(ds) && RoomThroughout(ds) && Run(ds).on != UnboundedRun(ds).on
  }

  /** A third command switches the output to the opposite in between. */
  function Opposite(c: Command, d: Command): Command
    requires Executable(d)
  {
    Command(c.commandId + 1, 0, Aware(LastMoment(d)), None, OnlyOn(Bool(!d.state.value.b)))
  }

  function ReuseRun(c: Command, d: Command): seq<Delivery>
    requires Outlives(d, c)
  {
    [Delivery(c.timestamp.us, c), Delivery(LastMoment(d), Opposite(c, d)), Delivery(LastMoment(d), d)]
  }

  lemma RunNext(ds: seq<Delivery>, d: Delivery)
    ensures Run(ds + [d]) == HandleStep(Run(ds), d.now, d.command).relay
    ensures UnboundedRun(ds + [d]) == UnboundedStep(UnboundedRun(ds), d.now, d.command).relay
  {
    assert (ds + [d])[..|ds|] == ds;
  }

  /** Nothing is remembered any more: the command is decided afresh. */
  lemma Afresh(r: RelayState, now: int, c: Command)
    requires c.timestamp.Aware? && (forall k :: k in r.seen ==> r.seen[k].until < now)
    ensures HandleStep(r, now, c).relay == Decide(RelayState(r.on, map[]), now, c).relay
  {
    assert Evict(r.seen, now) == map[];
  }

  lemma OneRemembered(r: RelayState, now: int, c: Command, k: Id)
    requires c.timestamp.Aware? && c.commandId != k && r.seen.Keys == {k} && r.seen[k].until >= now
    ensures |Evict(r.seen, now)| < CACHE_CAPACITY && HandleStep(r, now, c).relay == Decide(r, now, c).relay
  {
    assert Evict(r.seen, now) == r.seen && |r.seen| == |r.seen.Keys|;
  }

  lemma ReuseOutputs(c: Command, d: Command)
    requires c.commandId == d.commandId && Outlives(d, c)
    ensures var ds := ReuseRun(c, d);
            && RoomThroughout(ds) && Run(ds).on == d.state.value.b && UnboundedRun(ds).on != d.state.value.b
  {
    hide HandleStep, Run, UnboundedRun, FirstUse;
    var ds, x, last := ReuseRun(c, d), Opposite(c, d), LastMoment(d);
    var d0, d1, d2 := ds[0], ds[1], ds[2];
    assert d.timestamp.Aware? && d.timestamp.us - COMMAND_LIFETIME <= last && Executable(d) && Executable(x) && LastMoment(x) >= last;
    RunNext([], d0);
    RunNext([d0], d1);
    RunNext([d0, d1], d2);
    assert [] + [d0] == [d0] == ds[..1] && [d0] + [d1] == [d0, d1] == ds[..2] && [d0, d1] + [d2] == ds && ds[..0] == [];
    ExecutableUntil(x, last);
    ExecutableUntil(d, last);
    EmptyRuns();
    Afresh(Run([]), d0.now, c);
    Afresh(Run([d0]), d1.now, x);
    OneRemembered(Run([d0, d1]), d2.now, d, x.commandId);
  }

  lemma EmptyRuns()
    ensures Run([]) == UnboundedRun([]) == POWERED_UP
  {
  }

  lemma ReuseDiverges(c: Command, d: Command)
    requires c.commandId == d.commandId && Outlives(d, c)
    ensures Diverges(ReuseRun(c, d)) && OnlyReuse(ReuseRun(c, d), c, d)
  {
    ReuseOutputs(c, d);
    hide Run, UnboundedRun;
  }

  /** An identifier used for two commands makes the output of some run differ from that
      of the unbounded cache, if and only if one of the two outlives the other. */
  lemma ReuseDivergesExactlyWhen(c: Command, d: Command)
    requires c.commandId == d.commandId
    ensures (exists ds :: OnlyReuse(ds, c, d) && Diverges(ds)) <==> Outlives(d, c) || Outlives(c, d)
  {
    hide Diverges, Outlives;
    if Outlives(d, c) {
      ReuseDiverges(c, d);
    }
    if Outlives(c, d) {
      ReuseDiverges(d, c);
      assert OnlyReuse(ReuseRun(d, c), c, d);
    }
    if ds :| OnlyReuse(ds, c, d) && Diverges(ds) {
      if !Outlives(d, c) && !Outlives(c, d) {
        HarmlessOtherwise(ds, c, d);
        assert false;
      }
    }
  }

  lemma HarmlessOtherwise(ds: seq<Delivery>, c: Command, d: Command)
    requires OnlyReuse(ds, c, d) && !Outlives(d, c) && !Outlives(c, d)
    ensures !Diverges(ds)
  {
    hide Outlives, Run, UnboundedRun;
    if ClockRuns(ds) && RoomThroughout(ds) {
      assert ReuseIsHarmless(ds);
      CoversThroughout(ds);
    }
  }

  lemma {:induction false} SeenWasUsed(ds: seq<Delivery>, k: Id) returns (h: nat)
    requires k in Run(ds).seen
    ensures h < |ds| && ds[h].command.timestamp.Aware? && ds[h].command.commandId == k
  {
    var pre, d := ds[..|ds| - 1], ds[|ds| - 1];
    if k in Run(pre).seen {
      h := SeenWasUsed(pre, k);
    } else {
      h := |ds| - 1;
    }
  }

  lemma {:induction false} NewIsUnseen(ds: seq<Delivery>, d: Delivery)
    requires FirstUse(ds + [d], |ds|)
    ensures d.command.commandId !in Run(ds).seen && d.command.commandId !in UnboundedRun(ds).seen
  {
    assert forall h :: 0 <= h < |ds| ==> (ds + [d])[h] == ds[h];
    if d.command.commandId in Run(ds).seen {
      var h := SeenWasUsed(ds, d.command.commandId);
    }
    if d.command.commandId in UnboundedRun(ds).seen {
      var h := SeenWasDelivered(ds, d.command.commandId);
    }
  }

  lemma FullCacheOutputs(ds: seq<Delivery>, d: Delivery)
    requires d.command.timestamp.Aware? && d.command.commandId !in Run(ds).seen && d.command.commandId !in UnboundedRun(ds).seen
    requires |Evict(Run(ds).seen, d.now)| >= CACHE_CAPACITY
    ensures Run(ds + [d]).on == Run(ds).on
    ensures UnboundedRun(ds + [d]).on == if Check(d.command, d.now).None? then d.command.state.value.b else UnboundedRun(ds).on
  {
    RunNext(ds, d);
  }

  /** A new identifier that meets a full cache makes the outputs differ if and only if
      its command could be executed and asks for the other output. */
  lemma {:induction false} FullCacheDivergesExactlyWhen(ds: seq<Delivery>, d: Delivery)
    requires Run(ds).on == UnboundedRun(ds).on && d.command.timestamp.Aware? && FirstUse(ds + [d], |ds|)
    requires |Evict(Run(ds).seen, d.now)| >= CACHE_CAPACITY
    ensures Run(ds + [d]).on != UnboundedRun(ds + [d]).on
       <==> (Check(d.command, d.now).None? && d.command.state.value.b != Run(ds).on)
  {
    hide Run, UnboundedRun, Evict, Check;
    NewIsUnseen(ds, d);
    FullCacheOutputs(ds, d);
  }

  // ----- inputs -----

  function Switch(commandId: Id, timestamp: int, on: bool): Delivery {
    Delivery(timestamp, Command(commandId, commandId, Aware(timestamp), None, OnlyOn(Bool(on))))
  }

  const REUSE := [Switch(1, 0, false), Switch(1, 300_000_001, true)]

  /** The relay refuses neither command and ends on; the unbounded cache ends off. */
  lemma {:induction false} ReusedIdentifierIsExecuted()
    ensures ClockRuns(REUSE) && RoomThroughout(REUSE) && OnlyReuse(REUSE, REUSE[0].command, REUSE[1].command)
    ensures forall i :: 0 <= i < 2 ==> !HandleStep(Run(REUSE[..i]), REUSE[i].now, REUSE[i].command).refused
    ensures Run(REUSE).on && !UnboundedRun(REUSE).on
  {
    RunNext([], REUSE[0]);
    RunNext([REUSE[0]], REUSE[1]);
    assert REUSE[..0] == [] && [] + [REUSE[0]] == [REUSE[0]] == REUSE[..1] && [REUSE[0]] + [REUSE[1]] == REUSE;
    assert Run([]).seen == map[] && Evict(Run([]).seen, 0) == map[];
    assert Run([REUSE[0]]).seen.Keys == {1};
    assert Evict(Run([REUSE[0]]).seen, 300_000_001) == map[];
  }

  function Filling(n: nat): seq<Delivery> {
    if n == 0 then [] else Filling(n - 1) + [Switch(n - 1, 0, false)]
  }

  function Below(n: nat): (ids: set<Id>)
    ensures forall k :: k in ids ==> k < n
  {
    if n == 0 then {} else Below(n - 1) + {n - 1}
  }

  predicate Filled(r: RelayState, n: nat) {
    && !r.on && r.seen.Keys == Below(n) && |r.seen| == n
    && forall k :: k in r.seen ==> r.seen[k].until == COMMAND_WINDOW
  }

  lemma FillOne(r: RelayState, n: nat)
    requires Filled(r, n) && n < CACHE_CAPACITY
    ensures Filled(HandleStep(r, 0, Switch(n, 0, false).command).relay, n + 1)
  {
    var c := Switch(n, 0, false).command;
    NothingEvicted(r);
    var r' := Decide(r, 0, c).relay;
    assert HandleStep(r, 0, c).relay == r' && n !in r.seen;
    hide Evict, HandleStep;
    assert r'.seen.Keys == r.seen.Keys + {n} && |r'.seen| == |r'.seen.Keys|;
  }

  lemma NothingEvicted(r: RelayState)
    requires forall k :: k in r.seen ==> r.seen[k].until == COMMAND_WINDOW
    ensures Evict(r.seen, 0) == r.seen
  {
  }

  lemma EmptyFilled()
    ensures Filled(Run([]), 0) && !UnboundedRun([]).on
  {
  }

  lemma {:induction false} FillingIs(n: nat)
    ensures |Filling(n)| == n && forall i :: 0 <= i < n ==> Filling(n)[i] == Switch(i, 0, false)
  {
    if n > 0 {
      FillingIs(n - 1);
    }
  }

  lemma StaysOff(u: RelayState, k: Id)
    requires !u.on
    ensures !UnboundedStep(u, 0, Switch(k, 0, false).command).relay.on
  {
  }

  lemma {:induction false} FillingFills(n: nat)
    requires n <= CACHE_CAPACITY
    ensures Filled(Run(Filling(n)), n) && !UnboundedRun(Filling(n)).on
  {
    hide HandleStep, UnboundedStep, Filled, Run, UnboundedRun;
    if n == 0 {
      EmptyFilled();
    } else {
      FillingFills(n - 1);
      RunNext(Filling(n - 1), Switch(n - 1, 0, false));
      FillOne(Run(Filling(n - 1)), n - 1);
      StaysOff(UnboundedRun(Filling(n - 1)), n - 1);
    }
  }

  lemma DistinctIsFair(full: seq<Delivery>, d: Delivery)
    requires forall i :: 0 <= i < |full| ==> full[i] == Switch(i, 0, false)
    requires d == Switch(|full|, 0, true)
    ensures ClockRuns(full + [d]) && ReuseIsHarmless(full + [d]) && FirstUse(full + [d], |full|)
  {
    hide Same, Outlives;
    assert forall i :: 0 <= i <= |full| ==> (full + [d])[i].command.commandId == i && (full + [d])[i].now == 0;
  }

  /** A full cache refuses the next command, which the unbounded one executes. */
  lemma FullCacheRefuses(n: nat)
    requires n == CACHE_CAPACITY
    ensures var ds := Filling(n) + [Switch(n, 0, true)];
            ClockRuns(ds) && ReuseIsHarmless(ds) && !Run(ds).on && UnboundedRun(ds).on
  {
    hide Run, UnboundedRun, Filling, Filled, Evict, ClockRuns, ReuseIsHarmless, FirstUse;
    FillingIs(n);
    FillingFills(n);
    FilledIsFull(Run(Filling(n)));
    DistinctIsFair(Filling(n), Switch(n, 0, true));
    NewIsUnseen(Filling(n), Switch(n, 0, true));
    FullCacheOutputs(Filling(n), Switch(n, 0, true));
  }

  lemma FilledIsFull(r: RelayState)
    requires Filled(r, CACHE_CAPACITY)
    ensures !r.on && |Evict(r.seen, 0)| >= CACHE_CAPACITY
  {
    assert Evict(r.seen, 0) == r.seen;
  }

  // ----- the class -----

  /** What arrives on the broker, after decoding: unusable, or a command envelope. */
  datatype Inbound = Unusable | Envelope(command: Command)

  class Relay {
    var on: bool
    var seen: map<Id, Entry>

    function Model(): RelayState
      reads this
    {
      RelayState(on, seen)
    }

    constructor ()
      ensures Model() == POWERED_UP
    {
      on, seen := false, map[];
    }

    /** `expected` tells that the topic is this relay's own set topic. */
    method Handle(expected: bool, retained: bool, payload: Inbound, now: int) returns (sent: seq<Message>, refused: bool)
      modifies this
      ensures !expected || retained || payload.Unusable? ==> Handled(Model(), sent, refused) == Handled(old(Model()), [], true)
      ensures expected && !retained && payload.Envelope? ==>
                Handled(Model(), sent, refused) == HandleStep(old(Model()), now, payload.command)
    {
      sent := [];
      if !expected || retained || payload.Unusable? {
        return sent, true;
      }
      var command := payload.command;
      if command.timestamp.Naive? {
        return sent, true;
      }
      seen := map k | k in seen && seen[k].until >= now :: seen[k];
      if command.commandId in seen {
        var previous := seen[command.commandId];
        if !Same(command, previous.command) {
          return sent, true;
        }
        sent := sent + [AckMessage(previous.ack)];
        return sent, false;
      }
      var error := Check(command, now);
      if |seen| >= CACHE_CAPACITY {
        return sent, true;
      }
      if error.None? {
        on := command.state.value.b;
      }
      var ack := Ack(command.commandId, command.correlationId, now, error);
      seen := seen[command.commandId := Entry(Max(now, command.timestamp.us) + COMMAND_WINDOW, command, ack)];
      sent := sent + [AckMessage(ack)];
      if error.None? {
        sent := sent + [StateMessage(command.correlationId, on)];
      }
      return sent, false;
    }
  }
}
