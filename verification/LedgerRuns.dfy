/** Acknowledgements, state reports and look-ups as runs of the permit authority:
    what the ledger does to a row is a step that every run theorem covers. */
module LedgerRuns {
  import opened Common
  import opened CommandRecords
  import opened ControlClock
  import opened ControlAuthority
  import opened CommandLedger
  import opened AuthorityRuns
  import opened AuthorityTheorems

  /** The expiry test of a pending control command; other rows need no tick. */
  function Judging(db: Database, e: Id, c: Id, at: real, p: Probe, readAt: real): seq<Action>
    requires c in db.commands
  {
    if Pending(db.commands[c].status) && c in db.controls then [Call(e, at, Expired(c, p.tick, readAt))] else []
  }

  /** Readings of the shared clock for the stamps of one operation. */
  ghost predicate Stamping(e: Id, acts: seq<Action>) {
    forall i :: 0 <= i < |acts| ==> acts[i].Call? && acts[i].epoch == e && acts[i].op.LogicalNow?
  }

  predicate SameButClock(a: Authority, b: Authority) {
    b.(clock := a.clock) == a
  }

  lemma {:induction false} StampsMoveClockOnly(w: World, e: Id, stamps: seq<Action>)
    requires e in w.nodes && Stamping(e, stamps)
    ensures var w' := Exec(w, stamps);
            && e in w'.nodes && SameButClock(w.nodes[e].auth, w'.nodes[e].auth)
            && w'.db == w.db && w'.origins == w.origins && w'.log == w.log
  {
    if stamps != [] {
      StampsMoveClockOnly(w, e, stamps[..|stamps| - 1]);
    }
  }

  /** The whole operation with result `r`: the expiry test, readings for its stamps
      and, unless the clock refused, one update of the row. */
  function Operation(db: Database, e: Id, c: Id, at: real, p: Probe, readAt: real, stamps: seq<Action>, r: Result<()>): seq<Action>
    requires c in db.commands && c in r.db.commands
  {
    Judging(db, e, c, at, p, readAt) + stamps + if r.answer.Done? then [UpdateRow(c, r.db.commands[c])] else []
  }

  /** A possible run that ends in the store of `r`, with its authority up to the
      position of the clock, and logs nothing. */
  ghost predicate EndsIn(env: Env, w: World, e: Id, acts: seq<Action>, r: Result<()>) {
    && PossibleRun(env, w, acts) && Exec(w, acts).db == r.db && Exec(w, acts).log == w.log
    && e in Exec(w, acts).nodes && SameButClock(r.auth, Exec(w, acts).nodes[e].auth)
  }

  lemma TouchIsRun(env: Env, w: World, e: Id, c: Id, at: real, p: Probe, readAt: real, change: (CommandRow, bool) -> CommandRow, stamps: seq<Action>)
    requires e in w.nodes && c in w.db.commands && Stamping(e, stamps)
    requires forall expired :: Preserves(w.db.commands[c], change(w.db.commands[c], expired))
    requires PossibleRun(env, w, Judging(w.db, e, c, at, p, readAt) + stamps)
    ensures var r := Touch(w.nodes[e].auth, w.db, c, p, change);
            && c in r.db.commands && EndsIn(env, w, e, Operation(w.db, e, c, at, p, readAt, stamps, r), r)
            && SameButClock(w.nodes[e].auth, r.auth)
  {
    hide Verdict, Preserves, PossibleRun, Exec;
    var judging, r := Judging(w.db, e, c, at, p, readAt), Touch(w.nodes[e].auth, w.db, c, p, change);
    JudgingIsVerdict(w, e, c, at, p, readAt);
    StampsMoveClockOnly(Exec(w, judging), e, stamps);
    RunsConcatenate(env, w, judging, stamps);
    if r.answer.Done? {
      var update := UpdateRow(c, r.db.commands[c]);
      var v := Verdict(w.nodes[e].auth, w.db, c, p).1.value;
      assert Preserves(w.db.commands[c], change(w.db.commands[c], v));
      LastStep(env, w, judging + stamps, update);
    } else {
      assert judging + stamps + [] == judging + stamps;
    }
  }

  lemma LastStep(env: Env, w: World, acts: seq<Action>, act: Action)
    ensures Exec(w, acts + [act]) == Apply(Exec(w, acts), act)
    ensures PossibleRun(env, w, acts) && Possible(env, Exec(w, acts), act) ==> PossibleRun(env, w, acts + [act])
  {
    hide Apply, Possible;
    assert (acts + [act])[..|acts|] == acts;
  }

  lemma JudgingIsVerdict(w: World, e: Id, c: Id, at: real, p: Probe, readAt: real)
    requires e in w.nodes && c in w.db.commands
    ensures var w' := Exec(w, Judging(w.db, e, c, at, p, readAt));
            && e in w'.nodes && w'.nodes[e].auth == Verdict(w.nodes[e].auth, w.db, c, p).0
            && w'.db == w.db && w'.origins == w.origins && w'.log == w.log
            && SameButClock(w.nodes[e].auth, w'.nodes[e].auth)
  {
    var call := Call(e, at, Expired(c, p.tick, readAt));
    assert [call][..0] == [];
  }

  /** An acknowledgement of a known command is such a run; its clock readings are
      those of the process `e` that handles it. */
  lemma AckIsRun(env: Env, w: World, e: Id, from: Device, envelope: AckEnvelope, retained: bool, at: real, p: Probe, readAt: real, stamps: seq<Action>)
    requires e in w.nodes && FoundExactly(w.db, from, envelope) && Stamping(e, stamps)
    requires PossibleRun(env, w, Judging(w.db, e, envelope.commandId, at, p, readAt) + stamps)
    ensures var r := AckStep(w.nodes[e].auth, w.db, from, envelope, retained, p);
            && envelope.commandId in r.db.commands
            && EndsIn(env, w, e, Operation(w.db, e, envelope.commandId, at, p, readAt, stamps, r), r)
  {
    hide EndsIn, Operation, Judging, Preserves, AckRow, Touch;
    var c, bound := envelope.commandId, Bound(w.db, envelope.commandId);
    var change := (row: CommandRow, expired: bool) => AckRow(row, envelope.status, retained, expired, bound, p.stamps);
    forall expired
      ensures Preserves(w.db.commands[c], change(w.db.commands[c], expired))
    {
      RowOperationsPreserve(w.db.commands[c], envelope.status, None, retained, expired, bound, p.stamps);
    }
    TouchIsRun(env, w, e, c, at, p, readAt, change, stamps);
    assert Touch(w.nodes[e].auth, w.db, c, p, change) == AckStep(w.nodes[e].auth, w.db, from, envelope, retained, p);
  }

  lemma StateIsRun(env: Env, w: World, e: Id, c: Id, envelope: StateEnvelope, retained: bool, at: real, p: Probe, readAt: real, stamps: seq<Action>)
    requires e in w.nodes && c in w.db.commands && Stamping(e, stamps)
    requires PossibleRun(env, w, Judging(w.db, e, c, at, p, readAt) + stamps)
    ensures var r := StateStep(w.nodes[e].auth, w.db, c, envelope, retained, p);
            c in r.db.commands && EndsIn(env, w, e, Operation(w.db, e, c, at, p, readAt, stamps, r), r)
  {
    hide EndsIn, Operation, Judging, Preserves, ReportRow, Touch;
    var bound := Bound(w.db, c);
    var change := (row: CommandRow, expired: bool) => ReportRow(row, envelope.on, retained, expired, bound, p.stamps);
    forall expired
      ensures Preserves(w.db.commands[c], change(w.db.commands[c], expired))
    {
      RowOperationsPreserve(w.db.commands[c], Accepted, envelope.on, retained, expired, bound, p.stamps);
    }
    TouchIsRun(env, w, e, c, at, p, readAt, change, stamps);
    assert Touch(w.nodes[e].auth, w.db, c, p, change) == StateStep(w.nodes[e].auth, w.db, c, envelope, retained, p);
  }

  lemma GetIsRun(env: Env, w: World, e: Id, c: Id, at: real, p: Probe, readAt: real, stamps: seq<Action>)
    requires e in w.nodes && c in w.db.commands && Stamping(e, stamps)
    requires PossibleRun(env, w, Judging(w.db, e, c, at, p, readAt) + stamps)
    ensures var r := GetStep(w.nodes[e].auth, w.db, c, p);
            c in r.db.commands && EndsIn(env, w, e, Operation(w.db, e, c, at, p, readAt, stamps, r), r)
  {
    hide EndsIn, Operation, Judging, Preserves, ExpireRow, Touch;
    var change := (row: CommandRow, expired: bool) => ExpireRow(row, expired, p.stamps.expire);
    forall expired
      ensures Preserves(w.db.commands[c], change(w.db.commands[c], expired))
    {
      RowOperationsPreserve(w.db.commands[c], Accepted, None, false, expired, false, p.stamps);
    }
    TouchIsRun(env, w, e, c, at, p, readAt, change, stamps);
    assert Touch(w.nodes[e].auth, w.db, c, p, change) == GetStep(w.nodes[e].auth, w.db, c, p);
  }
}
