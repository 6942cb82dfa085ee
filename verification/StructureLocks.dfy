/** Exactly which transactions need the lock of their house: for every kind of change
    that StructureRuns asks to be guarded, a continuation in which every other
    transaction is, and which ends with a device in a house it is not bound to. */
module StructureLocks {
  import opened Common
  import opened Structure
  import opened StructureRuns

  // ----- continuations -----

  /** A step of a continuation in which only the transactions in `exempt`, and no later
      ones under their identifiers, may commit unguarded. */
  ghost predicate Proper(w: World, act: Action, exempt: set<Id>) {
    && Possible(w, act)
    && (act.Open? ==> act.tx !in exempt)
    && (act.Commit? && act.tx !in exempt ==> Careful(w, act))
  }

  ghost predicate Leads(w: World, acts: seq<Action>, exempt: set<Id>, w': World)
    decreases |acts|
  {
    if acts == [] then w == w' else Proper(w, acts[0], exempt) && Leads(Apply(w, acts[0]), acts[1..], exempt, w')
  }

  ghost predicate Can(w: World, exempt: set<Id>, w': World) {
    exists acts :: Leads(w, acts, exempt, w')
  }

  lemma {:induction false} LeadsOn(w: World, acts: seq<Action>, w1: World, more: seq<Action>, w2: World, exempt: set<Id>)
    requires Leads(w, acts, exempt, w1) && Leads(w1, more, exempt, w2)
    ensures Leads(w, acts + more, exempt, w2)
    decreases |acts|
  {
    hide Apply, Possible, Careful;
    if acts == [] {
      assert acts + more == more;
    } else {
      LeadsOn(Apply(w, acts[0]), acts[1..], w1, more, w2, exempt);
      assert (acts + more)[1..] == acts[1..] + more;
    }
  }

  lemma CanThen(w: World, w1: World, w2: World, exempt: set<Id>)
    requires Can(w, exempt, w1) && Can(w1, exempt, w2)
    ensures Can(w, exempt, w2)
  {
    hide Leads;
    var acts :| Leads(w, acts, exempt, w1);
    var more :| Leads(w1, more, exempt, w2);
    LeadsOn(w, acts, w1, more, w2, exempt);
  }

  lemma CanStay(w: World, exempt: set<Id>)
    ensures Can(w, exempt, w)
  {
    assert Leads(w, [], exempt, w);
  }

  lemma CanStep(w: World, act: Action, w': World, exempt: set<Id>)
    requires Proper(w, act, exempt) && Apply(w, act) == w'
    ensures Can(w, exempt, w')
  {
    hide Apply, Proper;
    assert [act][1..] == [] && Leads(w', [], exempt, w');
    assert Leads(w, [act], exempt, w');
  }

  // ----- a guarded transaction does no harm -----

  /** The transaction is as it was, finished and guarded, or has ended. */
  ghost predicate StillGuarded(w: World, k: Id, tx: Tx) {
    k in w.txs ==> w.txs[k] == tx && Finished(tx.stage) && Guarded(w.store, tx)
  }

  lemma GuardStays(s: Store, s': Store, tx: Tx)
    requires forall house :: house in Held(tx.stage) ==> HouseUntouched(s, s', house)
    requires Guarded(s, tx) && Finished(tx.stage)
    ensures Guarded(s', tx)
  {
    if tx.job.Modify? && HouseOf(s, tx.job.kind, tx.job.id).Some? && HouseOf(s, tx.job.kind, tx.job.id).value in Held(tx.stage) {
      var house := HouseOf(s, tx.job.kind, tx.job.id).value;
      assert HouseUntouched(s, s', house);
      assert HouseOf(s', tx.job.kind, tx.job.id) == Some(house);
    }
  }

  lemma StatusSparesHeld(s: Store, house: Id, d: Id, target: Lifecycle, tx: Tx)
    requires Constraints(s) && TransitionOutcome(s, house, d, target).Done? && d in s.physical
    ensures var s' := s.(physical := s.physical[d := s.physical[d].(status := target)]);
            forall h :: h in Held(tx.stage) ==> HouseUntouched(s, s', h)
  {
    hide HouseUntouched;
    forall h | h in Held(tx.stage)
      ensures HouseUntouched(s, s.(physical := s.physical[d := s.physical[d].(status := target)]), h)
    {
      StatusSparesAll(s, house, d, target, h);
    }
  }

  lemma StepKeepsGuard(w: World, act: Action, k: Id, tx: Tx)
    requires Sound(w) && StillGuarded(w, k, tx) && Proper(w, act, {k})
    ensures Sound(Apply(w, act)) && StillGuarded(Apply(w, act), k, tx)
  {
    hide Constraints, Agree, TxOk, Guarded, Accepted, Written, HouseUntouched, TransitionOutcome;
    StepKeepsSound(w, act);
    if k in w.txs {
      match act {
        case Commit(l) =>
          if l != k && Accepted(w.store, w.txs[l]) {
            OthersKnow(w, l, k);
            GuardStays(w.store, Apply(w, act).store, tx);
          } else if l != k {
            assert Apply(w, act).store == w.store by { RefusedCommit(w.store, w.txs[l]); }
          }
        case SetStatus(house, d, target) =>
          if TransitionOutcome(w.store, house, d, target).Done? {
            TransitionKnown(w.store, house, d, target);
            StatusSparesHeld(w.store, house, d, target, tx);
            GuardStays(w.store, Apply(w, act).store, tx);
          }
        case _ =>
      }
    }
  }

  lemma RefusedCommit(s: Store, tx: Tx)
    requires !Accepted(s, tx)
    ensures Committed(s, tx) == s
  {
  }

  lemma {:induction false} ContinuationStaysSound(w: World, acts: seq<Action>, w': World, k: Id, tx: Tx)
    requires Sound(w) && StillGuarded(w, k, tx) && Leads(w, acts, {k}, w')
    ensures Sound(w')
    decreases |acts|
  {
    if acts != [] {
      hide Sound, Apply, Possible, Careful, StillGuarded;
      StepKeepsGuard(w, acts[0], k, tx);
      ContinuationStaysSound(Apply(w, acts[0]), acts[1..], w', k, tx);
    }
  }

  // ----- fresh identifiers and free houses -----

  lemma {:induction false} Above(taken: set<Id>) returns (n: Id)
    requires taken != {}
    ensures forall x :: x in taken ==> x <= n
  {
    var x :| x in taken;
    if taken == {x} {
      n := x;
    } else {
      n := Above(taken - {x});
      n := if n >= x then n else x;
      assert forall y :: y in taken ==> y == x || y in taken - {x};
    }
  }

  lemma FreshId(taken: set<Id>) returns (n: Id)
    ensures n !in taken
  {
    n := 0;
    if taken != {} {
      n := Above(taken);
      n := n + 1;
    }
  }

  ghost predicate Unheld(w: World, house: Id) {
    forall l :: l in w.txs ==> house !in Held(w.txs[l].stage)
  }

  lemma FreshHouse(w: World) returns (house: Id)
    ensures house !in w.store.houses && Unheld(w, house)
  {
    var held := set l, h | l in w.txs && h in Held(w.txs[l].stage) :: h;
    house := FreshId(w.store.houses + held);
    assert forall l, h :: l in w.txs && h in Held(w.txs[l].stage) ==> h in held;
  }

  lemma {:induction false} AbortOthers(w: World, k: Id)
    requires k in w.txs
    ensures Can(w, {k}, World(w.store, map[k := w.txs[k]]))
    decreases |w.txs|
  {
    if l :| l in w.txs && l != k {
      var w1 := w.(txs := w.txs - {l});
      CanStep(w, Abort(l), w1, {k});
      assert |w1.txs| < |w.txs| by { Smaller(w.txs, l); }
      AbortOthers(w1, k);
      CanThen(w, w1, World(w.store, map[k := w.txs[k]]), {k});
    } else {
      assert w.txs == map[k := w.txs[k]];
      CanStay(w, {k});
    }
  }

  lemma Smaller<V>(m: map<Id, V>, k: Id)
    requires k in m
    ensures |m - {k}| < |m|
  {
    assert m == (m - {k})[k := m[k]];
  }

  // ----- whole transactions that meet nobody -----

  function WithTx(w: World, m: Id, tx: Tx): World {
    w.(txs := w.txs[m := tx])
  }

  ghost predicate Newcomer(w: World, m: Id, exempt: set<Id>) {
    m !in w.txs && m !in exempt
  }

  lemma FreshTx(w: World, exempt: set<Id>) returns (m: Id)
    ensures Newcomer(w, m, exempt)
  {
    m := FreshId(w.txs.Keys + exempt);
  }

  lemma Advances(w: World, m: Id, job: Job, stage: Stage, stage': Stage, item: Option<Id>, exempt: set<Id>)
    requires Newcomer(w, m, exempt) && !Finished(stage) && (item.Some? ==> item.value in w.store.physical)
    requires job.Claim? ==> FindsHardware(w.store, job.hardware, item)
    requires Next(w.store, Tx(job, stage), item) == Some(stage')
    requires forall house :: house in Wanted(Tx(job, stage)) ==> Unheld(w, house)
    ensures Can(WithTx(w, m, Tx(job, stage)), exempt, WithTx(w, m, Tx(job, stage')))
  {
    hide Next, Wanted, FindsHardware;
    var w1, w2 := WithTx(w, m, Tx(job, stage)), WithTx(w, m, Tx(job, stage'));
    assert w1.txs[m := Tx(job, stage')] == w2.txs;
    CanStep(w1, Advance(m, item), w2, exempt);
  }

  lemma Commits(w: World, m: Id, tx: Tx, s': Store, exempt: set<Id>)
    requires Newcomer(w, m, exempt) && Finished(tx.stage) && Guarded(w.store, tx)
    requires Written(w.store, tx) == Some(s') && Constraints(s')
    requires forall house :: house in Rows(tx) ==> Unheld(w, house)
    ensures Can(WithTx(w, m, tx), exempt, World(s', w.txs))
  {
    hide Written, Constraints, Guarded, Rows;
    var w1 := WithTx(w, m, tx);
    assert w1.txs - {m} == w.txs;
    CanStep(w1, Commit(m), World(s', w.txs), exempt);
  }

  /** The database accepts what an unguarded transaction writes, if nothing changed
      since its look-ups. */
  lemma CreationAccepted(s: Store, job: Job)
    requires Constraints(s) && !job.Modify? && !job.Claim? && Next(s, Tx(job, Opened), None) == Some(Checked)
    requires Written(s, Tx(job, Checked)).Some? && (job.Register? ==> FindsHardware(s, job.hardware, None))
    ensures Constraints(Written(s, Tx(job, Checked)).value)
  {
    match job {
      case Register(_, _, _) =>
      case CreateHouse(_) =>
      case CreateFloor(_, _) =>
      case CreateRoom(_, _) =>
      case CreateDevice(_, _) =>
    }
  }

  lemma CreateAlone(w: World, job: Job, s': Store, exempt: set<Id>)
    requires Constraints(w.store) && !job.Modify? && !job.Claim? && Admitted(w.store, job)
    requires Next(w.store, Tx(job, Opened), None) == Some(Checked) && Written(w.store, Tx(job, Checked)) == Some(s')
    requires job.Register? ==> FindsHardware(w.store, job.hardware, None)
    requires forall house :: house in Rows(Tx(job, Checked)) ==> Unheld(w, house)
    ensures Can(w, exempt, World(s', w.txs)) && Constraints(s')
  {
    CreationAccepted(w.store, job);
    var m := FreshTx(w, exempt);
    assert Wanted(Tx(job, Opened)) == {} && Guarded(w.store, Tx(job, Checked));
    hide Next, Written, Constraints, FindsHardware, Can, Admitted, Rows, Guarded;
    CanStep(w, Open(m, job), WithTx(w, m, Tx(job, Opened)), exempt);
    Advances(w, m, job, Opened, Checked, None, exempt);
    Commits(w, m, Tx(job, Checked), s', exempt);
    CanThen(w, WithTx(w, m, Tx(job, Opened)), WithTx(w, m, Tx(job, Checked)), exempt);
    CanThen(w, WithTx(w, m, Tx(job, Checked)), World(s', w.txs), exempt);
  }

  function LockSet(source: Id, target: Option<Id>): set<Id> {
    {source, if target.Some? then target.value else source}
  }

  /** The change would be allowed right now, as far as its look-ups and the guard go. */
  ghost predicate Allowed(s: Store, kind: Kind, id: Id, change: Change, source: Id, target: Option<Id>) {
    && HouseOf(s, kind, id) == Some(source) && (change.Move? ==> !kind.House?)
    && (if change.Move? then target.Some? && HouseOf(s, ParentKind(kind), change.parent) == target else target.None?)
    && (Crossing(change, target, source) ==> !BoundIn(s, kind, id))
  }

  lemma Stages(s: Store, kind: Kind, id: Id, change: Change, source: Id, target: Option<Id>)
    requires Constraints(s) && Allowed(s, kind, id, change, source, target)
    ensures var job, all := Job.Modify(kind, id, change), LockSet(source, target);
            && Admitted(s, job) && all <= s.houses
            && Next(s, Tx(job, Opened), None) == Some(Aimed(target))
            && Next(s, Tx(job, Aimed(target)), None) == Some(Sourced(target, source))
            && Next(s, Tx(job, Sourced(target, source)), None) == Some(Locked(target, source, all))
            && Next(s, Tx(job, Locked(target, source, all)), None) == Some(Confirmed(target, source, all))
            && Next(s, Tx(job, Confirmed(target, source, all)), None) == Some(Cleared(target, source, all))
  {
    ConstraintsGiveHouses(s, kind, id);
    if change.Move? {
      ConstraintsGiveHouses(s, ParentKind(kind), change.parent);
    }
    assert LockSet(source, target) * s.houses == LockSet(source, target);
  }

  /** A change runs up to the point where only its last look and its writes are left. */
  lemma ToCleared(w: World, m: Id, kind: Kind, id: Id, change: Change, source: Id, target: Option<Id>, exempt: set<Id>)
    requires Constraints(w.store) && Allowed(w.store, kind, id, change, source, target) && Newcomer(w, m, exempt)
    requires forall house :: house in LockSet(source, target) ==> Unheld(w, house)
    ensures Can(w, exempt, WithTx(w, m, Tx(Modify(kind, id, change), Cleared(target, source, LockSet(source, target)))))
  {
    Stages(w.store, kind, id, change, source, target);
    var job, all := Job.Modify(kind, id, change), LockSet(source, target);
    assert Wanted(Tx(job, Sourced(target, source))) == all;
    hide Next, Constraints, Allowed, Admitted, Can, LockSet;
    var w0, w1, w2 := WithTx(w, m, Tx(job, Opened)), WithTx(w, m, Tx(job, Aimed(target))), WithTx(w, m, Tx(job, Sourced(target, source)));
    var w3, w4 := WithTx(w, m, Tx(job, Locked(target, source, all))), WithTx(w, m, Tx(job, Confirmed(target, source, all)));
    var w5 := WithTx(w, m, Tx(job, Cleared(target, source, all)));
    CanStep(w, Open(m, job), w0, exempt);
    Advances(w, m, job, Opened, Aimed(target), None, exempt);
    CanThen(w, w0, w1, exempt);
    Advances(w, m, job, Aimed(target), Sourced(target, source), None, exempt);
    CanThen(w, w1, w2, exempt);
    Advances(w, m, job, Sourced(target, source), Locked(target, source, all), None, exempt);
    CanThen(w, w2, w3, exempt);
    Advances(w, m, job, Locked(target, source, all), Confirmed(target, source, all), None, exempt);
    CanThen(w, w3, w4, exempt);
    Advances(w, m, job, Confirmed(target, source, all), Cleared(target, source, all), None, exempt);
    CanThen(w, w4, w5, exempt);
  }

  /** And from there to its commit, whatever became of the store in between. */
  lemma FromCleared(w: World, m: Id, kind: Kind, id: Id, change: Change, source: Id, target: Option<Id>, held: set<Id>, exempt: set<Id>)
    requires Newcomer(w, m, exempt) && source in held && HouseOf(w.store, kind, id).Some?
    requires Constraints(Changed(w.store, kind, id, change)) && !kind.House?
    requires change.Move? && !kind.Floor? ==> HouseOf(w.store, ParentKind(kind), change.parent) == target
    requires change.Move? && kind.Floor? ==> Unheld(w, change.parent)
    ensures Can(WithTx(w, m, Tx(Modify(kind, id, change), Cleared(target, source, held))), exempt,
                World(Changed(w.store, kind, id, change), w.txs))
  {
    var job := Job.Modify(kind, id, change);
    var cleared, ready := Tx(job, Cleared(target, source, held)), Tx(job, Ready(target, source, held));
    assert Next(w.store, cleared, None) == Some(ready.stage) && Wanted(cleared) == {};
    assert Written(w.store, ready) == Some(Changed(w.store, kind, id, change)) && Guarded(w.store, ready);
    assert forall house :: house in Rows(ready) ==> house == change.parent && change.Move? && kind.Floor?;
    hide Next, Written, Guarded, Can, Constraints, HouseOf, Rows;
    Advances(w, m, job, cleared.stage, ready.stage, None, exempt);
    Commits(w, m, ready, Changed(w.store, kind, id, change), exempt);
    CanThen(WithTx(w, m, cleared), WithTx(w, m, ready), World(Changed(w.store, kind, id, change), w.txs), exempt);
  }

  /** A whole change with its locks. */
  lemma ModifyAlone(w: World, kind: Kind, id: Id, change: Change, source: Id, target: Option<Id>, exempt: set<Id>)
    requires Constraints(w.store) && Agree(w.store) && Allowed(w.store, kind, id, change, source, target) && !kind.House?
    requires forall house :: house in LockSet(source, target) ==> Unheld(w, house)
    ensures var s' := Changed(w.store, kind, id, change);
            Can(w, exempt, World(s', w.txs)) && Constraints(s') && Agree(s')
  {
    var m := FreshTx(w, exempt);
    assert ChangeOutcome(w.store, kind, id, change).Done?;
    ChangeKeepsAgreement(w.store, kind, id, change);
    ChangeKeepsConstraints(w.store, kind, id, change);
    ToCleared(w, m, kind, id, change, source, target, exempt);
    assert change.Move? && kind.Floor? ==> target == Some(change.parent);
    hide Can, Constraints, Agree, Changed;
    FromCleared(w, m, kind, id, change, source, target, LockSet(source, target), exempt);
    CanThen(w, WithTx(w, m, Tx(Modify(kind, id, change), Cleared(target, source, LockSet(source, target)))),
      World(Changed(w.store, kind, id, change), w.txs), exempt);
  }

  lemma ClaimStages(s: Store, house: Id, hardware: Id, code: Id, room: Id, d: Id)
    requires Constraints(s) && Agree(s) && d in s.physical && ClaimOutcome(s, house, Some(d), code, room) == Done(d)
    ensures var job, all := Job.Claim(house, hardware, code, room), {house};
            && Admitted(s, job) && Next(s, Tx(job, Opened), Some(d)) == Some(ClaimLocked(all))
            && Next(s, Tx(job, ClaimLocked(all)), Some(d)) == Some(ClaimMatched(d, all))
            && Next(s, Tx(job, ClaimMatched(d, all)), Some(d)) == Some(ClaimReady(d, all))
            && Written(s, Tx(job, ClaimReady(d, all))) == Some(Claimed(s, d, house, room))
    ensures Constraints(Claimed(s, d, house, room)) && Agree(Claimed(s, d, house, room))
  {
    ClaimKeepsAgreement(s, house, Some(d), code, room);
    ConstraintsGiveHouses(s, Room, room);
    assert {house} * s.houses == {house};
  }

  /** A whole claim with its lock. */
  lemma ClaimAlone(w: World, house: Id, hardware: Id, code: Id, room: Id, d: Id, exempt: set<Id>)
    requires Constraints(w.store) && Agree(w.store) && FindsHardware(w.store, hardware, Some(d)) && Unheld(w, house)
    requires ClaimOutcome(w.store, house, Some(d), code, room) == Done(d)
    ensures var s' := Claimed(w.store, d, house, room);
            Can(w, exempt, World(s', w.txs)) && Constraints(s') && Agree(s')
  {
    var m := FreshTx(w, exempt);
    var job, s' := Job.Claim(house, hardware, code, room), Claimed(w.store, d, house, room);
    ClaimStages(w.store, house, hardware, code, room, d);
    var t0, t1, t2, t3 := Tx(job, Opened), Tx(job, ClaimLocked({house})), Tx(job, ClaimMatched(d, {house})), Tx(job, ClaimReady(d, {house}));
    assert Wanted(t0) == {house} && Wanted(t1) == {} && Wanted(t2) == {} && Guarded(w.store, t3) && Rows(t3) == {house};
    hide Next, Wanted, Written, Guarded, Rows, Can, Constraints, Agree, Claimed, ClaimOutcome, FindsHardware, HouseOf, Admitted;
    CanStep(w, Open(m, job), WithTx(w, m, t0), exempt);
    Advances(w, m, job, t0.stage, t1.stage, Some(d), exempt);
    CanThen(w, WithTx(w, m, t0), WithTx(w, m, t1), exempt);
    Advances(w, m, job, t1.stage, t2.stage, Some(d), exempt);
    CanThen(w, WithTx(w, m, t1), WithTx(w, m, t2), exempt);
    Advances(w, m, job, t2.stage, t3.stage, Some(d), exempt);
    CanThen(w, WithTx(w, m, t2), WithTx(w, m, t3), exempt);
    Commits(w, m, t3, s', exempt);
    CanThen(w, WithTx(w, m, t3), World(s', w.txs), exempt);
  }

  // ----- building blocks of a continuation -----

  function WithRoom(s: Store, house: Id, floor: Id, room: Id): Store {
    s.(floors := s.floors[floor := house], rooms := s.rooms[room := floor])
  }

  /** New rows change no walk and bind nothing. */
  lemma NewRowsKeep(s: Store, s': Store)
    requires Constraints(s) && Constraints(s') && s'.devices == s.devices && s'.physical == s.physical && s.houses <= s'.houses
    requires forall f :: f in s.floors ==> f in s'.floors && s'.floors[f] == s.floors[f]
    requires forall r :: r in s.rooms ==> r in s'.rooms && s'.rooms[r] == s.rooms[r]
    ensures forall kind, id :: HouseOf(s, kind, id).Some? ==> HouseOf(s', kind, id) == HouseOf(s, kind, id)
    ensures forall kind, id :: HouseOf(s, kind, id).Some? && BoundIn(s', kind, id) ==> BoundIn(s, kind, id)
    ensures Agree(s) ==> Agree(s')
  {
    forall kind, id | HouseOf(s, kind, id).Some? && BoundIn(s', kind, id)
      ensures BoundIn(s, kind, id)
    {
      var d :| d in s'.physical && BoundAt(s', kind, id, d);
      assert BoundAt(s, kind, id, d);
    }
  }

  lemma NewRoom(w: World, house: Id, exempt: set<Id>) returns (floor: Id, room: Id)
    requires Constraints(w.store) && Agree(w.store) && house in w.store.houses && Unheld(w, house)
    ensures floor !in w.store.floors && room !in w.store.rooms
    ensures var s' := WithRoom(w.store, house, floor, room);
            Can(w, exempt, World(s', w.txs)) && Constraints(s') && Agree(s')
  {
    floor := FreshId(w.store.floors.Keys);
    room := FreshId(w.store.rooms.Keys);
    var s1 := w.store.(floors := w.store.floors[floor := house]);
    CreateAlone(w, CreateFloor(floor, house), s1, exempt);
    var w1 := World(s1, w.txs);
    CreateAlone(w1, CreateRoom(room, floor), WithRoom(w.store, house, floor, room), exempt);
    NewRowsKeep(w.store, WithRoom(w.store, house, floor, room));
    hide Can, Constraints, Agree;
    CanThen(w, w1, World(WithRoom(w.store, house, floor, room), w.txs), exempt);
  }

  function WithHome(s: Store, house: Id, floor: Id, room: Id): Store {
    WithRoom(s.(houses := s.houses + {house}), house, floor, room)
  }

  predicate IsNew(s: Store, house: Id, floor: Id, room: Id) {
    house !in s.houses && floor !in s.floors && room !in s.rooms
  }

  /** A new house with one floor and one room, which nobody has locked. */
  lemma NewHome(w: World, exempt: set<Id>) returns (house: Id, floor: Id, room: Id)
    requires Constraints(w.store) && Agree(w.store)
    ensures IsNew(w.store, house, floor, room) && Unheld(w, house)
    ensures var s' := WithHome(w.store, house, floor, room);
            Can(w, exempt, World(s', w.txs)) && Constraints(s') && Agree(s')
  {
    house := FreshHouse(w);
    var s1 := w.store.(houses := w.store.houses + {house});
    CreateAlone(w, CreateHouse(house), s1, exempt);
    NewRowsKeep(w.store, s1);
    var w1 := World(s1, w.txs);
    hide Can, Constraints, Agree;
    floor, room := NewRoom(w1, house, exempt);
    CanThen(w, w1, World(WithHome(w.store, house, floor, room), w.txs), exempt);
  }

  lemma HomeKeeps(s: Store, house: Id, floor: Id, room: Id)
    requires Constraints(s) && IsNew(s, house, floor, room) && Constraints(WithHome(s, house, floor, room))
    ensures var s' := WithHome(s, house, floor, room);
            && HouseOf(s', Floor, floor) == Some(house) && HouseOf(s', Room, room) == Some(house) && HouseOf(s', House, house) == Some(house)
            && (forall kind, id :: HouseOf(s, kind, id).Some? ==> HouseOf(s', kind, id) == HouseOf(s, kind, id))
            && (forall kind, id :: HouseOf(s, kind, id).Some? && BoundIn(s', kind, id) ==> BoundIn(s, kind, id))
            && (forall kind, id :: HouseOf(s, kind, id).Some? ==> HouseOf(s, kind, id).value != house)
  {
    NewRowsKeep(s, WithHome(s, house, floor, room));
    forall kind, id | HouseOf(s, kind, id).Some?
      ensures HouseOf(s, kind, id).value != house
    {
      ConstraintsGiveHouses(s, kind, id);
    }
  }

  function WithBound(s: Store, d: Id, hardware: Id, house: Id, room: Id): Store {
    s.(devices := s.devices[d := room], physical := s.physical[d := Physical(hardware, Provisioning, Some(house), Some(d), None)])
  }

  /** A brand-new device is registered and claimed into the room. */
  lemma BindFresh(w: World, house: Id, room: Id, exempt: set<Id>) returns (d: Id, hardware: Id)
    requires Constraints(w.store) && Agree(w.store) && HouseOf(w.store, Room, room) == Some(house) && Unheld(w, house)
    ensures d !in w.store.devices && d !in w.store.physical
    ensures var s' := WithBound(w.store, d, hardware, house, room);
            Can(w, exempt, World(s', w.txs)) && Constraints(s') && Agree(s')
  {
    var s := w.store;
    d := FreshId(s.devices.Keys + s.physical.Keys);
    hardware := FreshId(set x | x in s.physical :: s.physical[x].hardwareId);
    BindRegistered(w, d, hardware, house, room, exempt);
  }

  lemma BindRegistered(w: World, d: Id, hardware: Id, house: Id, room: Id, exempt: set<Id>)
    requires Constraints(w.store) && Agree(w.store) && HouseOf(w.store, Room, room) == Some(house) && Unheld(w, house)
    requires d !in w.store.devices && d !in w.store.physical && FindsHardware(w.store, hardware, None)
    ensures var s' := WithBound(w.store, d, hardware, house, room);
            Can(w, exempt, World(s', w.txs)) && Constraints(s') && Agree(s')
  {
    var s1 := w.store.(physical := w.store.physical[d := Physical(hardware, Unprovisioned, None, None, Some(0))]);
    CreateAlone(w, Register(d, hardware, 0), s1, exempt);
    RegisteredAgrees(w.store, d, Physical(hardware, Unprovisioned, None, None, Some(0)));
    var w1 := World(s1, w.txs);
    ClaimAlone(w1, house, hardware, 0, room, d, exempt);
    assert Claimed(s1, d, house, room) == WithBound(w.store, d, hardware, house, room);
    hide Can, Constraints, Agree;
    CanThen(w, w1, World(WithBound(w.store, d, hardware, house, room), w.txs), exempt);
  }

  lemma RegisteredAgrees(s: Store, d: Id, p: Physical)
    requires Agree(s) && d !in s.physical && p.house.None?
    ensures Agree(s.(physical := s.physical[d := p]))
    ensures forall kind, id :: HouseOf(s.(physical := s.physical[d := p]), kind, id) == HouseOf(s, kind, id)
  {
    var s' := s.(physical := s.physical[d := p]);
    forall e | e in s'.physical && s'.physical[e].house.Some?
      ensures HouseOf(s', Device, e) == s'.physical[e].house
    {
      assert HouseOf(s, Device, e) == s.physical[e].house;
    }
  }

  // ----- emptying a room or a floor of bound devices -----

  function BoundDevices(s: Store, kind: Kind, id: Id): set<Id> {
    set d | d in s.physical && BoundAt(s, kind, id, d)
  }

  predicate Outside(s: Store, kind: Kind, id: Id, room: Id) {
    (kind.Room? && room != id) || (kind.Floor? && room in s.rooms && s.rooms[room] != id)
  }

  lemma OneMovesOut(s: Store, kind: Kind, id: Id, house: Id, room: Id, d: Id)
    requires Constraints(s) && Agree(s) && HouseOf(s, kind, id) == Some(house) && HouseOf(s, Room, room) == Some(house)
    requires Outside(s, kind, id, room) && d in s.physical && BoundAt(s, kind, id, d)
    ensures Allowed(s, Device, d, Move(room), house, Some(house)) && d in s.devices
    ensures var s' := Moved(s, Device, d, room);
            && HouseOf(s', kind, id) == Some(house) && HouseOf(s', Room, room) == Some(house) && Outside(s', kind, id, room)
            && BoundDevices(s', kind, id) < BoundDevices(s, kind, id)
  {
    InsideSharesHouse(s, kind, id, d);
    var s' := Moved(s, Device, d, room);
    forall e | e in BoundDevices(s', kind, id)
      ensures e in BoundDevices(s, kind, id) && e != d
    {
      assert s.physical[e].bound == Some(e);
    }
    assert d in BoundDevices(s, kind, id);
  }

  /** Bound devices cannot leave their house, but they can leave the room or the floor:
      one after the other moves to another room of the house. */
  lemma {:induction false} EmptyOut(w: World, kind: Kind, id: Id, house: Id, room: Id, exempt: set<Id>) returns (s': Store)
    requires Constraints(w.store) && Agree(w.store) && Unheld(w, house)
    requires HouseOf(w.store, kind, id) == Some(house) && HouseOf(w.store, Room, room) == Some(house) && Outside(w.store, kind, id, room)
    ensures Can(w, exempt, World(s', w.txs)) && Constraints(s') && Agree(s')
    ensures s' == w.store.(devices := s'.devices) && s'.devices.Keys == w.store.devices.Keys && !BoundIn(s', kind, id)
    decreases |BoundDevices(w.store, kind, id)|
  {
    hide Can, Constraints, Agree, BoundAt, HouseOf, Allowed;
    s' := w.store;
    if d :| d in BoundDevices(w.store, kind, id) {
      OneMovesOut(w.store, kind, id, house, room, d);
      var s1 := Moved(w.store, Device, d, room);
      assert LockSet(house, Some(house)) == {house};
      ModifyAlone(w, Device, d, Move(room), house, Some(house), exempt);
      FewerInside(BoundDevices(s1, kind, id), BoundDevices(w.store, kind, id));
      assert s1.devices.Keys == w.store.devices.Keys;
      s' := EmptyOut(World(s1, w.txs), kind, id, house, room, exempt);
      CanThen(w, World(s1, w.txs), World(s', w.txs), exempt);
    } else {
      CanStay(w, exempt);
      assert forall d :: d in w.store.physical && BoundAt(w.store, kind, id, d) ==> d in BoundDevices(w.store, kind, id);
    }
  }

  lemma {:induction false} FewerInside(a: set<Id>, b: set<Id>)
    requires a < b
    ensures |a| < |b|
  {
    var x :| x in b && x !in a;
    NotMore(a, b - {x});
  }

  lemma {:induction false} NotMore(a: set<Id>, b: set<Id>)
    requires a <= b
    ensures |a| <= |b|
  {
    if x :| x in a {
      NotMore(a - {x}, b - {x});
    }
  }

  /** A room or a floor in one house is emptied and moved to a house of its own. */
  lemma Evacuate(w: World, kind: Kind, id: Id, house: Id, exempt: set<Id>) returns (s': Store, other: Id, parent: Id)
    requires Constraints(w.store) && Agree(w.store) && Unheld(w, house) && (kind.Room? || kind.Floor?)
    requires HouseOf(w.store, kind, id) == Some(house)
    ensures Can(w, exempt, World(s', w.txs)) && Constraints(s') && Agree(s')
    ensures Evacuated(w.store, s', kind, id, other) && Unheld(w, other)
  {
    hide Can, Constraints, Agree;
    var s0 := w.store;
    assert house in s0.houses by { ConstraintsGiveHouses(s0, kind, id); }
    var floor, room := NewRoom(w, house, exempt);
    var s1 := WithRoom(s0, house, floor, room);
    RoomKeeps(s0, house, floor, room, kind, id);
    var s2 := EmptyOut(World(s1, w.txs), kind, id, house, room, exempt);
    CanThen(w, World(s1, w.txs), World(s2, w.txs), exempt);
    var f, r;
    other, f, r := NewHome(World(s2, w.txs), exempt);
    var s3 := WithHome(s2, other, f, r);
    CanThen(w, World(s2, w.txs), World(s3, w.txs), exempt);
    HomeKeeps(s2, other, f, r);
    DevicesKeepHouses(s1, s2, kind, id);
    parent := if kind.Room? then f else other;
    ModifyAlone(World(s3, w.txs), kind, id, Move(parent), house, Some(other), exempt);
    s' := Moved(s3, kind, id, parent);
    CanThen(w, World(s3, w.txs), World(s', w.txs), exempt);
    EvacuationMeans(s0, s1, s2, s3, s', kind, id, house, floor, room, other, f, r, parent);
  }

  /** Everything else is where it was, except bound devices, which are in their house. */
  ghost predicate Evacuated(s: Store, s': Store, kind: Kind, id: Id, other: Id) {
    && HouseOf(s', kind, id) == Some(other) && other !in s.houses
    && s.houses <= s'.houses && s'.physical == s.physical && s'.devices.Keys == s.devices.Keys
    && (forall f :: f in s.floors && (kind.Room? || f != id) ==> HouseOf(s', Floor, f) == HouseOf(s, Floor, f))
    && s.floors.Keys <= s'.floors.Keys && s.rooms.Keys <= s'.rooms.Keys
  }

  lemma RoomKeeps(s: Store, house: Id, floor: Id, room: Id, kind: Kind, id: Id)
    requires Constraints(s) && Constraints(WithRoom(s, house, floor, room)) && floor !in s.floors && room !in s.rooms
    requires HouseOf(s, kind, id) == Some(house) && (kind.Room? || kind.Floor?)
    ensures var s' := WithRoom(s, house, floor, room);
            HouseOf(s', kind, id) == Some(house) && HouseOf(s', Room, room) == Some(house) && Outside(s', kind, id, room)
  {
    NewRowsKeep(s, WithRoom(s, house, floor, room));
  }

  lemma DevicesKeepHouses(s: Store, s': Store, kind: Kind, id: Id)
    requires s' == s.(devices := s'.devices) && (kind.Room? || kind.Floor?)
    ensures HouseOf(s', kind, id) == HouseOf(s, kind, id)
  {
  }

  lemma EvacuationMeans(s0: Store, s1: Store, s2: Store, s3: Store, s': Store, kind: Kind, id: Id, house: Id,
                        floor: Id, room: Id, other: Id, f: Id, r: Id, parent: Id)
    requires floor !in s0.floors && room !in s0.rooms && s1 == WithRoom(s0, house, floor, room)
    requires s2 == s1.(devices := s2.devices) && s2.devices.Keys == s1.devices.Keys && Constraints(s0) && Constraints(s2)
    requires IsNew(s2, other, f, r) && s3 == WithHome(s2, other, f, r) && (kind.Room? || kind.Floor?)
    requires HouseOf(s0, kind, id) == Some(house) && parent == (if kind.Room? then f else other) && s' == Moved(s3, kind, id, parent)
    ensures Evacuated(s0, s', kind, id, other)
  {
  }

  // ----- one unguarded transaction of each kind -----

  /** The exempt transaction commits, guarded or not. */
  lemma ExemptCommits(w: World, k: Id, s': Store)
    requires k in w.txs && Finished(w.txs[k].stage) && Written(w.store, w.txs[k]) == Some(s') && Constraints(s')
    requires forall l :: l in w.txs && l != k ==> Held(w.txs[l].stage) !! Rows(w.txs[k])
    ensures Can(w, {k}, World(s', w.txs - {k}))
  {
    hide Written, Constraints;
    CanStep(w, Commit(k), World(s', w.txs - {k}), {k});
  }

  function Only(s: Store, k: Id, tx: Tx): World {
    World(s, map[k := tx])
  }

  lemma MovingBoundBreaks(s: Store, kind: Kind, id: Id, parent: Id, house: Id, other: Id, d: Id)
    requires Constraints(s) && Agree(s) && !kind.House? && HouseOf(s, kind, id) == Some(house)
    requires HouseOf(s, ParentKind(kind), parent) == Some(other) && other != house
    requires d in s.physical && s.physical[d].house.Some? && Within(s, kind, id, d)
    ensures Constraints(Moved(s, kind, id, parent)) && !Agree(Moved(s, kind, id, parent))
  {
    InsideSharesHouse(s, kind, id, d);
    MoveTakesInsideAlong(s, kind, id, parent, d);
    assert s.physical[d].house == Some(house);
  }

  /** Room or floor: put it in another house than its destination, claim a device into
      it, and let the move commit. */
  lemma UnguardedMoveBreaks(s: Store, k: Id, tx: Tx, kind: Kind, id: Id, parent: Id, house: Id) returns (w': World)
    requires Constraints(s) && Agree(s) && (kind.Room? || kind.Floor?) && tx.job == Job.Modify(kind, id, Move(parent)) && tx.stage.Ready?
    requires HouseOf(s, kind, id) == Some(house) && house !in Held(tx.stage) && HouseOf(s, ParentKind(kind), parent).Some?
    ensures Can(Only(s, k, tx), {k}, w') && !Agree(w'.store)
  {
    hide Can, Constraints, Agree;
    var w, other := Only(s, k, tx), HouseOf(s, ParentKind(kind), parent).value;
    if other == house {
      var s1, away, _ := Evacuate(w, kind, id, house, {k});
      assert other in s.houses by { ConstraintsGiveHouses(s, ParentKind(kind), parent); }
      ParentStays(s, s1, kind, id, away, parent);
      assert k in w.txs && w.txs[k] == tx;
      w' := SeparateMoveBreaks(s1, k, tx, kind, id, parent, away, other);
      CanThen(w, Only(s1, k, tx), w', {k});
    } else {
      w' := SeparateMoveBreaks(s, k, tx, kind, id, parent, house, other);
    }
  }

  lemma ParentStays(s: Store, s': Store, kind: Kind, id: Id, away: Id, parent: Id)
    requires Evacuated(s, s', kind, id, away) && (kind.Room? || kind.Floor?)
    requires HouseOf(s, ParentKind(kind), parent).Some?
    ensures HouseOf(s', ParentKind(kind), parent) == HouseOf(s, ParentKind(kind), parent)
  {
  }

  lemma SeparateMoveBreaks(s: Store, k: Id, tx: Tx, kind: Kind, id: Id, parent: Id, house: Id, other: Id) returns (w': World)
    requires Constraints(s) && Agree(s) && (kind.Room? || kind.Floor?) && tx.job == Job.Modify(kind, id, Move(parent)) && tx.stage.Ready?
    requires HouseOf(s, kind, id) == Some(house) && house !in Held(tx.stage)
    requires HouseOf(s, ParentKind(kind), parent) == Some(other) && other != house
    ensures Can(Only(s, k, tx), {k}, w') && !Agree(w'.store)
  {
    hide Can, Constraints, Agree;
    var w := Only(s, k, tx);
    var s1, d := BindWithin(w, kind, id, house, ParentKind(kind), parent, {k});
    MovingBoundBreaks(s1, kind, id, parent, house, other, d);
    w' := World(Moved(s1, kind, id, parent), map[]);
    assert map[k := tx] - {k} == map[];
    ExemptCommits(Only(s1, k, tx), k, w'.store);
    CanThen(w, Only(s1, k, tx), w', {k});
  }

  /** A new device is claimed into a room or somewhere on a floor; nothing else changes. */
  lemma BindWithin(w: World, kind: Kind, id: Id, house: Id, kind2: Kind, id2: Id, exempt: set<Id>) returns (s': Store, d: Id)
    requires Constraints(w.store) && Agree(w.store) && (kind.Room? || kind.Floor?) && Unheld(w, house)
    requires HouseOf(w.store, kind, id) == Some(house) && HouseOf(w.store, kind2, id2).Some?
    ensures Can(w, exempt, World(s', w.txs)) && Constraints(s') && Agree(s')
    ensures HouseOf(s', kind, id) == Some(house) && HouseOf(s', kind2, id2) == HouseOf(w.store, kind2, id2)
    ensures d in s'.physical && s'.physical[d].house.Some? && Within(s', kind, id, d)
  {
    hide Can, Constraints, Agree;
    var room, s1 := id, w.store;
    CanStay(w, exempt);
    if kind.Floor? {
      room := FreshId(w.store.rooms.Keys);
      s1 := w.store.(rooms := w.store.rooms[room := id]);
      CreateAlone(w, CreateRoom(room, id), s1, exempt);
      NewRowsKeep(w.store, s1);
    }
    var hardware;
    d, hardware := BindFresh(World(s1, w.txs), house, room, exempt);
    s' := WithBound(s1, d, hardware, house, room);
    assert HouseOf(s', kind2, id2) == HouseOf(s1, kind2, id2);
    CanThen(w, World(s1, w.txs), World(s', w.txs), exempt);
  }

  // ----- claims -----

  predicate Claimable(s: Store, tx: Tx)
    requires tx.job.Claim? && tx.stage.ClaimReady?
  {
    var d := tx.stage.device;
    && d !in s.devices && d in s.physical && s.physical[d].status.Unprovisioned?
    && tx.job.house in s.houses && tx.job.room in s.rooms
  }

  lemma ClaimAccepted(s: Store, tx: Tx)
    requires Constraints(s) && tx.job.Claim? && tx.stage.ClaimReady?
    ensures Accepted(s, tx) <==> Claimable(s, tx)
  {
    var d := tx.stage.device;
    if Claimable(s, tx) {
      assert CheckBinding(d, s.physical[d]);
      assert Constraints(Claimed(s, d, tx.job.house, tx.job.room));
    }
    if Accepted(s, tx) {
      var s' := Claimed(s, d, tx.job.house, tx.job.room);
      assert d in s'.devices && d in s'.physical && s'.physical[d].house == Some(tx.job.house);
    }
  }

  lemma StrayClaimBreaks(s: Store, tx: Tx)
    requires Constraints(s) && tx.job.Claim? && tx.stage.ClaimReady? && Accepted(s, tx)
    requires HouseOf(s, Room, tx.job.room) != Some(tx.job.house)
    ensures !Agree(Written(s, tx).value)
  {
    var d, s' := tx.stage.device, Written(s, tx).value;
    assert s'.physical[d].house == Some(tx.job.house) && HouseOf(s', Device, d) == HouseOf(s, Room, tx.job.room);
  }

  /** The room is emptied of bound devices and leaves its house; then the claim commits. */
  lemma UnguardedClaimBreaks(s: Store, k: Id, tx: Tx) returns (w': World)
    requires Constraints(s) && Agree(s) && tx.job.Claim? && tx.stage.ClaimReady? && Accepted(s, tx)
    requires tx.job.house !in Held(tx.stage)
    ensures Can(Only(s, k, tx), {k}, w') && !Agree(w'.store)
  {
    hide Can, Constraints, Agree, Written;
    var w, house, room, s1 := Only(s, k, tx), tx.job.house, tx.job.room, s;
    CanStay(w, {k});
    ClaimAccepted(s, tx);
    if HouseOf(s, Room, room) == Some(house) {
      var away, parent;
      s1, away, parent := Evacuate(w, Room, room, house, {k});
      ClaimAccepted(s1, tx);
    }
    StrayClaimBreaks(s1, tx);
    w' := World(Written(s1, tx).value, map[]);
    assert map[k := tx] - {k} == map[];
    ExemptCommits(Only(s1, k, tx), k, w'.store);
    CanThen(w, Only(s1, k, tx), w', {k});
  }

  // ----- devices, and deletions -----

  predicate Unclaimed(s: Store, d: Id) {
    d in s.physical ==> s.physical[d].house.None?
  }

  lemma UnclaimedIsUnbound(s: Store, d: Id)
    requires Constraints(s) && Unclaimed(s, d)
    ensures !BoundIn(s, Device, d)
  {
  }

  lemma UnclaimedMoves(s: Store, d: Id, room: Id)
    requires Constraints(s) && Agree(s) && Unclaimed(s, d) && d in s.devices && room in s.rooms
    ensures Constraints(Moved(s, Device, d, room)) && Agree(Moved(s, Device, d, room))
    ensures forall kind: Kind, id: Id :: !kind.Device? ==> HouseOf(Moved(s, Device, d, room), kind, id) == HouseOf(s, kind, id)
  {
    var s' := Moved(s, Device, d, room);
    forall e | e in s'.physical && s'.physical[e].house.Some?
      ensures HouseOf(s', Device, e) == s'.physical[e].house
    {
      assert HouseOf(s, Device, e) == s.physical[e].house;
    }
  }

  /** A device that is not in the tree, registered or not, is claimed into the room. */
  lemma BindGiven(w: World, d: Id, house: Id, room: Id, exempt: set<Id>) returns (s': Store)
    requires Constraints(w.store) && Agree(w.store) && HouseOf(w.store, Room, room) == Some(house) && Unheld(w, house)
    requires d !in w.store.devices && Unclaimed(w.store, d)
    ensures Can(w, exempt, World(s', w.txs)) && Constraints(s') && Agree(s')
    ensures s' == w.store.(devices := w.store.devices[d := room], physical := s'.physical)
    ensures d in s'.physical && s'.physical[d].house == Some(house)
  {
    var s := w.store;
    if d in s.physical {
      var p := s.physical[d];
      assert CheckBinding(d, p) && FindsHardware(s, p.hardwareId, Some(d));
      ClaimAlone(w, house, p.hardwareId, p.codeHash.value, room, d, exempt);
      s' := Claimed(s, d, house, room);
    } else {
      var hardware := FreshId(set x | x in s.physical :: s.physical[x].hardwareId);
      BindRegistered(w, d, hardware, house, room, exempt);
      s' := WithBound(s, d, hardware, house, room);
    }
  }

  /** A claimed device is moved to a room of another house. */
  lemma UnguardedClaimedDeviceBreaks(s: Store, k: Id, tx: Tx, d: Id, room: Id, house: Id) returns (w': World)
    requires Constraints(s) && Agree(s) && tx.job == Job.Modify(Device, d, Move(room)) && tx.stage.Ready?
    requires HouseOf(s, Device, d) == Some(house) && house !in Held(tx.stage) && HouseOf(s, Room, room).Some? && !Unclaimed(s, d)
    ensures Can(Only(s, k, tx), {k}, w') && !Agree(w'.store)
  {
    hide Can, Constraints;
    var w, s1, other := Only(s, k, tx), s, HouseOf(s, Room, room).value;
    CanStay(w, {k});
    assert s.physical[d].house == Some(house);
    assert house in s.houses by { ConstraintsGiveHouses(s, Device, d); }
    if other == house {
      var parent;
      s1, other, parent := Evacuate(w, Room, room, house, {k});
    }
    assert HouseOf(s1, Device, d) == Some(house) && HouseOf(s1, Room, room) == Some(other);
    MovingBoundBreaks(s1, Device, d, room, house, other, d);
    w' := World(Moved(s1, Device, d, room), map[]);
    assert map[k := tx] - {k} == map[];
    ExemptCommits(Only(s1, k, tx), k, w'.store);
    CanThen(w, Only(s1, k, tx), w', {k});
  }

  /** An observer O is a locked move of the entity that has already made sure that
      nothing bound is inside; when the entity is gone and another one of the same
      identity has a device bound inside, its move goes wrong. */
  function Observer(kind: Kind, id: Id, parent: Id, source: Id, other: Id): Tx {
    Tx(Modify(kind, id, Move(parent)), Cleared(Some(other), source, {source, other}))
  }

  lemma ObserverWatches(w: World, m: Id, kind: Kind, id: Id, parent: Id, source: Id, other: Id, exempt: set<Id>)
    requires Constraints(w.store) && !kind.House? && HouseOf(w.store, kind, id) == Some(source) && !BoundIn(w.store, kind, id)
    requires HouseOf(w.store, ParentKind(kind), parent) == Some(other) && Unheld(w, source) && Unheld(w, other)
    requires Newcomer(w, m, exempt)
    ensures Can(w, exempt, WithTx(w, m, Observer(kind, id, parent, source, other)))
  {
    hide Can, Constraints, BoundIn, HouseOf;
    ToCleared(w, m, kind, id, Move(parent), source, Some(other), exempt);
  }

  lemma ObserverBreaks(s: Store, m: Id, kind: Kind, id: Id, parent: Id, source: Id, other: Id, house: Id, d: Id, exempt: set<Id>)
    requires Constraints(s) && Agree(s) && !kind.House? && m !in exempt
    requires HouseOf(s, kind, id) == Some(house) && HouseOf(s, ParentKind(kind), parent) == Some(other) && other != house
    requires d in s.physical && s.physical[d].house.Some? && Within(s, kind, id, d)
    ensures var s' := Moved(s, kind, id, parent);
            Can(Only(s, m, Observer(kind, id, parent, source, other)), exempt, World(s', map[])) && !Agree(s')
  {
    MovingBoundBreaks(s, kind, id, parent, house, other, d);
    assert kind.Floor? ==> parent == other;
    hide Can, Constraints, Agree, HouseOf, Moved, Within;
    var w: World := World(s, map[]);
    assert WithTx(w, m, Observer(kind, id, parent, source, other)) == Only(s, m, Observer(kind, id, parent, source, other));
    FromCleared(w, m, kind, id, Move(parent), source, Some(other), {source, other}, exempt);
  }

  /** An unclaimed device: it gets a house of its own, is watched there, the unguarded
      move takes it away, and it is claimed where it went. */
  lemma UnguardedDeviceBreaks(s: Store, k: Id, tx: Tx, d: Id, room: Id, house: Id) returns (w': World)
    requires Constraints(s) && Agree(s) && tx.job == Job.Modify(Device, d, Move(room)) && tx.stage.Ready?
    requires HouseOf(s, Device, d) == Some(house) && house !in Held(tx.stage) && HouseOf(s, Room, room).Some? && Unclaimed(s, d)
    ensures Can(Only(s, k, tx), {k}, w') && !Agree(w'.store)
  {
    hide Can, Constraints, Agree, BoundIn;
    var w, target := Only(s, k, tx), HouseOf(s, Room, room).value;
    var s1, source := DeviceAlone(w, d, room, house, {k});
    var other, f, parent := NewHome(World(s1, w.txs), {k});
    var s2 := WithHome(s1, other, f, parent);
    HomeKeeps(s1, other, f, parent);
    CanThen(w, World(s1, w.txs), World(s2, w.txs), {k});
    UnclaimedIsUnbound(s2, d);
    var m := FreshTx(World(s2, w.txs), {k});
    ObserverWatches(World(s2, w.txs), m, Device, d, parent, source, other, {k});
    var observer := Observer(Device, d, parent, source, other);
    var w3 := WithTx(World(s2, w.txs), m, observer);
    CanThen(w, World(s2, w.txs), w3, {k});
    UnclaimedMoves(s2, d, room);
    var s4 := Moved(s2, Device, d, room);
    assert w3.txs - {k} == map[m := observer];
    ExemptCommits(w3, k, s4);
    CanThen(w, w3, Only(s4, m, observer), {k});
    assert source != target && other != target;
    w' := DeviceReturnsBound(s4, m, d, room, target, parent, source, other, {k});
    CanThen(w, Only(s4, m, observer), w', {k});
  }

  /** The device is moved to a new house of its own. */
  lemma DeviceAlone(w: World, d: Id, room: Id, house: Id, exempt: set<Id>) returns (s': Store, source: Id)
    requires Constraints(w.store) && Agree(w.store) && HouseOf(w.store, Device, d) == Some(house) && Unheld(w, house)
    requires HouseOf(w.store, Room, room).Some? && Unclaimed(w.store, d)
    ensures Can(w, exempt, World(s', w.txs)) && Constraints(s') && Agree(s') && Unheld(w, source)
    ensures HouseOf(s', Device, d) == Some(source) && HouseOf(s', Room, room) == HouseOf(w.store, Room, room)
    ensures HouseOf(w.store, Room, room).value != source && s'.physical == w.store.physical
  {
    hide Can, Constraints, Agree, BoundIn;
    var f, r;
    source, f, r := NewHome(w, exempt);
    var s1 := WithHome(w.store, source, f, r);
    HomeKeeps(w.store, source, f, r);
    UnclaimedIsUnbound(s1, d);
    ModifyAlone(World(s1, w.txs), Device, d, Move(r), house, Some(source), exempt);
    s' := Moved(s1, Device, d, r);
    CanThen(w, World(s1, w.txs), World(s', w.txs), exempt);
  }

  /** With the observer watching, the device is deleted, claimed, and then moved. */
  lemma DeviceReturnsBound(s: Store, m: Id, d: Id, room: Id, house: Id, parent: Id, source: Id, other: Id, exempt: set<Id>) returns (w': World)
    requires Constraints(s) && Agree(s) && m !in exempt && Unclaimed(s, d)
    requires HouseOf(s, Device, d) == Some(house) && HouseOf(s, Room, room) == Some(house) && house != source && house != other
    requires HouseOf(s, Room, parent) == Some(other)
    ensures Can(Only(s, m, Observer(Device, d, parent, source, other)), exempt, w') && !Agree(w'.store)
  {
    hide Can, Constraints, Agree, BoundIn;
    var observer := Observer(Device, d, parent, source, other);
    var w := Only(s, m, observer);
    UnclaimedIsUnbound(s, d);
    ModifyAlone(w, Device, d, Delete, house, None, exempt);
    var s1 := Deleted(s, Device, d);
    w' := ClaimedAndMoved(s1, m, d, room, house, parent, source, other, exempt);
    CanThen(w, Only(s1, m, observer), w', exempt);
  }

  lemma ClaimedAndMoved(s: Store, m: Id, d: Id, room: Id, house: Id, parent: Id, source: Id, other: Id, exempt: set<Id>) returns (w': World)
    requires Constraints(s) && Agree(s) && m !in exempt && Unclaimed(s, d) && d !in s.devices
    requires HouseOf(s, Room, room) == Some(house) && house != source && house != other && HouseOf(s, Room, parent) == Some(other)
    ensures Can(Only(s, m, Observer(Device, d, parent, source, other)), exempt, w') && !Agree(w'.store)
  {
    hide Can, Constraints, Agree;
    var observer := Observer(Device, d, parent, source, other);
    var w := Only(s, m, observer);
    var s1 := BindGiven(w, d, house, room, exempt);
    ObserverBreaks(s1, m, Device, d, parent, source, other, house, d, exempt);
    w' := World(Moved(s1, Device, d, parent), map[]);
    CanThen(w, Only(s1, m, observer), w', exempt);
  }

  lemma DeletionKeeps(s: Store, kind: Kind, id: Id, house: Id, kind2: Kind, id2: Id, other: Id)
    requires Constraints(s) && Agree(s) && HouseOf(s, kind, id) == Some(house) && Constraints(Deleted(s, kind, id)) && !kind.House?
    requires HouseOf(s, kind2, id2) == Some(other) && other != house
    ensures Agree(Deleted(s, kind, id)) && !BoundIn(s, kind, id) && HouseOf(Deleted(s, kind, id), kind2, id2) == Some(other)
    ensures kind.Device? ==> Unclaimed(s, id) && id !in Deleted(s, kind, id).devices
    ensures kind.Room? ==> id !in Deleted(s, kind, id).rooms
    ensures kind.Floor? ==> id !in Deleted(s, kind, id).floors
    ensures Deleted(s, kind, id).physical == s.physical
  {
    var s' := Deleted(s, kind, id);
    assert Cautious(s, kind, id, Delete, house);
    CautiousKeepsAgreement(s, kind, id, Delete, house);
    OtherHousesStand(s, kind, id, Delete, house, other, kind2, id2);
    PhysicalKept(s, kind, id, Delete);
  }

  /** An unguarded deletion: the entity is watched, deleted, created again elsewhere and
      gets a bound device, which the observer then takes to another house. */
  lemma UnguardedDeletionBreaks(s: Store, k: Id, tx: Tx, kind: Kind, id: Id, house: Id) returns (w': World)
    requires Constraints(s) && Agree(s) && !kind.House? && tx.job == Job.Modify(kind, id, Delete) && tx.stage.Ready?
    requires HouseOf(s, kind, id) == Some(house) && house !in Held(tx.stage) && Constraints(Deleted(s, kind, id))
    ensures Can(Only(s, k, tx), {k}, w') && !Agree(w'.store)
  {
    hide Can, Constraints, Agree, BoundIn, Cautious;
    var w := Only(s, k, tx);
    var other, f, r := NewHome(w, {k});
    var s1 := WithHome(s, other, f, r);
    HomeKeeps(s, other, f, r);
    var parent := if kind.Device? then r else if kind.Room? then f else other;
    DeletionStillAccepted(s, kind, id, other, f, r);
    DeletionKeeps(s1, kind, id, house, ParentKind(kind), parent, other);
    var m := FreshTx(World(s1, w.txs), {k});
    assert k in w.txs && w.txs[k] == tx;
    ObserverWatches(World(s1, w.txs), m, kind, id, parent, house, other, {k});
    var observer := Observer(kind, id, parent, house, other);
    var w2 := WithTx(World(s1, w.txs), m, observer);
    CanThen(w, World(s1, w.txs), w2, {k});
    var s3 := Deleted(s1, kind, id);
    assert w2.txs - {k} == map[m := observer];
    ExemptCommits(w2, k, s3);
    CanThen(w, w2, Only(s3, m, observer), {k});
    w' := ReturnsBound(s3, m, kind, id, parent, house, other, {k});
    CanThen(w, Only(s3, m, observer), w', {k});
  }

  lemma DeletionStillAccepted(s: Store, kind: Kind, id: Id, other: Id, f: Id, r: Id)
    requires Constraints(s) && IsNew(s, other, f, r) && HouseOf(s, kind, id).Some? && !kind.House?
    requires Constraints(Deleted(s, kind, id)) && Constraints(WithHome(s, other, f, r))
    ensures Constraints(Deleted(WithHome(s, other, f, r), kind, id))
  {
    var s1 := WithHome(s, other, f, r);
    DeletionKeepsKeys(s1, kind, id);
  }

  lemma ReturnsBound(s: Store, m: Id, kind: Kind, id: Id, parent: Id, source: Id, other: Id, exempt: set<Id>) returns (w': World)
    requires Constraints(s) && Agree(s) && !kind.House? && m !in exempt && HouseOf(s, ParentKind(kind), parent) == Some(other)
    requires kind.Room? ==> id !in s.rooms
    requires kind.Floor? ==> id !in s.floors
    requires kind.Device? ==> id !in s.devices && Unclaimed(s, id)
    ensures Can(Only(s, m, Observer(kind, id, parent, source, other)), exempt, w') && !Agree(w'.store)
  {
    hide Can, Constraints, Agree;
    var observer := Observer(kind, id, parent, source, other);
    var w := Only(s, m, observer);
    var house, f, r := NewHome(w, exempt);
    var s1 := WithHome(s, house, f, r);
    HomeKeeps(s, house, f, r);
    assert kind.Room? || kind.Floor? ==> (HouseOf(s1, kind, id).Some? ==> HouseOf(s1, kind, id) == Some(house));
    CanStay(Only(s1, m, observer), exempt);
    assert m in w.txs && Held(w.txs[m].stage) == {source, other};
    if kind.Device? {
      w' := ClaimedAndMoved(s1, m, id, r, house, parent, source, other, exempt);
      CanThen(w, Only(s1, m, observer), w', exempt);
    } else {
      var s2 := Recreated(s1, m, observer, kind, id, house, f, ParentKind(kind), parent, exempt);
      CanThen(w, Only(s1, m, observer), Only(s2, m, observer), exempt);
      var s3, d := BindWithin(Only(s2, m, observer), kind, id, house, ParentKind(kind), parent, exempt);
      CanThen(w, Only(s2, m, observer), Only(s3, m, observer), exempt);
      ObserverBreaks(s3, m, kind, id, parent, source, other, house, d, exempt);
      w' := World(Moved(s3, kind, id, parent), map[]);
      CanThen(w, Only(s3, m, observer), w', exempt);
    }
  }

  /** The room or floor exists again, in the given house. */
  lemma Recreated(s: Store, m: Id, tx: Tx, kind: Kind, id: Id, house: Id, floor: Id, kind2: Kind, id2: Id, exempt: set<Id>) returns (s': Store)
    requires Constraints(s) && Agree(s) && (kind.Room? || kind.Floor?) && HouseOf(s, Floor, floor) == Some(house)
    requires house !in Held(tx.stage) && HouseOf(s, kind2, id2).Some?
    requires HouseOf(s, kind, id).Some? ==> HouseOf(s, kind, id) == Some(house)
    ensures Can(Only(s, m, tx), exempt, Only(s', m, tx)) && Constraints(s') && Agree(s')
    ensures HouseOf(s', kind, id) == Some(house) && HouseOf(s', kind2, id2) == HouseOf(s, kind2, id2)
  {
    s' := s;
    CanStay(Only(s, m, tx), exempt);
    assert house in s.houses by { ConstraintsGiveHouses(s, Floor, floor); }
    if HouseOf(s, kind, id).None? && kind.Room? {
      s' := s.(rooms := s.rooms[id := floor]);
      CreateAlone(Only(s, m, tx), CreateRoom(id, floor), s', exempt);
      NewRowsKeep(s, s');
    } else if HouseOf(s, kind, id).None? {
      s' := s.(floors := s.floors[id := house]);
      CreateAlone(Only(s, m, tx), CreateFloor(id, house), s', exempt);
      NewRowsKeep(s, s');
    }
  }

  // ----- the theorems -----

  /** Whatever finished transaction would be accepted now without the lock it needs:
      some continuation, in which everybody else has theirs, breaks the agreement. */
  lemma LockIsNeeded(w: World, k: Id) returns (w': World)
    requires Sound(w) && k in w.txs && Finished(w.txs[k].stage) && Accepted(w.store, w.txs[k]) && !Guarded(w.store, w.txs[k])
    ensures Can(w, {k}, w') && !Agree(w'.store)
  {
    var s, tx := w.store, w.txs[k];
    assert TxOk(s, tx);
    AbortOthers(w, k);
    match tx.job {
      case Claim(_, _, _, _) => w' := UnguardedClaimBreaks(s, k, tx);
      case Modify(kind, id, change) =>
        var house := HouseOf(s, kind, id).value;
        if change.Delete? {
          w' := UnguardedDeletionBreaks(s, k, tx, kind, id, house);
        } else {
          MoveHasParent(s, tx);
          if !kind.Device? {
            w' := UnguardedMoveBreaks(s, k, tx, kind, id, change.parent, house);
          } else if Unclaimed(s, id) {
            w' := UnguardedDeviceBreaks(s, k, tx, id, change.parent, house);
          } else {
            w' := UnguardedClaimedDeviceBreaks(s, k, tx, id, change.parent, house);
          }
        }
    }
    hide Can, Agree;
    CanThen(w, Only(s, k, tx), w', {k});
  }

  lemma MoveHasParent(s: Store, tx: Tx)
    requires Constraints(s) && Accepted(s, tx) && tx.job.Modify? && tx.job.change.Move? && !tx.job.kind.House?
    ensures HouseOf(s, ParentKind(tx.job.kind), tx.job.change.parent).Some?
  {
    if tx.job.kind.Floor? {
      assert Written(s, tx).value.floors[tx.job.id] == tx.job.change.parent;
    } else if tx.job.kind.Room? {
      assert Written(s, tx).value.rooms[tx.job.id] == tx.job.change.parent;
    } else {
      assert Written(s, tx).value.devices[tx.job.id] == tx.job.change.parent;
    }
  }

  /** The exact condition: a transaction that the database would accept is harmless in
      every continuation in which all others are guarded if and only if it is guarded
      itself, for claims, moves across houses or within one, and deletions alike. */
  lemma LockNeededExactlyWhen(w: World, k: Id)
    requires Sound(w) && k in w.txs && Finished(w.txs[k].stage) && Accepted(w.store, w.txs[k])
    ensures Guarded(w.store, w.txs[k]) <==> forall w' :: Can(w, {k}, w') ==> Agree(w'.store)
  {
    hide Agree, Constraints, Accepted, Guarded, Leads;
    if Guarded(w.store, w.txs[k]) {
      forall w' | Can(w, {k}, w')
        ensures Agree(w'.store)
      {
        var acts :| Leads(w, acts, {k}, w');
        ContinuationStaysSound(w, acts, w', k, w.txs[k]);
      }
    } else {
      var w' := LockIsNeeded(w, k);
    }
  }

  // ----- it does happen -----

  /** Nothing is bound in the house and nobody holds it: it is deleted. */
  lemma DeleteHouseAlone(w: World, house: Id, exempt: set<Id>)
    requires Constraints(w.store) && Agree(w.store) && house in w.store.houses && !BoundIn(w.store, House, house) && Unheld(w, house)
    ensures var s' := Deleted(w.store, House, house);
            Can(w, exempt, World(s', w.txs)) && Constraints(s') && Agree(s')
  {
    var m := FreshTx(w, exempt);
    var job, s' := Job.Modify(House, house, Delete), Deleted(w.store, House, house);
    assert ChangeOutcome(w.store, House, house, Delete).Done?;
    ChangeKeepsAgreement(w.store, House, house, Delete);
    ChangeKeepsConstraints(w.store, House, house, Delete);
    assert LockSet(house, None) == {house};
    ToCleared(w, m, House, house, Delete, house, None, exempt);
    var cleared, ready := Tx(job, Cleared(None, house, {house})), Tx(job, Ready(None, house, {house}));
    assert Next(w.store, cleared, None) == Some(ready.stage) && Wanted(cleared) == {};
    assert Written(w.store, ready) == Some(s') && Guarded(w.store, ready) && Rows(ready) == {house};
    hide Next, Written, Guarded, Can, Constraints, Agree, HouseOf, Rows, Deleted;
    Advances(w, m, job, cleared.stage, ready.stage, None, exempt);
    CanThen(w, WithTx(w, m, cleared), WithTx(w, m, ready), exempt);
    Commits(w, m, ready, s', exempt);
    CanThen(w, WithTx(w, m, ready), World(s', w.txs), exempt);
  }

  const CLAIM := Job.Claim(1, 70, 700, 100)
  const BOX := Physical(70, Unprovisioned, None, None, Some(700))
  const SHELF := EMPTY_STORE.(physical := map[7 := BOX])
  const CITY := Store({1}, map[10 := 1], map[100 := 10], map[], map[7 := BOX])

  function Claimant(s: Store, stage: Stage): World {
    Only(s, 9, Tx(CLAIM, stage))
  }

  const VILLAGE := SHELF.(houses := {1})
  const NOBODY: map<Id, Tx> := map[]

  lemma HouseIsBuilt()
    ensures Can(BEGIN, {}, World(VILLAGE, NOBODY)) && Constraints(VILLAGE) && Constraints(SHELF)
  {
    assert Constraints(EMPTY_STORE);
    CreateAlone(BEGIN, Register(7, 70, 700), SHELF, {});
    assert SHELF.houses + {1} == VILLAGE.houses;
    CreateAlone(World(SHELF, NOBODY), CreateHouse(1), VILLAGE, {});
    hide Can, Constraints;
    CanThen(BEGIN, World(SHELF, NOBODY), World(VILLAGE, NOBODY), {});
  }

  /** The house exists when the claim is admitted and is deleted before the claim locks it. */
  lemma HouseGoesAway()
    requires Constraints(VILLAGE)
    ensures Can(World(VILLAGE, NOBODY), {}, Claimant(VILLAGE, Opened))
    ensures Can(Claimant(VILLAGE, Opened), {}, Claimant(SHELF, ClaimLocked({})))
  {
    var w := Claimant(VILLAGE, Opened);
    assert Deleted(VILLAGE, House, 1) == SHELF && {1} * SHELF.houses == {};
    CanStep(World(VILLAGE, NOBODY), Open(9, CLAIM), w, {});
    CanStep(Claimant(SHELF, Opened), Advance(9, Some(7)), Claimant(SHELF, ClaimLocked({})), {});
    DeleteHouseAlone(w, 1, {});
    hide Can, Constraints, Deleted;
    CanThen(w, Claimant(SHELF, Opened), Claimant(SHELF, ClaimLocked({})), {});
  }

  /** It is created again, with its floor and room. */
  lemma HouseComesBack()
    requires Constraints(SHELF)
    ensures Can(Claimant(SHELF, ClaimLocked({})), {}, Claimant(CITY, ClaimLocked({})))
  {
    var s2, locked := VILLAGE.(floors := map[10 := 1]), ClaimLocked({});
    assert SHELF.houses + {1} == VILLAGE.houses;
    CreateAlone(Claimant(SHELF, locked), CreateHouse(1), VILLAGE, {});
    CreateAlone(Claimant(VILLAGE, locked), CreateFloor(10, 1), s2, {});
    CreateAlone(Claimant(s2, locked), CreateRoom(100, 10), CITY, {});
    hide Can, Constraints;
    CanThen(Claimant(SHELF, locked), Claimant(VILLAGE, locked), Claimant(s2, locked), {});
    CanThen(Claimant(SHELF, locked), Claimant(s2, locked), Claimant(CITY, locked), {});
  }

  lemma ClaimGoesOn()
    ensures Can(Claimant(CITY, ClaimLocked({})), {}, Claimant(CITY, ClaimReady(7, {})))
  {
    var w0, w1, w2 := Claimant(CITY, ClaimLocked({})), Claimant(CITY, ClaimMatched(7, {})), Claimant(CITY, ClaimReady(7, {}));
    CanStep(w0, Advance(9, Some(7)), w1, {});
    CanStep(w1, Advance(9, Some(7)), w2, {});
    hide Can;
    CanThen(w0, w1, w2, {});
  }

  lemma CityIsSound()
    ensures var w := Claimant(CITY, ClaimReady(7, {}));
            Sound(w) && Accepted(CITY, w.txs[9]) && !Guarded(CITY, w.txs[9])
  {
    assert Constraints(Claimed(CITY, 7, 1, 100));
  }

  /** A run from the empty store in which everybody else is guarded: the house exists
      when the claim is admitted, is gone when the claim tries to lock it, is created
      again under the same identifier, and the claim ends in disagreement. */
  lemma DeletedAndRecreatedHouseBreaksAgreement() returns (admitted: World, locked: World, ready: World, w: World)
    ensures Can(BEGIN, {}, admitted) && Can(admitted, {}, locked) && Can(locked, {}, ready) && Can(ready, {9}, w)
    ensures 9 in admitted.txs && admitted.txs[9] == Tx(CLAIM, Opened) && 1 in admitted.store.houses
    ensures 9 in locked.txs && locked.txs[9] == Tx(CLAIM, ClaimLocked({})) && 1 !in locked.store.houses
    ensures 9 in ready.txs && ready.txs[9] == Tx(CLAIM, ClaimReady(7, {})) && 1 in ready.store.houses
    ensures !Agree(w.store)
  {
    hide Can, Agree, Constraints, Accepted, Guarded;
    HouseIsBuilt();
    HouseGoesAway();
    HouseComesBack();
    ClaimGoesOn();
    CityIsSound();
    admitted, locked, ready := Claimant(VILLAGE, Opened), Claimant(SHELF, ClaimLocked({})), Claimant(CITY, ClaimReady(7, {}));
    CanThen(BEGIN, World(VILLAGE, NOBODY), admitted, {});
    CanThen(locked, Claimant(CITY, ClaimLocked({})), ready, {});
    w := LockIsNeeded(ready, 9);
  }
}
