/** Concurrent structure changes and claims, statement by statement: every read sees
    what is committed at that moment, and house rows are locked in between. */
module StructureRuns {
  import opened Common
  import opened Structure

  datatype Job =
    | Modify(kind: Kind, id: Id, change: Change)
    | Claim(house: Id, hardware: Id, code: Id, room: Id)
    | Register(device: Id, hardware: Id, code: Id)
    | CreateHouse(house: Id)
    | CreateFloor(floor: Id, house: Id)
    | CreateRoom(room: Id, floor: Id)
    | CreateDevice(device: Id, room: Id)

  /** How far a transaction has come; what it has read or locked so far. */
  datatype Stage =
    | Opened
    | Aimed(target: Option<Id>)                                        // new parent looked up
    | Sourced(target: Option<Id>, source: Id)                          // own house read
    | Locked(target: Option<Id>, source: Id, held: set<Id>)            // house rows locked
    | Confirmed(target: Option<Id>, source: Id, held: set<Id>)         // own house read again
    | Cleared(target: Option<Id>, source: Id, held: set<Id>)           // no binding in the way
    | Ready(target: Option<Id>, source: Id, held: set<Id>)             // new parent's house read again
    | ClaimLocked(held: set<Id>)
    | ClaimMatched(device: Id, held: set<Id>)                          // inventory row and code match
    | ClaimReady(device: Id, held: set<Id>)                            // room is in the house
    | Checked                                                          // unguarded: look-ups passed

  datatype Tx = Tx(job: Job, stage: Stage)

  datatype World = World(store: Store, txs: map<Id, Tx>)

  const BEGIN := World(EMPTY_STORE, map[])

  function Held(t: Stage): set<Id> {
    match t
    case Locked(_, _, held) => held
    case Confirmed(_, _, held) => held
    case Cleared(_, _, held) => held
    case Ready(_, _, held) => held
    case ClaimLocked(held) => held
    case ClaimMatched(_, held) => held
    case ClaimReady(_, held) => held
    case _ => {}
  }

  /** The houses whose rows the next statement locks. */
  function Wanted(tx: Tx): set<Id> {
    if tx.stage.Sourced? then {tx.stage.source, if tx.stage.target.Some? then tx.stage.target.value else tx.stage.source}
    else if tx.stage.Opened? && tx.job.Claim? then {tx.job.house}
    else {}
  }

  /** One statement of a transaction, or None if it raises. A lock statement locks the
      rows that exist: a missing house is not noticed. */
  function Next(s: Store, tx: Tx, item: Option<Id>): Option<Stage>
    requires item.Some? ==> item.value in s.physical
  {
    match tx.job
    case Modify(kind, id, change) =>
      (match tx.stage
       case Opened => if Aim(s, kind, change).Done? then Some(Aimed(Aim(s, kind, change).value)) else None
       case Aimed(target) =>
         if HouseOf(s, kind, id).Some? then Some(Sourced(target, HouseOf(s, kind, id).value)) else None
       case Sourced(target, source) => Some(Locked(target, source, Wanted(tx) * s.houses))
       case Locked(target, source, held) =>
         if HouseOf(s, kind, id) == Some(source) then Some(Confirmed(target, source, held)) else None
       case Confirmed(target, source, held) =>
         if Crossing(change, target, source) && BoundIn(s, kind, id) then None else Some(Cleared(target, source, held))
       case Cleared(target, source, held) =>
         if change.Move? && !kind.Floor? && HouseOf(s, ParentKind(kind), change.parent) != target then None
         else Some(Ready(target, source, held))
       case _ => None)
    case Claim(house, _, code, room) =>
      (match tx.stage
       case Opened => Some(ClaimLocked(Wanted(tx) * s.houses))
       case ClaimLocked(held) =>
         if item.None? then None
         else
           var p := s.physical[item.value];
           if (p.house.Some? && p.house.value != house) || !p.status.Unprovisioned? || p.codeHash != Some(code) then None
           else Some(ClaimMatched(item.value, held))
       case ClaimMatched(device, held) =>
         if HouseOf(s, Room, room) == Some(house) then Some(ClaimReady(device, held)) else None
       case _ => None)
    case Register(device, _, _) => if tx.stage.Opened? && device !in s.devices then Some(Checked) else None
    case CreateHouse(_) => if tx.stage.Opened? then Some(Checked) else None
    case CreateFloor(_, house) => if tx.stage.Opened? && house in s.houses then Some(Checked) else None
    case CreateRoom(_, floor) => if tx.stage.Opened? && floor in s.floors then Some(Checked) else None
    case CreateDevice(device, room) =>
      if tx.stage.Opened? && device !in s.physical && room in s.rooms then Some(Checked) else None
  }

  predicate Finished(t: Stage) {
    t.Ready? || t.ClaimReady? || t.Checked?
  }

  /** The writes of a finished transaction; None if a key or the conditional UPDATE fails. */
  function Written(s: Store, tx: Tx): Option<Store> {
    match tx.job
    case Modify(kind, id, change) => if HouseOf(s, kind, id).Some? then Some(Changed(s, kind, id, change)) else None
    case Claim(house, _, _, room) =>
      if !tx.stage.ClaimReady? then None
      else
        var d := tx.stage.device;
        if d in s.devices || d !in s.physical || !s.physical[d].status.Unprovisioned? || s.physical[d].house.Some? then None
        else Some(Claimed(s, d, house, room))
    case Register(d, hardware, code) =>
      if d in s.physical then None
      else Some(s.(physical := s.physical[d := Physical(hardware, Unprovisioned, None, None, Some(code))]))
    case CreateHouse(h) => if h in s.houses then None else Some(s.(houses := s.houses + {h}))
    case CreateFloor(f, h) => if f in s.floors then None else Some(s.(floors := s.floors[f := h]))
    case CreateRoom(r, f) => if r in s.rooms then None else Some(s.(rooms := s.rooms[r := f]))
    case CreateDevice(d, r) => if d in s.devices then None else Some(s.(devices := s.devices[d := r]))
  }

  /** A commit that would break a constraint is rolled back. */
  ghost function Committed(s: Store, tx: Tx): Store {
    var s' := Written(s, tx);
    if s'.Some? && Constraints(s'.value) then s'.value else s
  }

  /** The database takes the writes. */
  ghost predicate Accepted(s: Store, tx: Tx) {
    Written(s, tx).Some? && Constraints(Written(s, tx).value)
  }

  /** The house rows that the writes delete or refer to; they wait for the lock of any
      other transaction on such a row. */
  function Rows(tx: Tx): set<Id> {
    match tx.job
    case Modify(kind, id, change) =>
      if change.Delete? && kind.House? then {id} else if change.Move? && kind.Floor? then {change.parent} else {}
    case Claim(house, _, _, _) => {house}
    case CreateFloor(_, house) => {house}
    case _ => {}
  }

  /** What authorization asks first: the caller is a member of the houses concerned,
      so they exist, and with them the row that leads to them. */
  predicate Admitted(s: Store, job: Job) {
    match job
    case Modify(kind, id, change) =>
      && HouseOf(s, kind, id).Some?
      && (change.Move? ==> !kind.House? && HouseOf(s, ParentKind(kind), change.parent).Some?)
    case Claim(house, _, _, _) => house in s.houses
    case Register(_, _, _) => true
    case CreateHouse(_) => true
    case CreateFloor(_, house) => house in s.houses
    case CreateRoom(_, floor) => HouseOf(s, Floor, floor).Some?
    case CreateDevice(_, room) => HouseOf(s, Room, room).Some?
  }

  datatype Action =
    | Open(tx: Id, job: Job)
    | Advance(tx: Id, item: Option<Id>)
    | Commit(tx: Id)
    | Abort(tx: Id)
    | SetStatus(house: Id, device: Id, target: Lifecycle)   // reads and writes one locked row

  ghost predicate Possible(w: World, act: Action) {
    match act
    case Open(k, job) => k !in w.txs && Admitted(w.store, job)
    case Advance(k, item) =>
      && k in w.txs && !Finished(w.txs[k].stage)
      && (item.Some? ==> item.value in w.store.physical)
      && (w.txs[k].job.Claim? ==> FindsHardware(w.store, w.txs[k].job.hardware, item))
      && (forall l :: l in w.txs && l != k ==> Held(w.txs[l].stage) !! Wanted(w.txs[k]) * w.store.houses)
    case Commit(k) =>
      && k in w.txs && Finished(w.txs[k].stage)
      && (forall l :: l in w.txs && l != k ==> Held(w.txs[l].stage) !! Rows(w.txs[k]))
    case Abort(k) => k in w.txs
    case SetStatus(_, _, _) => true
  }

  ghost function Apply(w: World, act: Action): World
    requires Possible(w, act)
  {
    match act
    case Open(k, job) => w.(txs := w.txs[k := Tx(job, Opened)])
    case Advance(k, item) =>
      var next := Next(w.store, w.txs[k], item);
      w.(txs := if next.Some? then w.txs[k := Tx(w.txs[k].job, next.value)] else w.txs - {k})
    case Commit(k) => World(Committed(w.store, w.txs[k]), w.txs - {k})
    case Abort(k) => w.(txs := w.txs - {k})
    case SetStatus(house, d, target) =>
      if TransitionOutcome(w.store, house, d, target).Done?
      then w.(store := w.store.(physical := w.store.physical[d := w.store.physical[d].(status := target)]))
      else w
  }

  ghost predicate Follows(trace: seq<World>, acts: seq<Action>) {
    && |trace| == |acts| + 1
    && forall i :: 0 <= i < |acts| ==> Possible(trace[i], acts[i]) && trace[i + 1] == Apply(trace[i], acts[i])
  }

  /** The lock statement found the row of the transaction's own house, or at least the
      house where its entity is now. Deleting a house needs no such care: the write
      itself waits for the row, and foreign keys protect what is bound inside. */
  predicate Guarded(s: Store, tx: Tx) {
    match tx.job
    case Modify(kind, id, change) =>
      || change.Keep? || (change.Delete? && kind.House?)
      || (tx.stage.Ready? ==>
            || tx.stage.source in tx.stage.held
            || (HouseOf(s, kind, id).Some? && HouseOf(s, kind, id).value in tx.stage.held))
    case Claim(house, _, _, _) => tx.stage.ClaimReady? ==> house in tx.stage.held
    case _ => true
  }

  /** No transaction changes the store without the lock it needs. */
  ghost predicate LocksFound(trace: seq<World>, acts: seq<Action>)
    requires Follows(trace, acts)
  {
    forall i :: 0 <= i < |acts| ==> Careful(trace[i], acts[i])
  }

  ghost predicate Careful(w: World, act: Action)
    requires Possible(w, act)
  {
    act.Commit? && Accepted(w.store, w.txs[act.tx]) ==> Guarded(w.store, w.txs[act.tx])
  }

  // ----- the invariant -----

  /** What a transaction knows for as long as it holds the lock of its house. */
  ghost predicate Knows(s: Store, tx: Tx) {
    match tx.job
    case Modify(kind, id, change) =>
      (match tx.stage
       case Confirmed(target, source, held) => source in held ==> HouseOf(s, kind, id) == Some(source)
       case Cleared(target, source, held) => source in held ==> KnowsCleared(s, tx.job, target, source)
       case Ready(target, source, held) =>
         && (source in held ==> KnowsCleared(s, tx.job, target, source))
         && (change.Move? && target.Some? && target.value in held ==> HouseOf(s, ParentKind(kind), change.parent) == target)
       case _ => true)
    case Claim(house, _, _, room) =>
      tx.stage.ClaimReady? && house in tx.stage.held ==> HouseOf(s, Room, room) == Some(house)
    case _ => true
  }

  ghost predicate KnowsCleared(s: Store, job: Job, target: Option<Id>, source: Id)
    requires job.Modify?
  {
    && HouseOf(s, job.kind, job.id) == Some(source)
    && (Crossing(job.change, target, source) ==> !BoundIn(s, job.kind, job.id))
  }

  /** The target is the house of the new parent, for a move, and nothing otherwise. */
  predicate WellAimed(tx: Tx) {
    tx.job.Modify? && (tx.stage.Aimed? || tx.stage.Sourced? || tx.stage.Locked? || tx.stage.Confirmed? || tx.stage.Cleared? || tx.stage.Ready?)
    ==>
      && (tx.job.change.Move? ==> tx.stage.target.Some? && !tx.job.kind.House?)
      && (!tx.job.change.Move? ==> tx.stage.target.None?)
      && (tx.job.change.Move? && tx.job.kind.Floor? ==> tx.stage.target == Some(tx.job.change.parent))
  }

  /** Locked rows are those asked for, and they exist as long as they are locked. */
  predicate WellLocked(s: Store, tx: Tx) {
    && Held(tx.stage) <= s.houses
    && (tx.job.Modify? && (tx.stage.Locked? || tx.stage.Confirmed? || tx.stage.Cleared? || tx.stage.Ready?) ==>
          tx.stage.held <= {tx.stage.source, if tx.stage.target.Some? then tx.stage.target.value else tx.stage.source})
  }

  ghost predicate Exclusive(txs: map<Id, Tx>) {
    forall k, l :: k in txs && l in txs && k != l ==> Held(txs[k].stage) !! Held(txs[l].stage)
  }

  ghost predicate TxOk(s: Store, tx: Tx) {
    && Knows(s, tx) && WellAimed(tx) && WellLocked(s, tx)
    && (tx.job.Modify? ==> !tx.stage.Checked? && !tx.stage.ClaimLocked? && !tx.stage.ClaimMatched? && !tx.stage.ClaimReady?)
    && (tx.stage.Opened? && tx.job.Modify? && tx.job.change.Move? ==> !tx.job.kind.House?)
  }

  ghost predicate Sound(w: World) {
    && Constraints(w.store) && Agree(w.store) && Exclusive(w.txs)
    && forall k :: k in w.txs ==> TxOk(w.store, w.txs[k])
  }

  /** Whatever one house's part of the tree holds is untouched. */
  ghost predicate HouseUntouched(s: Store, s': Store, house: Id) {
    && (forall kind, id :: HouseOf(s, kind, id) == Some(house) ==> HouseOf(s', kind, id) == Some(house))
    && (forall kind, id, d :: HouseOf(s, kind, id) == Some(house) && d in s'.physical && BoundAt(s', kind, id, d)
          ==> d in s.physical && BoundAt(s, kind, id, d))
  }

  lemma UntouchedKeepsKnowledge(s: Store, s': Store, tx: Tx)
    requires Knows(s, tx) && WellLocked(s, tx)
    requires forall house :: house in Held(tx.stage) ==> HouseUntouched(s, s', house)
    ensures Knows(s', tx) && WellLocked(s', tx)
  {
    HeldStays(s, s', tx);
    hide HouseOf, BoundAt;
    if tx.job.Modify? && (tx.stage.Cleared? || tx.stage.Ready?) && tx.stage.source in tx.stage.held {
      var source := tx.stage.source;
      if BoundIn(s', tx.job.kind, tx.job.id) && HouseOf(s, tx.job.kind, tx.job.id) == Some(source) {
        var d :| d in s'.physical && BoundAt(s', tx.job.kind, tx.job.id, d);
        assert BoundAt(s, tx.job.kind, tx.job.id, d);
      }
    }
  }

  lemma HeldStays(s: Store, s': Store, tx: Tx)
    requires Held(tx.stage) <= s.houses
    requires forall house :: house in Held(tx.stage) ==> HouseUntouched(s, s', house)
    ensures Held(tx.stage) <= s'.houses
  {
    forall house | house in Held(tx.stage)
      ensures house in s'.houses
    {
      assert HouseOf(s, House, house) == Some(house);
    }
  }

  // ----- the effect of a commit on other houses -----

  /** What a change may rely on when it commits under the lock of its own house. */
  ghost predicate Cautious(s: Store, kind: Kind, id: Id, change: Change, source: Id) {
    && HouseOf(s, kind, id) == Some(source)
    && (change.Move? ==> !kind.House? && (BoundIn(s, kind, id) ==> HouseOf(s, ParentKind(kind), change.parent) == Some(source)))
  }

  lemma OtherHousesStand(s: Store, kind: Kind, id: Id, change: Change, source: Id, house: Id, kind2: Kind, id2: Id)
    requires Constraints(s) && HouseOf(s, kind, id) == Some(source) && source != house
    requires HouseOf(s, kind2, id2) == Some(house) && (change.Move? ==> !kind.House?)
    ensures HouseOf(Changed(s, kind, id, change), kind2, id2) == Some(house)
  {
  }

  lemma NothingBoundMovesIn(s: Store, kind: Kind, id: Id, change: Change, source: Id, house: Id, kind2: Kind, id2: Id, d: Id)
    requires Constraints(s) && Cautious(s, kind, id, change, source) && source != house
    requires HouseOf(s, kind2, id2) == Some(house)
    requires d in s.physical && BoundAt(Changed(s, kind, id, change), kind2, id2, d)
    ensures BoundAt(s, kind2, id2, d)
  {
    if change.Move? {
      assert s.physical[d].bound.Some? ==> s.physical[d].bound == Some(d);
      if Within(s, kind, id, d) && s.physical[d].house.Some? {
        assert BoundAt(s, kind, id, d);
      }
    }
  }

  lemma ChangeSparesOthers(s: Store, kind: Kind, id: Id, change: Change, source: Id, house: Id)
    requires Constraints(s) && Cautious(s, kind, id, change, source) && source != house
    ensures HouseUntouched(s, Changed(s, kind, id, change), house)
  {
    hide HouseOf, BoundAt, Constraints, Cautious;
    var s' := Changed(s, kind, id, change);
    assert s'.physical == s.physical by { PhysicalKept(s, kind, id, change); }
    assert HouseOf(s, kind, id) == Some(source) && (change.Move? ==> !kind.House?) by { CautiousMeans(s, kind, id, change, source); }
    forall kind2, id2 | HouseOf(s, kind2, id2) == Some(house)
      ensures HouseOf(s', kind2, id2) == Some(house)
    {
      OtherHousesStand(s, kind, id, change, source, house, kind2, id2);
    }
    forall kind2, id2, d | HouseOf(s, kind2, id2) == Some(house) && d in s'.physical && BoundAt(s', kind2, id2, d)
      ensures BoundAt(s, kind2, id2, d)
    {
      NothingBoundMovesIn(s, kind, id, change, source, house, kind2, id2, d);
    }
  }

  lemma PhysicalKept(s: Store, kind: Kind, id: Id, change: Change)
    ensures Changed(s, kind, id, change).physical == s.physical
  {
  }

  lemma CautiousMeans(s: Store, kind: Kind, id: Id, change: Change, source: Id)
    requires Cautious(s, kind, id, change, source)
    ensures HouseOf(s, kind, id) == Some(source) && (change.Move? ==> !kind.House?)
  {
  }

  lemma ClaimSparesOthers(s: Store, d: Id, home: Id, room: Id, house: Id)
    requires Constraints(s) && d in s.physical && d !in s.devices && s.physical[d].house.None?
    requires HouseOf(s, Room, room) == Some(home) && home != house
    ensures HouseUntouched(s, Claimed(s, d, home, room), house)
  {
    var s' := Claimed(s, d, home, room);
    forall kind, id, e | HouseOf(s, kind, id) == Some(house) && e in s'.physical && BoundAt(s', kind, id, e)
      ensures e in s.physical && BoundAt(s, kind, id, e)
    {
      assert s'.physical[e].bound.Some? ==> s'.physical[e].bound == Some(e);
      assert kind.Device? ==> id != d;
    }
  }

  lemma AdditionsKeepWalks(s: Store, tx: Tx, kind: Kind, id: Id)
    requires Constraints(s) && !tx.job.Modify? && !tx.job.Claim? && HouseOf(s, kind, id).Some?
    ensures HouseOf(Committed(s, tx), kind, id) == HouseOf(s, kind, id)
  {
    hide Constraints;
    match kind {
      case House =>
      case Floor =>
      case Room =>
      case Device =>
    }
  }

  lemma WrittenBindsNothing(s: Store, tx: Tx, kind: Kind, id: Id, d: Id)
    requires Constraints(s) && !tx.job.Modify? && !tx.job.Claim? && Written(s, tx).Some? && HouseOf(s, kind, id).Some?
    requires d in Written(s, tx).value.physical && BoundAt(Written(s, tx).value, kind, id, d)
    ensures d in s.physical && BoundAt(s, kind, id, d)
  {
    assert d in s.physical && Written(s, tx).value.physical[d] == s.physical[d];
    match kind {
      case House =>
      case Floor =>
      case Room =>
      case Device =>
    }
  }

  lemma AdditionsBindNothing(s: Store, tx: Tx, kind: Kind, id: Id, d: Id)
    requires Constraints(s) && !tx.job.Modify? && !tx.job.Claim? && HouseOf(s, kind, id).Some?
    requires d in Committed(s, tx).physical && BoundAt(Committed(s, tx), kind, id, d)
    ensures d in s.physical && BoundAt(s, kind, id, d)
  {
    hide Constraints, Written, BoundAt, HouseOf;
    if Committed(s, tx) != s {
      WrittenBindsNothing(s, tx, kind, id, d);
    }
  }

  /** Inventory and new rows never move or bind anything. */
  lemma AdditionsSpareAll(s: Store, tx: Tx, house: Id)
    requires Constraints(s) && !tx.job.Modify? && !tx.job.Claim?
    ensures HouseUntouched(s, Committed(s, tx), house)
    ensures Agree(s) ==> Agree(Committed(s, tx))
  {
    var s' := Committed(s, tx);
    assert forall d :: d in s'.physical && s'.physical[d].house.Some? ==> d in s.physical && s'.physical[d] == s.physical[d];
    hide Constraints, Committed, HouseOf, BoundAt;
    forall kind, id | HouseOf(s, kind, id).Some?
      ensures HouseOf(s', kind, id) == HouseOf(s, kind, id)
    {
      AdditionsKeepWalks(s, tx, kind, id);
    }
    forall kind, id, d | HouseOf(s, kind, id) == Some(house) && d in s'.physical && BoundAt(s', kind, id, d)
      ensures d in s.physical && BoundAt(s, kind, id, d)
    {
      AdditionsBindNothing(s, tx, kind, id, d);
    }
  }

  lemma StatusSparesAll(s: Store, house: Id, d: Id, target: Lifecycle, h: Id)
    requires Constraints(s) && TransitionOutcome(s, house, d, target).Done?
    ensures var s' := s.(physical := s.physical[d := s.physical[d].(status := target)]);
            HouseUntouched(s, s', h) && Constraints(s') && (Agree(s) ==> Agree(s'))
  {
    var s' := s.(physical := s.physical[d := s.physical[d].(status := target)]);
    assert forall kind, id :: HouseOf(s', kind, id) == HouseOf(s, kind, id);
    forall kind, id, e | e in s'.physical && BoundAt(s', kind, id, e)
      ensures BoundAt(s, kind, id, e)
    {
    }
  }

  // ----- the steps -----

  /** Under its lock, what a transaction learnt suffices for its writes. */
  lemma CommitIsCautious(s: Store, tx: Tx)
    requires TxOk(s, tx) && tx.job.Modify? && tx.stage.Ready? && Guarded(s, tx) && HouseOf(s, tx.job.kind, tx.job.id).Some?
    ensures Cautious(s, tx.job.kind, tx.job.id, tx.job.change, HouseOf(s, tx.job.kind, tx.job.id).value)
    ensures tx.job.change.Move? || (tx.job.change.Delete? && !tx.job.kind.House?)
            ==> HouseOf(s, tx.job.kind, tx.job.id).value in Held(tx.stage)
  {
    hide HouseOf, BoundIn;
  }

  lemma CautiousKeepsAgreement(s: Store, kind: Kind, id: Id, change: Change, source: Id)
    requires Constraints(s) && Agree(s) && Cautious(s, kind, id, change, source)
    requires Constraints(Changed(s, kind, id, change))
    ensures Agree(Changed(s, kind, id, change))
  {
    var s' := Changed(s, kind, id, change);
    PhysicalKept(s, kind, id, change);
    forall d | d in s'.physical && s'.physical[d].house.Some?
      ensures HouseOf(s', Device, d) == s'.physical[d].house
    {
      hide Deleted, Moved, BoundAt;
      if Within(s, kind, id, d) {
        InsideSharesHouse(s, kind, id, d);
        assert BoundAt(s, kind, id, d) by { BoundInside(s, kind, id, d); }
        if change.Move? {
          MoveTakesInsideAlong(s, kind, id, change.parent, d);
        }
      } else if change.Delete? {
        DeletionIsLocal(s, kind, id, d);
      } else if change.Move? {
        MoveIsLocal(s, kind, id, change.parent, d);
      }
    }
  }

  lemma BoundInside(s: Store, kind: Kind, id: Id, d: Id)
    requires Constraints(s) && Agree(s) && d in s.physical && s.physical[d].house.Some? && Within(s, kind, id, d)
    ensures BoundAt(s, kind, id, d)
  {
  }

  lemma CommitKeepsStore(s: Store, tx: Tx)
    requires Constraints(s) && Agree(s) && TxOk(s, tx) && Finished(tx.stage) && Accepted(s, tx) && Guarded(s, tx)
    ensures Constraints(Committed(s, tx)) && Agree(Committed(s, tx))
  {
    hide HouseOf, Constraints, Agree, Cautious, Changed, Guarded;
    match tx.job {
      case Modify(kind, id, change) =>
        CommitIsCautious(s, tx);
        CautiousKeepsAgreement(s, kind, id, change, HouseOf(s, kind, id).value);
      case Claim(house, _, _, room) => ClaimCommitAgrees(s, tx);
      case _ => AdditionsSpareAll(s, tx, 0);
    }
  }

  lemma ClaimCommitAgrees(s: Store, tx: Tx)
    requires Constraints(s) && Agree(s) && TxOk(s, tx) && tx.job.Claim? && tx.stage.ClaimReady? && Guarded(s, tx)
    ensures Agree(Committed(s, tx))
  {
    if Written(s, tx).Some? {
      var d, s' := tx.stage.device, Written(s, tx).value;
      forall e | e in s'.physical && s'.physical[e].house.Some?
        ensures HouseOf(s', Device, e) == s'.physical[e].house
      {
        if e != d {
          assert HouseOf(s, Device, e) == s.physical[e].house;
        }
      }
    }
  }

  /** A commit leaves every house alone whose lock somebody else holds. */
  lemma CommitSparesLocked(s: Store, tx: Tx, house: Id)
    requires Constraints(s) && Agree(s) && TxOk(s, tx) && Finished(tx.stage) && Accepted(s, tx) && Guarded(s, tx)
    requires house !in Held(tx.stage) && house !in Rows(tx)
    ensures HouseUntouched(s, Committed(s, tx), house)
  {
    hide HouseOf, Constraints, Agree, Cautious, HouseUntouched, Guarded;
    match tx.job {
      case Modify(kind, id, change) =>
        CommitIsCautious(s, tx);
        if change.Keep? {
          UntouchedReflexive(s, house);
        } else {
          OwnHouse(s, kind, id);
          ChangeSparesOthers(s, kind, id, change, HouseOf(s, kind, id).value, house);
        }
      case Claim(home, _, _, room) =>
        ClaimKnowsRoom(s, tx);
        ClaimSparesOthers(s, tx.stage.device, home, room, house);
      case _ => AdditionsSpareAll(s, tx, house);
    }
  }

  lemma OwnHouse(s: Store, kind: Kind, id: Id)
    ensures kind.House? && HouseOf(s, kind, id).Some? ==> HouseOf(s, kind, id).value == id
  {
  }

  lemma ClaimKnowsRoom(s: Store, tx: Tx)
    requires TxOk(s, tx) && tx.job.Claim? && Finished(tx.stage) && Accepted(s, tx) && Guarded(s, tx)
    ensures tx.stage.ClaimReady? && HouseOf(s, Room, tx.job.room) == Some(tx.job.house) && tx.job.house in Held(tx.stage)
  {
  }

  lemma UntouchedReflexive(s: Store, house: Id)
    ensures HouseUntouched(s, s, house)
  {
  }

  lemma OthersKnow(w: World, k: Id, l: Id)
    requires Sound(w) && Possible(w, Commit(k)) && l in w.txs && k != l
    requires Accepted(w.store, w.txs[k]) && Guarded(w.store, w.txs[k])
    ensures forall house :: house in Held(w.txs[l].stage) ==> HouseUntouched(w.store, Committed(w.store, w.txs[k]), house)
    ensures TxOk(Committed(w.store, w.txs[k]), w.txs[l])
  {
    hide HouseUntouched, Committed, Constraints, Agree, Knows, WellLocked, Guarded, Accepted, Written, HouseOf;
    var s, tx := w.store, w.txs[l];
    assert TxOk(s, tx) && TxOk(s, w.txs[k]);
    forall house | house in Held(tx.stage)
      ensures HouseUntouched(s, Committed(s, w.txs[k]), house)
    {
      CommitSparesLocked(s, w.txs[k], house);
    }
    UntouchedKeepsKnowledge(s, Committed(s, w.txs[k]), tx);
  }

  lemma CommitKeepsSound(w: World, k: Id)
    requires Sound(w) && Possible(w, Commit(k)) && Careful(w, Commit(k))
    ensures Sound(Apply(w, Commit(k)))
  {
    hide Constraints, Agree, TxOk, Written, Guarded;
    if Accepted(w.store, w.txs[k]) {
      CommitKeepsStore(w.store, w.txs[k]);
      forall l | l in w.txs && l != k
        ensures TxOk(Committed(w.store, w.txs[k]), w.txs[l])
      {
        OthersKnow(w, k, l);
      }
    }
  }

  lemma AdvanceLearns(s: Store, tx: Tx, item: Option<Id>)
    requires Constraints(s) && TxOk(s, tx) && (item.Some? ==> item.value in s.physical)
    requires Next(s, tx, item).Some?
    ensures TxOk(s, Tx(tx.job, Next(s, tx, item).value))
  {
    hide BoundIn;
  }

  lemma AdvanceLocks(s: Store, tx: Tx, item: Option<Id>)
    requires (item.Some? ==> item.value in s.physical) && Next(s, tx, item).Some?
    ensures Held(Next(s, tx, item).value) == Held(tx.stage) + Wanted(tx) * s.houses
  {
    hide BoundIn, HouseOf;
  }

  lemma AdvanceKeepsSound(w: World, k: Id, item: Option<Id>)
    requires Sound(w) && Possible(w, Advance(k, item))
    ensures Sound(Apply(w, Advance(k, item)))
  {
    hide Constraints, Agree, TxOk, Next;
    var w' := Apply(w, Advance(k, item));
    if Next(w.store, w.txs[k], item).Some? {
      AdvanceLearns(w.store, w.txs[k], item);
      AdvanceLocks(w.store, w.txs[k], item);
    }
  }

  lemma StatusKeepsSound(w: World, house: Id, d: Id, target: Lifecycle)
    requires Sound(w)
    ensures Sound(Apply(w, SetStatus(house, d, target)))
  {
    hide Constraints, Agree, TransitionOutcome, HouseUntouched, Knows, WellLocked;
    var w' := Apply(w, SetStatus(house, d, target));
    if TransitionOutcome(w.store, house, d, target).Done? {
      assert d in w.store.physical by { TransitionKnown(w.store, house, d, target); }
      StatusSparesAll(w.store, house, d, target, 0);
      forall k | k in w.txs
        ensures TxOk(w'.store, w.txs[k])
      {
        var tx := w.txs[k];
        assert TxOk(w.store, tx);
        forall h | h in Held(tx.stage)
          ensures HouseUntouched(w.store, w'.store, h)
        {
          StatusSparesAll(w.store, house, d, target, h);
        }
        UntouchedKeepsKnowledge(w.store, w'.store, tx);
      }
    }
  }

  lemma TransitionKnown(s: Store, house: Id, d: Id, target: Lifecycle)
    requires TransitionOutcome(s, house, d, target).Done?
    ensures d in s.physical
  {
  }

  lemma StepKeepsSound(w: World, act: Action)
    requires Sound(w) && Possible(w, act) && Careful(w, act)
    ensures Sound(Apply(w, act))
  {
    match act {
      case Open(_, _) => OpenKeepsSound(w, act);
      case Advance(k, item) => AdvanceKeepsSound(w, k, item);
      case Commit(k) => CommitKeepsSound(w, k);
      case Abort(_) => OpenKeepsSound(w, act);
      case SetStatus(house, d, target) => StatusKeepsSound(w, house, d, target);
    }
  }

  lemma OpenKeepsSound(w: World, act: Action)
    requires Sound(w) && Possible(w, act) && (act.Open? || act.Abort?)
    ensures Sound(Apply(w, act))
  {
    hide Constraints, Agree;
  }

  // ----- the theorems -----

  lemma {:induction false} RunIsSound(trace: seq<World>, acts: seq<Action>, i: nat)
    requires Follows(trace, acts) && Sound(trace[0]) && LocksFound(trace, acts) && i < |trace|
    ensures Sound(trace[i])
  {
    hide Sound, Apply, Possible, Careful;
    if i > 0 {
      RunIsSound(trace, acts, i - 1);
      StepKeepsSound(trace[i - 1], acts[i - 1]);
    }
  }

  lemma BeginIsSound()
    ensures Sound(BEGIN)
  {
  }

  /** In every interleaving of registrations, claims, lifecycle changes and creations,
      moves and deletions of anything in the tree, a claimed device is found in the
      house it is bound to, so asking the binding first gives what the walk gives,
      provided that no accepted commit lacks the lock it needs. StructureLocks shows
      that each such lock is needed, StructureIdentifiers that all are found if no
      identifier of a house is used twice. */
  lemma BindingAgreesWithTree(trace: seq<World>, acts: seq<Action>, i: nat, device: Id, d: Id)
    requires Follows(trace, acts) && trace[0] == BEGIN && LocksFound(trace, acts) && i < |trace|
    ensures Constraints(trace[i].store) && Agree(trace[i].store)
    ensures BindsDevice(trace[i].store, device, d) ==>
              d == device && trace[i].store.physical[d].house == HouseOf(trace[i].store, Device, device)
  {
    hide LocksFound, Follows;
    BeginIsSound();
    RunIsSound(trace, acts, i);
    if BindsDevice(trace[i].store, device, d) {
      assert CheckBinding(d, trace[i].store.physical[d]);
    }
  }

  /** Inventory rows are never removed; a binding, once made, is kept for ever; every
      status change is a legal one, and revoked is final. */
  predicate LifecycleStep(p: Physical, p': Physical) {
    && p'.hardwareId == p.hardwareId
    && (p.house.Some? ==> p'.house == p.house && p'.bound == p.bound)
    && (p'.status == p.status || MayFollow(p.status, p'.status) || (p.status.Unprovisioned? && p'.status.Provisioning?))
  }

  lemma CommitIsLegal(s: Store, tx: Tx, d: Id)
    requires d in s.physical
    ensures d in Committed(s, tx).physical && LifecycleStep(s.physical[d], Committed(s, tx).physical[d])
  {
    hide Constraints, HouseOf, Changed;
    if tx.job.Modify? {
      PhysicalKept(s, tx.job.kind, tx.job.id, tx.job.change);
    }
  }

  lemma StepIsLegal(w: World, act: Action, d: Id)
    requires Possible(w, act) && d in w.store.physical
    ensures d in Apply(w, act).store.physical && LifecycleStep(w.store.physical[d], Apply(w, act).store.physical[d])
  {
    hide Committed, HouseOf, BoundIn, FindsHardware;
    if act.Commit? {
      CommitIsLegal(w.store, w.txs[act.tx], d);
    }
  }

  lemma {:induction false} BindingIsPermanent(trace: seq<World>, acts: seq<Action>, i: nat, j: nat, d: Id)
    requires Follows(trace, acts) && i <= j < |trace| && d in trace[i].store.physical
    ensures d in trace[j].store.physical
    ensures var p, p' := trace[i].store.physical[d], trace[j].store.physical[d];
            && p'.hardwareId == p.hardwareId
            && (p.house.Some? ==> p'.house == p.house && p'.bound == p.bound)
            && (p.status.Revoked? ==> p'.status.Revoked?)
            && (!p.status.Unprovisioned? ==> !p'.status.Unprovisioned?)
    decreases j - i
  {
    hide Possible, Apply;
    if i < j {
      BindingIsPermanent(trace, acts, i, j - 1, d);
      StepIsLegal(trace[j - 1], acts[j - 1], d);
    }
  }
}
