/** When exactly the structure services say yes, what they write, and which lifecycle
    states a claimed device can reach. */
module StructureAnswers {
  import opened Common
  import opened Structure
  import opened StructureRuns

  // ----- lifecycle -----

  /** The seven legal changes of the lifecycle. */
  predicate LegalChange(from: Lifecycle, to: Lifecycle) {
    || (from == Provisioning && to == Active)
    || (from == Provisioning && to == Inactive)
    || (from == Provisioning && to == Revoked)
    || (from == Active && to == Inactive)
    || (from == Active && to == Revoked)
    || (from == Inactive && to == Active)
    || (from == Inactive && to == Revoked)
  }

  lemma TransitionExactlyWhen(s: Store, house: Id, d: Id, target: Lifecycle)
    requires Constraints(s) && Agree(s)
    ensures var o, known := TransitionOutcome(s, house, d, target), d in s.physical && s.physical[d].house == Some(house);
            && (o.Done? <==> known && (s.physical[d].status == target || LegalChange(s.physical[d].status, target)))
            && (o.Refused? ==> o.error == if known then Conflict else NotFound)
  {
    if d in s.physical && s.physical[d].house.Some? {
      assert HouseOf(s, Device, d) == s.physical[d].house;
    }
  }

  /** In every sound world each legal change can happen at once, whatever transactions
      are under way. */
  lemma LegalChangeCanHappen(w: World, d: Id, target: Lifecycle)
    requires Sound(w) && d in w.store.physical && LegalChange(w.store.physical[d].status, target)
    ensures w.store.physical[d].house.Some?
    ensures var act := SetStatus(w.store.physical[d].house.value, d, target);
            && Possible(w, act)
            && Apply(w, act).store == w.store.(physical := w.store.physical[d := w.store.physical[d].(status := target)])
            && Apply(w, act).txs == w.txs
  {
    hide HouseOf, TransitionOutcome, Agree, TxOk;
    assert CheckBinding(d, w.store.physical[d]);
    TransitionExactlyWhen(w.store, w.store.physical[d].house.value, d, target);
  }

  /** So a device in provisioning can become active or inactive, and every claimed
      device that is not revoked can be. */
  lemma ProvisioningCanGoOn(w: World, d: Id)
    requires Sound(w) && d in w.store.physical && w.store.physical[d].house.Some?
    ensures var p := w.store.physical[d];
            && (p.status == Provisioning ==> forall target :: target in {Active, Inactive, Revoked} ==>
                  Apply(w, SetStatus(p.house.value, d, target)).store.physical[d].status == target)
            && (p.status != Revoked ==> Apply(w, SetStatus(p.house.value, d, Revoked)).store.physical[d].status == Revoked)
  {
    hide Sound, HouseOf, TransitionOutcome, Apply;
    ClaimedIsProvisioned(w, d);
    forall target | LegalChange(w.store.physical[d].status, target)
      ensures var w' := Apply(w, SetStatus(w.store.physical[d].house.value, d, target));
              d in w'.store.physical && w'.store.physical[d].status == target
    {
      LegalChangeCanHappen(w, d, target);
    }
  }

  lemma ClaimedIsProvisioned(w: World, d: Id)
    requires Sound(w) && d in w.store.physical && w.store.physical[d].house.Some?
    ensures w.store.physical[d].status != Unprovisioned
  {
    hide HouseOf, Agree, TxOk;
    assert CheckBinding(d, w.store.physical[d]);
  }

  /** The inventory in every sound world: an unclaimed row has its code and no binding, a
      claimed one is bound to a house and to the device of its own identity. */
  lemma InventoryRowsAre(w: World, d: Id)
    requires Sound(w) && d in w.store.physical
    ensures var p := w.store.physical[d];
            if p.status == Unprovisioned then p.house == None && p.bound == None && p.codeHash.Some?
            else p.house.Some? && p.bound == Some(d) && p.codeHash == None
  {
    hide HouseOf, Agree, TxOk;
    assert CheckBinding(d, w.store.physical[d]);
  }

  /** No way back: a claimed device is never unprovisioned again, and one that left
      provisioning never returns to it. */
  lemma {:induction false} NoWayBack(trace: seq<World>, acts: seq<Action>, i: nat, j: nat, d: Id)
    requires Follows(trace, acts) && i <= j < |trace| && d in trace[i].store.physical
    ensures d in trace[j].store.physical
    ensures trace[i].store.physical[d].status != Unprovisioned ==> trace[j].store.physical[d].status != Unprovisioned
    ensures trace[i].store.physical[d].status in {Active, Inactive, Revoked} ==>
              trace[j].store.physical[d].status in {Active, Inactive, Revoked}
    decreases j - i
  {
    hide Possible, Apply;
    if i < j {
      NoWayBack(trace, acts, i, j - 1, d);
      StepIsLegal(trace[j - 1], acts[j - 1], d);
    }
  }

  // ----- claims -----

  /** A claim is accepted if and only if the hardware is in the inventory, unclaimed,
      the code is right, the room is in the house and no device has the identity. */
  lemma ClaimExactlyWhen(s: Store, house: Id, hardware: Id, item: Option<Id>, code: Id, room: Id)
    requires Constraints(s) && FindsHardware(s, hardware, item)
    ensures var o := ClaimOutcome(s, house, item, code, room);
            && (o.Done? <==>
                  exists d :: d in s.physical && s.physical[d].hardwareId == hardware && s.physical[d].status == Unprovisioned
                    && s.physical[d].codeHash == Some(code) && HouseOf(s, Room, room) == Some(house) && d !in s.devices)
            && (o.Done? ==> o.value in s.physical && s.physical[o.value].hardwareId == hardware)
            && (o.Refused? ==>
                  o.error == if item.None? then NotFound
                             else
                               var p := s.physical[item.value];
                               if p.status != Unprovisioned then (if p.house == Some(house) then Conflict else NotFound)
                               else if p.codeHash != Some(code) || HouseOf(s, Room, room) != Some(house) then NotFound
                               else Conflict)
  {
    hide HouseOf;
    forall d | d in s.physical && s.physical[d].hardwareId == hardware
      ensures item == Some(d)
    {
    }
    if item.Some? {
      assert CheckBinding(item.value, s.physical[item.value]);
    }
  }

  /** The claimed device hangs in the room, its inventory row names the house and itself,
      is in provisioning, and its code is used up; nothing else changes. */
  lemma ClaimWrites(s: Store, d: Id, house: Id, room: Id)
    requires d in s.physical
    ensures Claimed(s, d, house, room) ==
            Store(s.houses, s.floors, s.rooms, s.devices[d := room],
                  s.physical[d := Physical(s.physical[d].hardwareId, Provisioning, Some(house), Some(d), None)])
  {
  }

  // ----- moves and deletions -----

  /** A change is accepted if and only if entity and new parent exist and, where it
      leaves its house or deletes, nothing inside is bound. */
  lemma ChangeExactlyWhen(s: Store, kind: Kind, id: Id, change: Change)
    ensures var o, source := ChangeOutcome(s, kind, id, change), HouseOf(s, kind, id);
            var lost := change.Move? && HouseOf(s, ParentKind(kind), change.parent).None?;
            var leaves := change.Delete? || (change.Move? && HouseOf(s, ParentKind(kind), change.parent) != source);
            && (o.Done? <==> !lost && source.Some? && !(leaves && BoundIn(s, kind, id)))
            && (o.Refused? ==> o.error == if lost then (if kind.Device? then NotFound else InvalidReference)
                                          else if source.None? then NotFound else Conflict)
  {
    hide HouseOf, BoundIn;
  }

  /** A moved entity hangs under its new parent; everything else stays where it was. */
  lemma MoveWrites(s: Store, kind: Kind, id: Id, parent: Id)
    ensures var s' := Changed(s, kind, id, Move(parent));
            && s'.houses == s.houses && s'.physical == s.physical
            && s'.floors == (if kind.Floor? then s.floors[id := parent] else s.floors)
            && s'.rooms == (if kind.Room? then s.rooms[id := parent] else s.rooms)
            && s'.devices == (if kind.Device? then s.devices[id := parent] else s.devices)
  {
  }

  /** The floor or room is the deleted entity or hangs in it. */
  predicate FloorInside(s: Store, kind: Kind, id: Id, floor: Id) {
    floor in s.floors && ((kind.Floor? && floor == id) || (kind.House? && s.floors[floor] == id))
  }

  predicate RoomInside(s: Store, kind: Kind, id: Id, room: Id) {
    room in s.rooms && ((kind.Room? && room == id) || FloorInside(s, kind, id, s.rooms[room]))
  }

  /** A deletion removes the entity and exactly what hangs in it, level by level. */
  lemma DeletionWrites(s: Store, kind: Kind, id: Id)
    requires Constraints(s)
    ensures var s' := Changed(s, kind, id, Delete);
            && s'.physical == s.physical && s'.houses == (if kind.House? then s.houses - {id} else s.houses)
            && s'.floors == (map f | f in s.floors && !FloorInside(s, kind, id, f) :: s.floors[f])
            && s'.rooms == (map r | r in s.rooms && !RoomInside(s, kind, id, r) :: s.rooms[r])
            && s'.devices == (map d | d in s.devices && !((kind.Device? && d == id) || RoomInside(s, kind, id, s.devices[d])) :: s.devices[d])
  {
  }

  // ----- the same transactions, statement by statement -----

  /** The next n statements of a transaction that nobody interrupts. */
  function Uninterrupted(s: Store, tx: Tx, item: Option<Id>, n: nat): Option<Stage>
    requires item.Some? ==> item.value in s.physical
    decreases n
  {
    if n == 0 then Some(tx.stage)
    else
      var next := Next(s, tx, item);
      if next.None? then None else Uninterrupted(s, Tx(tx.job, next.value), item, n - 1)
  }

  /** Left alone, a claim goes through its three statements and writes exactly as the
      service does, and is refused where the service refuses. */
  lemma ClaimAloneIsService(s: Store, house: Id, hardware: Id, item: Option<Id>, code: Id, room: Id)
    requires Constraints(s) && FindsHardware(s, hardware, item)
    ensures var job := Job.Claim(house, hardware, code, room);
            var stage := Uninterrupted(s, Tx(job, Opened), item, 3);
            && (stage.Some? && Written(s, Tx(job, stage.value)).Some? <==> ClaimOutcome(s, house, item, code, room).Done?)
            && (ClaimOutcome(s, house, item, code, room).Done? ==>
                  && stage == Some(ClaimReady(item.value, {house} * s.houses))
                  && Written(s, Tx(job, stage.value)) == Some(Claimed(s, item.value, house, room)))
  {
    hide HouseOf;
    var job := Job.Claim(house, hardware, code, room);
    var held := {house} * s.houses;
    OneMoreWith(s, Tx(job, Opened), item, ClaimLocked(held), 2);
    if item.Some? {
      assert CheckBinding(item.value, s.physical[item.value]);
      var p := s.physical[item.value];
      if p.status.Unprovisioned? && p.codeHash == Some(code) {
        OneMoreWith(s, Tx(job, ClaimLocked(held)), item, ClaimMatched(item.value, held), 1);
        if HouseOf(s, Room, room) == Some(house) {
          OneMoreWith(s, Tx(job, ClaimMatched(item.value, held)), item, ClaimReady(item.value, held), 0);
        }
      }
    }
  }

  lemma OneMoreWith(s: Store, tx: Tx, item: Option<Id>, stage: Stage, n: nat)
    requires (item.Some? ==> item.value in s.physical) && Next(s, tx, item) == Some(stage)
    ensures Uninterrupted(s, tx, item, n + 1) == Uninterrupted(s, Tx(tx.job, stage), item, n)
  {
  }

  /** Left alone, a move or deletion goes through its six statements and writes exactly
      as the service does, and is refused where the service refuses. */
  lemma ChangeAloneIsService(s: Store, kind: Kind, id: Id, change: Change)
    requires Constraints(s)
    ensures var job := Job.Modify(kind, id, change);
            var stage := Uninterrupted(s, Tx(job, Opened), None, 6);
            && (stage.Some? <==> ChangeOutcome(s, kind, id, change).Done?)
            && (stage.Some? ==> Finished(stage.value) && Written(s, Tx(job, stage.value)) == Some(Changed(s, kind, id, change)))
  {
    hide HouseOf, BoundIn, Changed, Wanted;
    var job := Job.Modify(kind, id, change);
    var source := HouseOf(s, kind, id);
    if Aim(s, kind, change).Done? && source.Some? {
      var target := Aim(s, kind, change).value;
      var held := Wanted(Tx(job, Sourced(target, source.value))) * s.houses;
      OneMoreWith(s, Tx(job, Opened), None, Aimed(target), 5);
      OneMoreWith(s, Tx(job, Aimed(target)), None, Sourced(target, source.value), 4);
      OneMoreWith(s, Tx(job, Sourced(target, source.value)), None, Locked(target, source.value, held), 3);
      OneMoreWith(s, Tx(job, Locked(target, source.value, held)), None, Confirmed(target, source.value, held), 2);
      if !(Crossing(change, target, source.value) && BoundIn(s, kind, id)) {
        FloorsHangInHouses(s, kind, change);
        OneMoreWith(s, Tx(job, Confirmed(target, source.value, held)), None, Cleared(target, source.value, held), 1);
        OneMoreWith(s, Tx(job, Cleared(target, source.value, held)), None, Ready(target, source.value, held), 0);
      }
    } else if Aim(s, kind, change).Done? {
      OneMoreWith(s, Tx(job, Opened), None, Aimed(Aim(s, kind, change).value), 5);
    }
  }

  lemma FloorsHangInHouses(s: Store, kind: Kind, change: Change)
    requires Aim(s, kind, change).Done?
    ensures change.Move? ==> HouseOf(s, ParentKind(kind), change.parent) == Aim(s, kind, change).value
  {
  }

  /** What has no lock is checked by one look-up before and by the keys of the tables:
      inventory and device identities exclude each other, and parents exist. */
  lemma CreationExactlyWhen(s: Store, job: Job)
    requires !job.Claim? && !job.Modify?
    ensures var stage := Next(s, Tx(job, Opened), None);
            && (stage.None? || stage == Some(Checked))
            && (stage.Some? && Written(s, Tx(job, Checked)).Some? <==>
                  match job
                  case Register(d, _, _) => d !in s.devices && d !in s.physical
                  case CreateHouse(h) => h !in s.houses
                  case CreateFloor(f, h) => f !in s.floors && h in s.houses
                  case CreateRoom(r, f) => r !in s.rooms && f in s.floors
                  case CreateDevice(d, r) => d !in s.devices && d !in s.physical && r in s.rooms
                  case _ => false)
  {
  }

  /** A registered device is unclaimed and has its code. */
  lemma RegistrationWrites(s: Store, d: Id, hardware: Id, code: Id)
    requires d !in s.physical
    ensures Written(s, Tx(Register(d, hardware, code), Checked))
         == Some(s.(physical := s.physical[d := Physical(hardware, Unprovisioned, None, None, Some(code))]))
  {
  }
}
