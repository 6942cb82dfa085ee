/** Houses, floors, rooms and devices, and the permanent binding of physical devices
    to a house: the tables, their constraints, and the services on top. */
module Structure {
  import opened Common

  datatype Kind = House | Floor | Room | Device

  datatype Lifecycle = Unprovisioned | Provisioning | Active | Inactive | Revoked

  datatype Physical = Physical(hardwareId: Id, status: Lifecycle, house: Option<Id>, bound: Option<Id>, codeHash: Option<Id>)

  /** Each map leads one level up the tree; `physical` is keyed by device identity. */
  datatype Store = Store(
    houses: set<Id>, floors: map<Id, Id>, rooms: map<Id, Id>, devices: map<Id, Id>, physical: map<Id, Physical>)

  const EMPTY_STORE := Store({}, map[], map[], map[], map[])

  // ----- queries -----

  /** The walk up the tree, as a join over the tables. */
  function HouseOf(s: Store, kind: Kind, id: Id): Option<Id> {
    match kind
    case House => if id in s.houses then Some(id) else None
    case Floor => if id in s.floors then Some(s.floors[id]) else None
    case Room => HouseOfRoom(s, id)
    case Device => if id in s.devices then HouseOfRoom(s, s.devices[id]) else None
  }

  function HouseOfRoom(s: Store, room: Id): Option<Id> {
    if room in s.rooms && s.rooms[room] in s.floors then Some(s.floors[s.rooms[room]]) else None
  }

  /** The device lies inside the house, floor or room, or is the device itself. */
  predicate Within(s: Store, kind: Kind, id: Id, device: Id) {
    device in s.devices &&
    match kind
    case House => HouseOf(s, Device, device) == Some(id)
    case Floor => s.devices[device] in s.rooms && s.rooms[s.devices[device]] == id
    case Room => s.devices[device] == id
    case Device => device == id
  }

  /** Some claimed device is bound inside this part of the tree. */
  predicate BoundIn(s: Store, kind: Kind, id: Id) {
    exists d :: d in s.physical && BoundAt(s, kind, id, d)
  }

  predicate BoundAt(s: Store, kind: Kind, id: Id, d: Id)
    requires d in s.physical
  {
    var p := s.physical[d];
    p.house.Some? &&
    if kind.House? then p.house == Some(id) else p.bound.Some? && Within(s, kind, id, p.bound.value)
  }

  predicate BindsDevice(s: Store, device: Id, d: Id) {
    d in s.physical && s.physical[d].bound == Some(device) && s.physical[d].house.Some?
  }

  // ----- constraints -----

  predicate CheckBinding(d: Id, p: Physical) {
    if p.status.Unprovisioned? then p.house.None? && p.bound.None? && p.codeHash.Some?
    else p.house.Some? && p.bound == Some(d) && p.codeHash.None?
  }

  /** CHECK, UNIQUE and FOREIGN KEY constraints of the five tables. */
  ghost predicate Constraints(s: Store) {
    && (forall f :: f in s.floors ==> s.floors[f] in s.houses)
    && (forall r :: r in s.rooms ==> s.rooms[r] in s.floors)
    && (forall d :: d in s.devices ==> s.devices[d] in s.rooms)
    && (forall d :: d in s.physical ==>
          && CheckBinding(d, s.physical[d])
          && (s.physical[d].house.Some? ==> s.physical[d].house.value in s.houses)
          && (s.physical[d].bound.Some? ==> s.physical[d].bound.value in s.devices))
    && (forall d, e :: d in s.physical && e in s.physical && s.physical[d].hardwareId == s.physical[e].hardwareId ==> d == e)
  }

  /** The whole point: a claimed device is found, by walking up, in the house it is bound to. */
  ghost predicate Agree(s: Store) {
    forall d :: d in s.physical && s.physical[d].house.Some? ==> HouseOf(s, Device, d) == s.physical[d].house
  }

  // ----- writes -----

  function ParentKind(kind: Kind): Kind {
    match kind
    case House => House
    case Floor => House
    case Room => Floor
    case Device => Room
  }

  function Moved(s: Store, kind: Kind, id: Id, parent: Id): Store {
    match kind
    case House => s
    case Floor => s.(floors := s.floors[id := parent])
    case Room => s.(rooms := s.rooms[id := parent])
    case Device => s.(devices := s.devices[id := parent])
  }

  /** ON DELETE CASCADE, level by level. */
  function Cascade(s: Store): Store {
    var floors := map f | f in s.floors && s.floors[f] in s.houses :: s.floors[f];
    var rooms := map r | r in s.rooms && s.rooms[r] in floors :: s.rooms[r];
    var devices := map d | d in s.devices && s.devices[d] in rooms :: s.devices[d];
    Store(s.houses, floors, rooms, devices, s.physical)
  }

  function Deleted(s: Store, kind: Kind, id: Id): Store {
    match kind
    case House => Cascade(s.(houses := s.houses - {id}))
    case Floor => Cascade(s.(floors := s.floors - {id}))
    case Room => Cascade(s.(rooms := s.rooms - {id}))
    case Device => s.(devices := s.devices - {id})
  }

  function Claimed(s: Store, d: Id, house: Id, room: Id): Store
    requires d in s.physical
  {
    s.(devices := s.devices[d := room],
       physical := s.physical[d := s.physical[d].(status := Provisioning, house := Some(house), bound := Some(d), codeHash := None)])
  }

  predicate MayFollow(from: Lifecycle, to: Lifecycle) {
    match from
    case Unprovisioned => false
    case Provisioning => to.Active? || to.Inactive? || to.Revoked?
    case Active => to.Inactive? || to.Revoked?
    case Inactive => to.Active? || to.Revoked?
    case Revoked => false
  }

  // ----- whole transactions, run alone -----

  datatype Change = Keep | Move(parent: Id) | Delete

  ghost predicate FindsHardware(s: Store, hardware: Id, item: Option<Id>) {
    if item.Some? then item.value in s.physical && s.physical[item.value].hardwareId == hardware
    else forall d :: d in s.physical ==> s.physical[d].hardwareId != hardware
  }

  function ClaimOutcome(s: Store, house: Id, item: Option<Id>, code: Id, room: Id): Outcome<Id>
    requires item.Some? ==> item.value in s.physical
  {
    if item.None? then Refused(NotFound)
    else
      var p := s.physical[item.value];
      if p.house.Some? && p.house.value != house then Refused(NotFound)
      else if !p.status.Unprovisioned? then Refused(Conflict)
      else if p.codeHash != Some(code) || HouseOf(s, Room, room) != Some(house) then Refused(NotFound)
      else if item.value in s.devices then Refused(Conflict)
      else Done(item.value)
  }

  function TransitionOutcome(s: Store, house: Id, d: Id, target: Lifecycle): Outcome<()> {
    if d !in s.physical || s.physical[d].house != Some(house) then Refused(NotFound)
    else if s.physical[d].status == target then Done(())
    else if !MayFollow(s.physical[d].status, target) then Refused(Conflict)
    else if HouseOf(s, Device, d).None? then Refused(NotFound)
    else if HouseOf(s, Device, d) != Some(house) then Refused(Conflict)
    else Done(())
  }

  /** The house a move leads to, after the new parent was looked up. */
  function Aim(s: Store, kind: Kind, change: Change): Outcome<Option<Id>> {
    if !change.Move? then Done(None)
    else if HouseOf(s, ParentKind(kind), change.parent).None? then
      Refused(if kind.Device? then NotFound else InvalidReference)
    else Done(HouseOf(s, ParentKind(kind), change.parent))
  }

  predicate Crossing(change: Change, target: Option<Id>, source: Id) {
    change.Delete? || (target.Some? && target.value != source)
  }

  function ChangeOutcome(s: Store, kind: Kind, id: Id, change: Change): Outcome<()> {
    var target := Aim(s, kind, change);
    var source := HouseOf(s, kind, id);
    if target.Refused? then Refused(target.error)
    else if source.None? then Refused(NotFound)
    else if Crossing(change, target.value, source.value) && BoundIn(s, kind, id) then Refused(Conflict)
    else Done(())
  }

  function Changed(s: Store, kind: Kind, id: Id, change: Change): Store {
    match change
    case Keep => s
    case Move(parent) => Moved(s, kind, id, parent)
    case Delete => Deleted(s, kind, id)
  }

  // ----- what the writes do to the tree -----

  lemma ConstraintsGiveHouses(s: Store, kind: Kind, id: Id)
    requires Constraints(s) && HouseOf(s, kind, id).Some?
    ensures HouseOf(s, kind, id).value in s.houses
  {
  }

  /** A device inside an entity is in the house of the entity. */
  lemma InsideSharesHouse(s: Store, kind: Kind, id: Id, d: Id)
    requires Constraints(s) && Within(s, kind, id, d) && HouseOf(s, kind, id).Some?
    ensures HouseOf(s, Device, d) == HouseOf(s, kind, id)
  {
  }

  /** The subtree query, whose joins differ from level to level, finds exactly the
      claimed devices that lie inside. */
  lemma BoundInMeansInside(s: Store, kind: Kind, id: Id)
    requires Constraints(s) && Agree(s)
    ensures BoundIn(s, kind, id) <==> exists d :: d in s.physical && s.physical[d].house.Some? && Within(s, kind, id, d)
  {
    if BoundIn(s, kind, id) {
      var d :| d in s.physical && BoundAt(s, kind, id, d);
      assert s.physical[d].house.Some? && Within(s, kind, id, d);
    }
    if d :| d in s.physical && s.physical[d].house.Some? && Within(s, kind, id, d) {
      assert BoundAt(s, kind, id, d);
    }
  }

  /** Deleting takes away exactly what lies inside, and leaves every other walk alone. */
  lemma DeletionIsLocal(s: Store, kind: Kind, id: Id, d: Id)
    requires Constraints(s) && d in s.devices && !Within(s, kind, id, d)
    ensures HouseOf(Deleted(s, kind, id), Device, d) == HouseOf(s, Device, d)
  {
  }

  lemma MoveIsLocal(s: Store, kind: Kind, id: Id, parent: Id, d: Id)
    requires Constraints(s) && d in s.devices && !Within(s, kind, id, d) && HouseOf(s, kind, id).Some?
    ensures HouseOf(Moved(s, kind, id, parent), Device, d) == HouseOf(s, Device, d)
  {
  }

  lemma MoveTakesInsideAlong(s: Store, kind: Kind, id: Id, parent: Id, d: Id)
    requires Constraints(s) && Within(s, kind, id, d) && kind != House && HouseOf(s, kind, id).Some?
    requires HouseOf(s, ParentKind(kind), parent).Some?
    ensures HouseOf(Moved(s, kind, id, parent), Device, d) == HouseOf(s, ParentKind(kind), parent)
  {
  }

  /** A change that crosses houses, or deletes, never touches a bound device; one that
      stays in its house leaves every walk where it was. */
  lemma ChangeKeepsAgreement(s: Store, kind: Kind, id: Id, change: Change)
    requires Constraints(s) && Agree(s) && ChangeOutcome(s, kind, id, change).Done?
    ensures Agree(Changed(s, kind, id, change))
  {
    forall d | d in s.physical && s.physical[d].house.Some?
      ensures HouseOf(Changed(s, kind, id, change), Device, d) == s.physical[d].house
    {
      BoundDeviceStays(s, kind, id, change, d);
    }
  }

  lemma BoundDeviceStays(s: Store, kind: Kind, id: Id, change: Change, d: Id)
    requires Constraints(s) && Agree(s) && HouseOf(s, kind, id).Some?
    requires d in s.physical && s.physical[d].house.Some?
    requires change.Delete? || (change.Move? && HouseOf(s, ParentKind(kind), change.parent) != HouseOf(s, kind, id)) ==> !BoundIn(s, kind, id)
    requires change.Move? ==> HouseOf(s, ParentKind(kind), change.parent).Some?
    ensures HouseOf(Changed(s, kind, id, change), Device, d) == s.physical[d].house
  {
    hide Deleted, Moved;
    if Within(s, kind, id, d) {
      InsideSharesHouse(s, kind, id, d);
      assert BoundAt(s, kind, id, d);
      if change.Move? && kind != House {
        MoveTakesInsideAlong(s, kind, id, change.parent, d);
      } else if change.Move? {
        assert Moved(s, kind, id, change.parent) == s by { HouseHasNoParent(s, id, change.parent); }
      }
    } else if change.Delete? {
      DeletionIsLocal(s, kind, id, d);
    } else if change.Move? {
      MoveIsLocal(s, kind, id, change.parent, d);
    }
  }

  lemma HouseHasNoParent(s: Store, id: Id, parent: Id)
    ensures Moved(s, House, id, parent) == s
  {
  }

  /** After an allowed change every constraint holds, so the database accepts it. */
  lemma ChangeKeepsConstraints(s: Store, kind: Kind, id: Id, change: Change)
    requires Constraints(s) && Agree(s) && ChangeOutcome(s, kind, id, change).Done?
    ensures Constraints(Changed(s, kind, id, change))
  {
    if change.Delete? {
      forall d | d in s.physical && s.physical[d].house.Some?
        ensures d in Deleted(s, kind, id).devices && s.physical[d].house.value in Deleted(s, kind, id).houses
      {
        BoundDeviceStays(s, kind, id, change, d);
        assert HouseOf(Deleted(s, kind, id), Device, d).Some?;
        assert !BoundAt(s, kind, id, d);
      }
      DeletionKeepsKeys(s, kind, id);
    }
  }

  lemma DeletionKeepsKeys(s: Store, kind: Kind, id: Id)
    requires Constraints(s)
    ensures var s' := Deleted(s, kind, id);
            && s'.physical == s.physical
            && (forall f :: f in s'.floors ==> s'.floors[f] in s'.houses)
            && (forall r :: r in s'.rooms ==> s'.rooms[r] in s'.floors)
            && (forall d :: d in s'.devices ==> s'.devices[d] in s'.rooms)
  {
  }

  lemma ClaimKeepsAgreement(s: Store, house: Id, item: Option<Id>, code: Id, room: Id)
    requires Constraints(s) && Agree(s) && item.Some? && item.value in s.physical
    requires ClaimOutcome(s, house, item, code, room).Done?
    ensures Constraints(Claimed(s, item.value, house, room)) && Agree(Claimed(s, item.value, house, room))
  {
    var s', d := Claimed(s, item.value, house, room), item.value;
    forall e | e in s'.physical && s'.physical[e].house.Some?
      ensures HouseOf(s', Device, e) == s'.physical[e].house
    {
      if e != d {
        assert HouseOf(s, Device, e) == s.physical[e].house;
      }
    }
  }

  // ----- the services -----

  class StructureService {
    var store: Store

    ghost predicate Valid()
      reads this
    {
      Constraints(store) && Agree(store)
    }

    constructor ()
      ensures Valid() && store == EMPTY_STORE
    {
      store := EMPTY_STORE;
    }

    method ByHardware(hardware: Id) returns (item: Option<Id>)
      ensures FindsHardware(store, hardware, item)
    {
      var matching := set d | d in store.physical && store.physical[d].hardwareId == hardware;
      assert forall d :: d in store.physical && store.physical[d].hardwareId == hardware ==> d in matching;
      if matching == {} {
        return None;
      }
      var d :| d in matching;
      return Some(d);
    }

    method RegisterInventory(d: Id, hardware: Id, codeHash: Id) returns (o: Outcome<()>)
      requires Valid()
      modifies this
      ensures Valid()
      ensures o.Done? <==> d !in old(store).devices && d !in old(store).physical && FindsHardware(old(store), hardware, None)
      ensures o.Refused? ==> o.error.Conflict? && store == old(store)
      ensures o.Done? ==> store == old(store).(physical :=
                old(store).physical[d := Physical(hardware, Unprovisioned, None, None, Some(codeHash))])
    {
      if d in store.devices || d in store.physical {
        return Refused(Conflict);
      }
      var twin := ByHardware(hardware);
      if twin.Some? {
        return Refused(Conflict);
      }
      store := store.(physical := store.physical[d := Physical(hardware, Unprovisioned, None, None, Some(codeHash))]);
      return Done(());
    }

    method Claim(house: Id, hardware: Id, code: Id, room: Id) returns (o: Outcome<Id>)
      requires Valid()
      modifies this
      ensures Valid()
      ensures exists item :: FindsHardware(old(store), hardware, item) && o == ClaimOutcome(old(store), house, item, code, room)
      ensures store == if o.Done? then Claimed(old(store), o.value, house, room) else old(store)
    {
      var item := ByHardware(hardware);
      assert FindsHardware(old(store), hardware, item);
      if item.None? {
        return Refused(NotFound);
      }
      var d, p := item.value, store.physical[item.value];
      if p.house.Some? && p.house.value != house {
        return Refused(NotFound);
      }
      if !p.status.Unprovisioned? {
        return Refused(Conflict);
      }
      if p.codeHash != Some(code) {
        return Refused(NotFound);
      }
      if HouseOf(store, Room, room) != Some(house) {
        return Refused(NotFound);
      }
      if d in store.devices {
        return Refused(Conflict);
      }
      ClaimKeepsAgreement(store, house, item, code, room);
      store := store.(devices := store.devices[d := room]);
      store := store.(physical := store.physical[d := p.(house := Some(house), bound := Some(d), codeHash := None, status := Provisioning)]);
      return Done(d);
    }

    method Transition(house: Id, d: Id, target: Lifecycle) returns (o: Outcome<()>)
      requires Valid()
      modifies this
      ensures Valid()
      ensures o == TransitionOutcome(old(store), house, d, target)
      ensures store == if o.Done? then old(store).(physical := old(store).physical[d := old(store).physical[d].(status := target)])
                       else old(store)
    {
      if d !in store.physical || store.physical[d].house != Some(house) {
        return Refused(NotFound);
      }
      var item := store.physical[d];
      if item.status != target {
        if !MayFollow(item.status, target) {
          return Refused(Conflict);
        }
        if HouseOf(store, Device, d).None? {
          return Refused(NotFound);
        }
        if HouseOf(store, Device, d) != Some(house) {
          return Refused(Conflict);
        }
        store := store.(physical := store.physical[d := item.(status := target)]);
        assert HouseOf(store, Device, d) == HouseOf(old(store), Device, d);
      }
      assert forall e :: HouseOf(store, Device, e) == HouseOf(old(store), Device, e);
      return Done(());
    }

    /** Update or delete of a house, floor, room or device. */
    method Modify(kind: Kind, id: Id, change: Change) returns (o: Outcome<()>)
      requires Valid()
      modifies this
      ensures Valid()
      ensures o == ChangeOutcome(old(store), kind, id, change)
      ensures store == if o.Done? then Changed(old(store), kind, id, change) else old(store)
    {
      var target: Option<Id> := None;
      if change.Move? {
        target := HouseOf(store, ParentKind(kind), change.parent);
        if target.None? {
          return Refused(if kind.Device? then NotFound else InvalidReference);
        }
      }
      var source := HouseOf(store, kind, id);
      if source.None? {
        return Refused(NotFound);
      }
      if change.Delete? || (target.Some? && target.value != source.value) {
        if BoundIn(store, kind, id) {
          return Refused(Conflict);
        }
      }
      ChangeKeepsAgreement(store, kind, id, change);
      ChangeKeepsConstraints(store, kind, id, change);
      store := Changed(store, kind, id, change);
      return Done(());
    }

    /** The binding is asked first; the walk is only used for unclaimed devices. */
    method HouseId(device: Id) returns (house: Option<Id>)
      requires Valid()
      ensures house == HouseOf(store, Device, device)
    {
      var binding := set d | d in store.physical && BindsDevice(store, device, d);
      if binding != {} {
        var d :| d in binding;
        assert BindsDevice(store, device, d) && CheckBinding(d, store.physical[d]);
        return store.physical[d].house;
      }
      return HouseOf(store, Device, device);
    }
  }
}
