/** A condition that can be checked from outside the transactions: if no identifier
    of a house is ever used a second time, every transaction has the lock it needs. */
module StructureIdentifiers {
  import opened Common
  import opened Structure
  import opened StructureRuns

  /** The houses that exist or have existed. */
  function Past(trace: seq<World>, i: nat): set<Id>
    requires i < |trace|
  {
    if i == 0 then trace[0].store.houses else Past(trace, i - 1) + trace[i].store.houses
  }

  /** A house that appears in the i-th step was never there before. */
  predicate OnlyNewHouses(trace: seq<World>, i: nat)
    requires 0 < i < |trace|
  {
    Past(trace, i - 1) * trace[i].store.houses <= trace[i - 1].store.houses
  }

  ghost predicate NeverReused(trace: seq<World>) {
    forall i :: 0 < i < |trace| ==> OnlyNewHouses(trace, i)
  }

  /** The house is locked, or it is gone for good. */
  predicate LockedOrGone(past: set<Id>, s: Store, held: set<Id>, house: Id) {
    house in past && (house in held || house !in s.houses)
  }

  /** What a transaction has established about the house that it must lock. */
  predicate Established(past: set<Id>, s: Store, tx: Tx) {
    match tx.job
    case Modify(_, _, _) =>
      (match tx.stage
       case Sourced(_, source) => source in past
       case Locked(_, source, held) => LockedOrGone(past, s, held, source)
       case Confirmed(_, source, held) => source in held
       case Cleared(_, source, held) => source in held
       case Ready(_, source, held) => source in held
       case _ => true)
    case Claim(house, _, _, _) =>
      (match tx.stage
       case Opened => house in past
       case ClaimLocked(held) => LockedOrGone(past, s, held, house)
       case ClaimMatched(_, held) => LockedOrGone(past, s, held, house)
       case ClaimReady(_, held) => house in held
       case _ => true)
    case _ => true
  }

  ghost predicate AllEstablished(past: set<Id>, w: World) {
    w.store.houses <= past && forall k :: k in w.txs ==> Established(past, w.store, w.txs[k])
  }

  /** What one statement learns: a house that is found exists, so it is not gone. */
  lemma AdvanceEstablishes(past: set<Id>, s: Store, tx: Tx, item: Option<Id>)
    requires Constraints(s) && TxOk(s, tx) && s.houses <= past && Established(past, s, tx)
    requires (item.Some? ==> item.value in s.physical) && Next(s, tx, item).Some?
    ensures Established(past, s, Tx(tx.job, Next(s, tx, item).value))
  {
    hide BoundIn, Constraints, Knows;
    if tx.job.Modify? && HouseOf(s, tx.job.kind, tx.job.id).Some? {
      ConstraintsGiveHouses(s, tx.job.kind, tx.job.id);
    }
    if tx.job.Claim? && HouseOf(s, Room, tx.job.room).Some? {
      ConstraintsGiveHouses(s, Room, tx.job.room);
    }
  }

  /** Nothing that is gone comes back, so what was established stays so. */
  lemma EstablishedStays(past: set<Id>, s: Store, s': Store, tx: Tx)
    requires Established(past, s, tx) && forall h :: h in s'.houses && h !in s.houses ==> h !in past
    ensures Established(past + s'.houses, s', tx)
  {
  }

  lemma StepEstablishes(past: set<Id>, w: World, act: Action)
    requires Sound(w) && AllEstablished(past, w) && Possible(w, act)
    requires forall h :: h in Apply(w, act).store.houses && h !in w.store.houses ==> h !in past
    ensures Careful(w, act) && AllEstablished(past + Apply(w, act).store.houses, Apply(w, act))
  {
    hide Constraints, Agree, Knows, Established, Next, Committed, Accepted;
    var w' := Apply(w, act);
    CommitIsCareful(past, w, act);
    forall k | k in w'.txs
      ensures Established(past + w'.store.houses, w'.store, w'.txs[k])
    {
      if k in w.txs && w'.txs[k] == w.txs[k] {
        EstablishedStays(past, w.store, w'.store, w.txs[k]);
      } else if act.Open? {
        OpeningEstablishes(past, w.store, act.job);
      } else {
        assert past + w'.store.houses == past;
        AdvanceEstablishes(past, w.store, w.txs[k], act.item);
      }
    }
  }

  lemma OpeningEstablishes(past: set<Id>, s: Store, job: Job)
    requires s.houses <= past && Admitted(s, job)
    ensures Established(past + s.houses, s, Tx(job, Opened))
  {
  }

  lemma CommitIsCareful(past: set<Id>, w: World, act: Action)
    requires AllEstablished(past, w) && Possible(w, act)
    ensures Careful(w, act)
  {
    hide Accepted;
    if act.Commit? {
      assert Established(past, w.store, w.txs[act.tx]);
    }
  }

  lemma {:induction false} RunEstablishes(trace: seq<World>, acts: seq<Action>, i: nat)
    requires Follows(trace, acts) && trace[0] == BEGIN && NeverReused(trace) && i < |trace|
    ensures Sound(trace[i]) && AllEstablished(Past(trace, i), trace[i])
    ensures forall j :: 0 <= j < i ==> Careful(trace[j], acts[j])
  {
    hide Sound, Apply, Possible, Careful, AllEstablished;
    if i == 0 {
      BeginIsSound();
      BeginIsEstablished();
    } else {
      RunEstablishes(trace, acts, i - 1);
      assert OnlyNewHouses(trace, i);
      StepEstablishes(Past(trace, i - 1), trace[i - 1], acts[i - 1]);
      StepKeepsSound(trace[i - 1], acts[i - 1]);
    }
  }

  lemma BeginIsEstablished()
    ensures AllEstablished(BEGIN.store.houses, BEGIN)
  {
  }

  lemma UniqueIdentifiersFindLocks(trace: seq<World>, acts: seq<Action>)
    requires Follows(trace, acts) && trace[0] == BEGIN && NeverReused(trace)
    ensures LocksFound(trace, acts)
  {
    RunEstablishes(trace, acts, |acts|);
  }

  /** As long as no house is created under an identifier that an earlier house had, a
      claimed device is found in the house it is bound to, in every interleaving. */
  lemma UniqueIdentifiersAgree(trace: seq<World>, acts: seq<Action>, i: nat, device: Id, d: Id)
    requires Follows(trace, acts) && trace[0] == BEGIN && NeverReused(trace) && i < |trace|
    ensures Constraints(trace[i].store) && Agree(trace[i].store)
    ensures BindsDevice(trace[i].store, device, d) ==>
              d == device && trace[i].store.physical[d].house == HouseOf(trace[i].store, Device, device)
  {
    hide LocksFound, Follows, Constraints, Agree;
    UniqueIdentifiersFindLocks(trace, acts);
    BindingAgreesWithTree(trace, acts, i, device, d);
  }
}
