/** Which provisioning calls succeed, with what rows, and why the others do not. */
module ProvisioningAnswers {
  import opened Common
  import opened S = ProvisioningState
  import opened ProvisioningService

  // ----- the state machine -----

  /** Why a call is rejected, in the order the reasons are looked for. */
  lemma RejectedBecause(s: State, c: Call)
    requires Transition(s, c).Rejected?
    ensures Transition(s, c).failure ==
            if c.now.Naive? then ValueError
            else if c.revision != s.revision then RevisionConflict
            else if c.now.us < s.createdAt then TimePrecedesCreation
            else if s.status in {Connected, Status.Error, Expired, Cancelled} then Terminal
            else if c.now.us >= s.expiresAt && c.event != Expire then Overdue
            else if c.challenge != NoChallenge && c.event != ProofVerified then UnexpectedChallenge
            else if c.errorCode.Some? && c.event != Fail then UnexpectedErrorCode
            else if c.event != ProofVerified then NotAllowed
            else if s.status != Discovered || s.proofConsumed then ProofConsumed
            else if c.challenge == Malformed then ValueError
            else ChallengeMismatch
  {
  }

  /** Whatever calls an attempt gets: its proof counts as consumed from the confirmation
      stage on, and an error code is there exactly in the error state. */
  lemma {:induction false} SnapshotIsConsistent(s: State, calls: seq<Call>)
    requires s.createdAt < s.expiresAt && s.status == Discovered && s.revision == 0 && !s.proofConsumed && s.errorCode == None
    ensures var t := Final(s, calls);
            && (t.status == Discovered ==> !t.proofConsumed)
            && (t.status in {AwaitingConfirmation, Registered, Connected} ==> t.proofConsumed)
            && (t.status == Status.Error <==> t.errorCode.Some?)
    ensures calls != [] && Transition(Final(s, calls[..|calls| - 1]), calls[|calls| - 1]).Next? ==>
              Final(s, calls).errorCode == if calls[|calls| - 1].event == Fail then calls[|calls| - 1].errorCode else None
  {
    if calls != [] {
      SnapshotIsConsistent(s, calls[..|calls| - 1]);
    }
  }

  // ----- reading and expiry -----

  predicate IsOverdue(row: Row, now: int) {
    row.status == Discovered && row.expiresAt <= now
  }

  /** The stored row after any call at this time has looked at it. */
  function Seen(row: Row, now: int): Row {
    if IsOverdue(row, now) then row.(status := Expired, revision := row.revision + 1) else row
  }

  function PublicOf(id: Id, row: Row): PublicStatus {
    PublicStatus(id, row.houseId, row.deviceId, row.roomId, row.status, row.revision, row.expiresAt)
  }

  lemma ExpiredExactlyWhen(t: Sessions, id: Id, now: int)
    requires Constraints(t) && id in t
    ensures ExpireRow(id, t[id], now) == Seen(t[id], now)
  {
    if IsOverdue(t[id], now) {
      ExpiryNeverFails(id, t[id], now);
    }
  }

  /** Everyone with access to its house reads an attempt; the read stores an expiry. */
  lemma GetExactlyWhen(t: Sessions, access: Reply<()>, houseId: Id, id: Id, now: int)
    requires Constraints(t)
    ensures var (t', r) := GetStep(t, access, houseId, id, now);
            && (r.Ok? <==> access.Ok? && id in t && t[id].houseId == houseId)
            && (r.Ok? ==> t' == t[id := Seen(t[id], now)] && r.value == PublicOf(id, Seen(t[id], now)))
            && (r.Raised? ==> t' == t && r.fault == if access.Raised? then access.fault else App(NotFound))
  {
    hide Constraints, ExpireRow;
    if id in t {
      ExpiredExactlyWhen(t, id, now);
    }
  }

  // ----- create -----

  predicate ByKey(row: Row, q: Start) {
    row.houseId == q.houseId && row.actorId == q.actorId && row.createKey == q.key
  }

  /** Room and hardware are as claimed, and the code is the stored one. */
  predicate Proven(q: Start, around: Around) {
    && around.roomHouse == Some(q.houseId)
    && around.item.Some? && around.item.value.unprovisioned
    && q.codeDigest.Some? && around.item.value.codeHash == q.codeDigest
  }

  predicate DeviceIsFree(t: Sessions, deviceId: Id, now: int) {
    forall i :: i in t && t[i].deviceId == deviceId && t[i].status == Discovered ==> t[i].expiresAt <= now
  }

  predicate KeyIsNew(t: Sessions, q: Start) {
    forall i :: i in t ==> !ByKey(t[i], q)
  }

  /** Everything a new attempt needs. */
  predicate Startable(t: Sessions, q: Start, around: Around, draw: Draw) {
    && q.codeDigest.Some? && around.access.Ok? && KeyIsNew(t, q) && Proven(q, around)
    && DeviceIsFree(t, around.item.value.deviceId, around.now) && draw.id !in t
  }

  /** The new attempt lasts 300 s; the overdue one of the device is expired. */
  function Started(t: Sessions, q: Start, around: Around, draw: Draw): Sessions
    requires around.item.Some?
  {
    var d := around.item.value.deviceId;
    (map i | i in t :: if t[i].deviceId == d then Seen(t[i], around.now) else t[i])
      [draw.id := Row(q.houseId, q.roomId, d, q.actorId, q.name, Discovered, 0, around.now, around.now + 300_000_000,
                      draw.challengeHash, draw.tokenHash, q.key, q.bodyHash, None)]
  }

  lemma LooksMean(t: Sessions, q: Start, around: Around, previous: Option<Id>, active: Option<Id>)
    requires Constraints(t) && Finds(t, q, around, previous, active)
    ensures previous.None? <==> KeyIsNew(t, q)
    ensures previous.Some? ==> previous.value in t && ByKey(t[previous.value], q)
    ensures around.item.Some? && active.Some? ==>
              active.value in t && t[active.value].deviceId == around.item.value.deviceId && t[active.value].status == Discovered
    ensures around.item.Some? ==> forall i :: i in t && t[i].deviceId == around.item.value.deviceId && t[i].status == Discovered ==> active == Some(i)
  {
    if previous.None? {
      forall i | i in t
        ensures !ByKey(t[i], q)
      {
        assert !Created(t[i], q);
      }
    }
    if around.item.Some? {
      forall i | i in t && t[i].deviceId == around.item.value.deviceId && t[i].status == Discovered
        ensures active == Some(i)
      {
        assert IsActive(t[i], around.item.value.deviceId);
        if active.Some? {
          assert Clash(t[i], t[active.value]);
        }
      }
    }
  }

  /** A new attempt is made if and only if all of it is there, with exactly this row. */
  lemma StartedExactlyWhen(t: Sessions, q: Start, around: Around, previous: Option<Id>, active: Option<Id>, draw: Draw)
    requires Constraints(t) && Finds(t, q, around, previous, active) && (active.Some? ==> around.item.Some?)
    requires (previous.Some? ==> previous.value in t) && (active.Some? ==> active.value in t)
    ensures var (t', r) := CreateStep(t, q, around, previous, active, draw);
            && (Startable(t, q, around, draw) ==>
                  t' == Started(t, q, around, draw) && r == Ok(PublicOf(draw.id, t'[draw.id])))
            && (!Startable(t, q, around, draw) && KeyIsNew(t, q) ==>
                  && t' == t
                  && r == Raised(if q.codeDigest.None? then App(InvalidReference)
                                 else if around.access.Raised? then around.access.fault
                                 else if !Proven(q, around) then App(NotFound)
                                 else App(Conflict)))
  {
    LooksMean(t, q, around, previous, active);
    if q.codeDigest.Some? && around.access.Ok? && KeyIsNew(t, q) && Proven(q, around) {
      if active.Some? {
        ExpiredExactlyWhen(t, active.value, around.now);
      }
      FreeMeansFits(t, q, around, active, draw);
      hide Constraints, ExpireRow, Finds, Fits, KeyIsNew;
      if Startable(t, q, around, draw) {
        assert Vacated(t, active, around.now) ==
               map i | i in t :: if t[i].deviceId == around.item.value.deviceId then Seen(t[i], around.now) else t[i];
      }
    }
  }

  lemma FreeMeansFits(t: Sessions, q: Start, around: Around, active: Option<Id>, draw: Draw)
    requires Constraints(t) && KeyIsNew(t, q) && around.item.Some? && (active.Some? ==> active.value in t)
    requires active.Some? ==> t[active.value].deviceId == around.item.value.deviceId && t[active.value].status == Discovered
    requires forall i :: i in t && t[i].deviceId == around.item.value.deviceId && t[i].status == Discovered ==> active == Some(i)
    ensures DeviceIsFree(t, around.item.value.deviceId, around.now) ==>
              (Fits(Vacated(t, active, around.now), draw.id, NewRow(q, around.item.value.deviceId, draw, around.now)) <==> draw.id !in t)
    ensures DeviceIsFree(t, around.item.value.deviceId, around.now) <==> (active.Some? ==> IsOverdue(t[active.value], around.now))
  {
    if active.Some? {
      ExpiredExactlyWhen(t, active.value, around.now);
    }
  }

  /** A used key answers its own attempt if the body is the same, and conflicts if not. */
  lemma ReplayedExactlyWhen(t: Sessions, q: Start, around: Around, previous: Option<Id>, active: Option<Id>, draw: Draw)
    requires Constraints(t) && Finds(t, q, around, previous, active) && previous.Some?
    requires previous.value in t && (active.Some? ==> active.value in t) && q.codeDigest.Some? && around.access.Ok?
    ensures var (t', r), i := CreateStep(t, q, around, previous, active, draw), previous.value;
            && ByKey(t[i], q)
            && (t[i].requestHash == q.bodyHash ==> t' == t[i := Seen(t[i], around.now)] && r == Ok(PublicOf(i, Seen(t[i], around.now))))
            && (t[i].requestHash != q.bodyHash ==> t' == t && r == Raised(App(Conflict)))
  {
    ExpiredExactlyWhen(t, previous.value, around.now);
    hide Constraints, ExpireRow;
  }

  // ----- cancel -----

  predicate SameCancel(row: Row, q: Stop) {
    row.cancelled.Some? && row.cancelled.value.keyHash == q.key && row.cancelled.value.actorId == q.actorId
  }

  /** A cancellation succeeds if and only if it is the stored one again, or the attempt
      is open, in time and at the expected revision; then the row is cancelled with this
      mark. Otherwise nothing but an expiry is stored. */
  lemma CancelExactlyWhen(t: Sessions, access: Reply<()>, q: Stop, now: int)
    requires Constraints(t)
    ensures var (t', r) := CancelStep(t, access, q, now);
            var visible := access.Ok? && q.id in t && t[q.id].houseId == q.houseId;
            var again := visible && SameCancel(t[q.id], q);
            var first := visible && !again && t[q.id].status == Discovered && t[q.id].revision == q.revision
                         && t[q.id].createdAt <= now < t[q.id].expiresAt;
            && (r.Ok? <==> first || (again && t[q.id].cancelled.value.revision == q.revision))
            && (first ==>
                  && t' == t[q.id := t[q.id].(status := Cancelled, revision := q.revision + 1,
                                              cancelled := Some(CancelMark(q.key, q.actorId, q.revision)))]
                  && r == Ok(PublicOf(q.id, t'[q.id])))
            && (again && r.Ok? ==> t' == t[q.id := Seen(t[q.id], now)] && r == Ok(PublicOf(q.id, t'[q.id])))
            && (r.Raised? ==>
                  && (t' == t || (visible && !again && t' == t[q.id := Seen(t[q.id], now)]))
                  && r.fault == if access.Raised? then access.fault
                                else if !visible then App(NotFound)
                                else if !again && t[q.id].status == Discovered && t[q.id].revision == q.revision && now < t[q.id].createdAt
                                then StateFailure(TimePrecedesCreation)
                                else App(Conflict))
            && (r.Raised? && visible && !again && IsOverdue(t[q.id], now) ==> t' == t[q.id := Seen(t[q.id], now)])
  {
    if q.id in t {
      ExpiredExactlyWhen(t, q.id, now);
    }
    hide ExpireRow;
  }
}
