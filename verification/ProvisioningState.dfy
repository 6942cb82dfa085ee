/** One provisioning attempt as an immutable snapshot, and the events it accepts. */
module ProvisioningState {
  import opened Common

  datatype Status = Discovered | AwaitingConfirmation | Registered | Connected | Error | Expired | Cancelled

  datatype Event = ProofVerified | Confirm | Connect | Fail | Cancel | Expire

  datatype Moment = Aware(us: int) | Naive(us: int)

  /** What is presented as a challenge: nothing, something of the wrong format, or a
      well-formed challenge with its digest. */
  datatype Challenge = NoChallenge | Malformed | Presented(digest: Id)

  datatype Failure = RevisionConflict | TimePrecedesCreation | Terminal | Overdue | UnexpectedChallenge
                   | UnexpectedErrorCode | ProofConsumed | ChallengeMismatch | NotAllowed | ValueError

  datatype State = State(
    sessionId: Id, houseId: Id, deviceId: Id, roomId: Id, createdAt: int, expiresAt: int, challengeHash: Id,
    status: Status, revision: nat, proofConsumed: bool, errorCode: Option<Id>)

  datatype Moved = Next(state: State) | Rejected(failure: Failure)

  predicate IsTerminal(s: Status) {
    s.Connected? || s.Error? || s.Expired? || s.Cancelled?
  }

  /** What the constructor of a snapshot insists on. */
  predicate Valid(s: State) {
    && s.createdAt < s.expiresAt
    && (s.status.Discovered? ==> !s.proofConsumed)
    && (s.status.AwaitingConfirmation? || s.status.Registered? || s.status.Connected? ==> s.proofConsumed)
    && (s.status.Error? <==> s.errorCode.Some?)
  }

  /** A call of `transition`; the revision is what the caller expects. */
  datatype Call = Call(event: Event, revision: int, now: Moment, challenge: Challenge, errorCode: Option<Id>)

  function Target(s: State, c: Call): Option<Status>
    requires c.now.Aware?
  {
    match c.event
    case ProofVerified => if s.status.Discovered? then Some(AwaitingConfirmation) else None
    case Confirm => if s.status.AwaitingConfirmation? then Some(Registered) else None
    case Connect => if s.status.Registered? then Some(Connected) else None
    case Cancel => Some(Cancelled)
    case Fail => if c.errorCode.Some? then Some(Error) else None
    case Expire => if c.now.us >= s.expiresAt then Some(Expired) else None
  }

  function Transition(s: State, c: Call): Moved {
    if c.now.Naive? then Rejected(ValueError)
    else if c.revision != s.revision then Rejected(RevisionConflict)
    else if c.now.us < s.createdAt then Rejected(TimePrecedesCreation)
    else if IsTerminal(s.status) then Rejected(Terminal)
    else if c.now.us >= s.expiresAt && !c.event.Expire? then Rejected(Overdue)
    else if !c.challenge.NoChallenge? && !c.event.ProofVerified? then Rejected(UnexpectedChallenge)
    else if c.errorCode.Some? && !c.event.Fail? then Rejected(UnexpectedErrorCode)
    else if c.event.ProofVerified? && (!s.status.Discovered? || s.proofConsumed) then Rejected(ProofConsumed)
    else if c.event.ProofVerified? && c.challenge.Malformed? then Rejected(ValueError)
    else if c.event.ProofVerified? && c.challenge != Presented(s.challengeHash) then Rejected(ChallengeMismatch)
    else if Target(s, c).None? then Rejected(NotAllowed)
    else Next(s.(status := Target(s, c).value, revision := s.revision + 1,
                 proofConsumed := s.proofConsumed || c.event.ProofVerified?, errorCode := c.errorCode))
  }

  // ----- runs -----

  predicate Fresh(s: State) {
    Valid(s) && s.status.Discovered? && s.revision == 0
  }

  /** The snapshot after all calls, rejected ones leaving it as it is. */
  function Final(s: State, calls: seq<Call>): State {
    if calls == [] then s
    else
      var pre := Final(s, calls[..|calls| - 1]);
      var moved := Transition(pre, calls[|calls| - 1]);
      if moved.Next? then moved.state else pre
  }

  /** The calls that were accepted, in order. */
  function Accepted(s: State, calls: seq<Call>): seq<Call> {
    if calls == [] then []
    else
      var c := calls[|calls| - 1];
      Accepted(s, calls[..|calls| - 1]) + (if Transition(Final(s, calls[..|calls| - 1]), c).Next? then [c] else [])
  }

  /** An attempt succeeds in three steps, in this order, or is ended once on the way. */
  predicate Forward(i: nat, e: Event) {
    (i == 0 && e.ProofVerified?) || (i == 1 && e.Confirm?) || (i == 2 && e.Connect?)
  }

  predicate Ends(e: Event) {
    e.Cancel? || e.Fail? || e.Expire?
  }

  ghost predicate LegalStory(story: seq<Call>) {
    && |story| <= 3
    && forall i :: 0 <= i < |story| ==> Forward(i, story[i].event) || (Ends(story[i].event) && i == |story| - 1)
  }

  function StatusAfter(story: seq<Call>): Status {
    if story == [] then Discovered
    else
      match story[|story| - 1].event
      case ProofVerified => AwaitingConfirmation
      case Confirm => Registered
      case Connect => Connected
      case Cancel => Cancelled
      case Fail => Error
      case Expire => Expired
  }

  /** Every accepted call came with the right revision, in time, and with its evidence. */
  predicate InOrder(s: State, i: nat, c: Call) {
    && c.revision == i && c.now.Aware? && s.createdAt <= c.now.us
    && (c.event.Expire? <==> c.now.us >= s.expiresAt)
    && (if c.event.ProofVerified? then c.challenge == Presented(s.challengeHash) else c.challenge.NoChallenge?)
    && (c.errorCode.Some? <==> c.event.Fail?)
  }

  ghost predicate Told(s: State, story: seq<Call>, t: State) {
    && LegalStory(story) && (forall i :: 0 <= i < |story| ==> InOrder(s, i, story[i]))
    && Valid(t) && t.revision == |story| && t.status == StatusAfter(story)
    && t.proofConsumed == (story != [] && story[0].event.ProofVerified?)
    && t == s.(status := t.status, revision := t.revision, proofConsumed := t.proofConsumed, errorCode := t.errorCode)
  }

  lemma NextChapter(s: State, story: seq<Call>, t: State, c: Call)
    requires Fresh(s) && Told(s, story, t) && Transition(t, c).Next?
    ensures Told(s, story + [c], Transition(t, c).state)
  {
    var story', n := story + [c], |story|;
    assert forall i :: 0 <= i < n ==> story'[i] == story[i];
    if n > 0 {
      assert !Ends(story[n - 1].event);
      assert forall i :: 0 <= i < n ==> Forward(i, story[i].event);
    }
  }

  /** Whatever is thrown at a fresh attempt, what it accepted reads as one legal story,
      its revision counts the accepted calls, and connected means exactly proof, then
      confirmation, then connection, each in time. */
  lemma {:induction false} AttemptTellsLegalStory(s: State, calls: seq<Call>)
    requires Fresh(s)
    ensures Told(s, Accepted(s, calls), Final(s, calls))
  {
    if calls != [] {
      hide Told, Transition;
      var pre := calls[..|calls| - 1];
      AttemptTellsLegalStory(s, pre);
      var c := calls[|calls| - 1];
      if Transition(Final(s, pre), c).Next? {
        NextChapter(s, Accepted(s, pre), Final(s, pre), c);
      } else {
        assert Accepted(s, pre) + [] == Accepted(s, pre);
      }
    } else {
      assert LegalStory([]);
    }
  }

  lemma ConnectedMeansProvenAndConfirmed(s: State, calls: seq<Call>)
    requires Fresh(s)
    ensures Final(s, calls).revision <= 3
    ensures Final(s, calls).status.Connected? <==>
            var story := Accepted(s, calls);
            |story| == 3 && story[0].event.ProofVerified? && story[1].event.Confirm? && story[2].event.Connect?
  {
    AttemptTellsLegalStory(s, calls);
  }

  lemma NextIsAccepted(s: State, story: seq<Call>, t: State, c: Call)
    requires Fresh(s) && Told(s, story, t) && LegalStory(story + [c]) && InOrder(s, |story|, c)
    ensures Transition(t, c).Next?
  {
    var n, all := |story|, story + [c];
    assert forall i :: 0 <= i < n ==> all[i] == story[i];
    assert Forward(n, all[n].event) || Ends(all[n].event);
    assert forall i :: 0 <= i < n ==> Forward(i, all[i].event);
  }

  /** Conversely every legal story in which all calls are in order is accepted whole. */
  lemma {:induction false} LegalStoryIsAccepted(s: State, story: seq<Call>)
    requires Fresh(s) && LegalStory(story) && forall i :: 0 <= i < |story| ==> InOrder(s, i, story[i])
    ensures Accepted(s, story) == story
  {
    if story != [] {
      var pre, c := story[..|story| - 1], story[|story| - 1];
      assert LegalStory(pre) by {
        assert forall i :: 0 <= i < |pre| ==> pre[i] == story[i];
      }
      hide Transition, Told, InOrder, LegalStory;
      LegalStoryIsAccepted(s, pre);
      AttemptTellsLegalStory(s, pre);
      assert pre + [c] == story;
      NextIsAccepted(s, pre, Final(s, pre), c);
    }
  }
}
