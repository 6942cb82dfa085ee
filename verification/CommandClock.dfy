/** The clock of software commands: one anchor per process, and a latched fault. */
module CommandClock {
  import opened Common

  const TOLERANCE := 1_000_000

  datatype Wall = Utc(us: int) | NotUtc
  datatype Tick = Finite(us: int) | NotFinite
  datatype Reading = Reading(wall: Wall, tick: Tick)

  datatype Anchor = Anchor(base: int, start: int)

  datatype ClockState = ClockState(anchor: Option<Anchor>, lastTick: Option<int>, fault: bool)

  const UNUSED := ClockState(None, None, false)

  function NowStep(c: ClockState, r: Reading): (ClockState, Outcome<int>) {
    if c.fault || r.wall.NotUtc? || r.tick.NotFinite? || (c.lastTick.Some? && r.tick.us < c.lastTick.value) then
      (c.(fault := true), Refused(Unavailable))
    else
      var a := if c.anchor.Some? then c.anchor.value else Anchor(r.wall.us, r.tick.us);
      var value := a.base + (r.tick.us - a.start);
      var c1 := c.(lastTick := Some(r.tick.us), anchor := Some(a));
      if r.tick.us < a.start || r.wall.us - value > TOLERANCE || value - r.wall.us > TOLERANCE
      then (c1.(fault := true), Refused(Unavailable))
      else (c1, Done(value))
  }

  function StateAfter(rs: seq<Reading>): ClockState {
    if rs == [] then UNUSED else NowStep(StateAfter(rs[..|rs| - 1]), rs[|rs| - 1]).0
  }

  /** What the i-th call answers. */
  function Answer(rs: seq<Reading>, i: nat): Outcome<int>
    requires i < |rs|
  {
    NowStep(StateAfter(rs[..i]), rs[i]).1
  }

  ghost predicate Running(c: ClockState) {
    !c.fault ==> (c.anchor.Some? <==> c.lastTick.Some?) && (c.anchor.Some? ==> c.anchor.value.start <= c.lastTick.value)
  }

  /** The value that belongs to the latest accepted tick. */
  function Reached(c: ClockState): int
    requires c.anchor.Some? && c.lastTick.Some?
  {
    c.anchor.value.base + (c.lastTick.value - c.anchor.value.start)
  }

  lemma {:induction false} AlwaysRunning(rs: seq<Reading>)
    ensures Running(StateAfter(rs))
  {
    if rs != [] {
      AlwaysRunning(rs[..|rs| - 1]);
    }
  }

  lemma {:induction false} LatestAnswer(rs: seq<Reading>, i: nat, j: nat)
    requires i < j <= |rs| && Answer(rs, i).Done?
    ensures var c := StateAfter(rs[..j]);
            c.fault || (c.anchor.Some? && c.lastTick.Some? && c.anchor == StateAfter(rs[..i + 1]).anchor && Answer(rs, i).value <= Reached(c))
    decreases j
  {
    assert rs[..j][..j - 1] == rs[..j - 1];
    if i < j - 1 {
      LatestAnswer(rs, i, j - 1);
    }
  }

  /** Answers never go backwards, each is within one second of the wall clock it was
      read with, and after a refusal there is no answer any more. */
  lemma AnswersAreMonotone(rs: seq<Reading>, i: nat, j: nat)
    requires i < j < |rs| && Answer(rs, j).Done?
    ensures Answer(rs, i).Done? && Answer(rs, i).value <= Answer(rs, j).value
    ensures rs[j].wall.Utc? && -TOLERANCE <= rs[j].wall.us - Answer(rs, j).value <= TOLERANCE
  {
    AlwaysRunning(rs[..j]);
    if Answer(rs, i).Refused? {
      FaultStays(rs, i, j);
    } else {
      LatestAnswer(rs, i, j);
    }
  }

  lemma {:induction false} FaultStays(rs: seq<Reading>, i: nat, j: nat)
    requires i < j <= |rs| && Answer(rs, i).Refused?
    ensures StateAfter(rs[..j]).fault
    decreases j
  {
    assert rs[..j][..j - 1] == rs[..j - 1];
    if i < j - 1 {
      FaultStays(rs, i, j - 1);
    }
  }

  /** All readings up to the i-th are of the right kind, the ticks do not go back, and
      the wall clock has kept within a second of the first reading plus elapsed ticks. */
  predicate Steady(rs: seq<Reading>, i: nat)
    requires i < |rs|
  {
    forall k: nat :: k <= i ==> SteadyAt(rs, k)
  }

  predicate SteadyAt(rs: seq<Reading>, k: nat)
    requires k < |rs|
  {
    && rs[k].wall.Utc? && rs[k].tick.Finite? && rs[0].wall.Utc? && rs[0].tick.Finite?
    && (k > 0 && rs[k - 1].tick.Finite? ==> rs[k - 1].tick.us <= rs[k].tick.us)
    && -1_000_000 <= rs[k].wall.us - (rs[0].wall.us + rs[k].tick.us - rs[0].tick.us) <= 1_000_000
  }

  lemma SteadyBefore(rs: seq<Reading>, i: nat)
    requires i < |rs|
    ensures Steady(rs, i) <==> SteadyAt(rs, i) && (i > 0 ==> Steady(rs, i - 1))
  {
    hide SteadyAt;
  }

  /** The i-th call is answered if and only if all was well up to then, and the answer is
      the first wall time plus the ticks since. */
  lemma {:induction false} AnsweredExactlyWhen(rs: seq<Reading>, i: nat)
    requires i < |rs|
    ensures if Steady(rs, i)
            then SteadyAt(rs, i) && Answer(rs, i) == Done(rs[0].wall.us + rs[i].tick.us - rs[0].tick.us)
            else Answer(rs, i) == Refused(Unavailable)
    ensures var c := StateAfter(rs[..i + 1]);
            && (c.fault <==> !Steady(rs, i))
            && (Steady(rs, i) ==>
                  && SteadyAt(rs, i) && rs[0].tick.us <= rs[i].tick.us
                  && c.anchor == Some(Anchor(rs[0].wall.us, rs[0].tick.us)) && c.lastTick == Some(rs[i].tick.us))
  {
    SteadyBefore(rs, i);
    hide Steady;
    assert rs[..i + 1][..i] == rs[..i];
    if i > 0 {
      AnsweredExactlyWhen(rs, i - 1);
    }
  }

  class CommandClock {
    var anchor: Option<Anchor>
    var lastTick: Option<int>
    var fault: bool

    function Model(): ClockState
      reads this
    {
      ClockState(anchor, lastTick, fault)
    }

    constructor ()
      ensures Model() == UNUSED
    {
      anchor, lastTick, fault := None, None, false;
    }

    method Now(r: Reading) returns (o: Outcome<int>)
      modifies this
      ensures (Model(), o) == NowStep(old(Model()), r)
    {
      if r.wall.NotUtc? || r.tick.NotFinite? || (lastTick.Some? && r.tick.us < lastTick.value) {
        fault := true;
      }
      if fault {
        return Refused(Unavailable);
      }
      lastTick := Some(r.tick.us);
      if anchor.None? {
        anchor := Some(Anchor(r.wall.us, r.tick.us));
      }
      var elapsed := r.tick.us - anchor.value.start;
      var value := anchor.value.base + elapsed;
      if elapsed < 0 || r.wall.us - value > TOLERANCE || value - r.wall.us > TOLERANCE {
        fault := true;
      }
      if fault {
        return Refused(Unavailable);
      }
      return Done(value);
    }
  }
}
