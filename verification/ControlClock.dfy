/** The conditional control clock: a latching tick source with a UTC anchor and a
    recovery fence. Times and ticks are integer microseconds. */
module ControlClock {
  import opened Common

  const LIFETIME_US := 30_000_000
  const PERMIT_US := 2_000_000
  const PPM := 1_000_000

  /** What one call of the injected tick source gives back. */
  datatype TickReading = Ticks(us: int) | NotAnInteger

  /** What one call of the injected wall clock gives back: a UTC time, or a naive
      or non-zero-offset time, which the clock must not trust. */
  datatype WallReading = Utc(us: int) | NotUtc

  /** Everything one call of `sample` may read: the tick, the wall clock, the
      health probe and the second tick taken by the fence test. */
  datatype SampleReads = SampleReads(tick: TickReading, wall: WallReading, healthy: bool, again: TickReading)

  datatype Sampled = Sampled(now: int, tick: int)

  /** Smallest whole number of new-clock ticks that covers the lifetime of an old
      command when the new clock runs fast and the old one slow. */
  function FenceUs(ratePpm: nat, errorUs: nat): int
    requires ratePpm < PPM
  {
    ((LIFETIME_US + errorUs) * (PPM + ratePpm) + (PPM - ratePpm) - 1) / (PPM - ratePpm)
  }

  /** The fields of a clock object as one value. */
  datatype Clock = Clock(
    epoch: Id, qualified: bool, start: int, last: int, fenceStart: int, anchor: WallReading,
    timerFault: bool, wallFault: bool, fenceUs: int)
  {
    /** UTC time that belongs to a tick, once the anchor is known to be UTC. */
    function LogicalAt(tick: int): int
      requires anchor.Utc?
    {
      anchor.us + (tick - start)
    }

    predicate Accepts(r: TickReading) {
      qualified && !timerFault && r.Ticks? && last <= r.us
    }
  }

  function InitialClock(epoch: Id, qualified: bool, first: TickReading, wall: WallReading, ratePpm: nat, errorUs: nat): Clock
    requires ratePpm < PPM
  {
    var start := if first.Ticks? then first.us else 0;
    Clock(epoch, qualified, start, start, start, wall, first.NotAnInteger?, false, FenceUs(ratePpm, errorUs))
  }

  function TickStep(c: Clock, r: TickReading): (Clock, Outcome<int>) {
    if c.Accepts(r) then (c.(last := r.us), Done(r.us))
    else (if c.qualified then c.(timerFault := true) else c, Refused(Unavailable))
  }

  function RecoveredStep(c: Clock, r: TickReading): (Clock, Outcome<bool>) {
    var (c1, tick) := TickStep(c, r);
    (c1, if tick.Done? then Done(tick.value - c.fenceStart >= c.fenceUs) else Refused(tick.error))
  }

  function LogicalNowStep(c: Clock, r: TickReading): (Clock, Outcome<int>) {
    var (c1, tick) := TickStep(c, r);
    (c1, if tick.Refused? then tick
         else if c.anchor.NotUtc? then Refused(Unavailable)
         else Done(c.LogicalAt(tick.value)))
  }

  /** The wall clock and the tick-derived time differ by more than one second. */
  predicate Diverged(wall: int, value: int) {
    wall - value > 1_000_000 || value - wall > 1_000_000
  }

  function SampleStep(c: Clock, s: SampleReads): (Clock, Outcome<Sampled>) {
    var (c1, tick) := TickStep(c, s.tick);
    if tick.Refused? then (c1, Refused(tick.error))
    else if c.anchor.NotUtc? then (c1.(wallFault := true), Refused(Unavailable))
    else
      var value := c.LogicalAt(tick.value);
      var c2 := if s.wall.NotUtc? || Diverged(s.wall.us, value) then c1.(wallFault := true) else c1;
      if c2.wallFault || !s.healthy then (c2, Refused(Unavailable))
      else
        var (c3, ready) := RecoveredStep(c2, s.again);
        (c3, if ready == Done(true) then Done(Sampled(value, tick.value)) else Refused(Unavailable))
  }

  /** A granted sample is made of two accepted readings, the second past the fence,
      and shows the wall clock to be within one second of the returned time. */
  lemma SampleGranted(c: Clock, s: SampleReads)
    requires SampleStep(c, s).1.Done?
    ensures c.Accepts(s.tick) && s.again.Ticks? && s.tick.us <= s.again.us
    ensures s.again.us - c.fenceStart >= c.fenceUs
    ensures c.anchor.Utc? && SampleStep(c, s).1.value == Sampled(c.LogicalAt(s.tick.us), s.tick.us)
    ensures SampleStep(c, s).0 == c.(last := s.again.us)
    ensures !c.wallFault && s.healthy && s.wall.Utc? && !Diverged(s.wall.us, c.LogicalAt(s.tick.us))
  {
  }

  /** The clock is free of faults, the wall clock agrees to the second and the probe is
      well; both ticks follow on the last one and the second is past the fence. */
  predicate Trusted(c: Clock, s: SampleReads) {
    && c.qualified && !c.timerFault && !c.wallFault && c.anchor.Utc?
    && s.healthy && s.tick.Ticks? && s.again.Ticks? && s.wall.Utc?
    && c.last <= s.tick.us <= s.again.us
    && -1_000_000 <= s.wall.us - (c.anchor.us + s.tick.us - c.start) <= 1_000_000
    && c.fenceStart + c.fenceUs <= s.again.us
  }

  /** A sample is granted on exactly these conditions, and is refused as unavailable
      otherwise; what it costs is said too: which faults are latched. */
  lemma SampleGrantedExactlyWhen(c: Clock, s: SampleReads)
    ensures SampleStep(c, s).1.Done? <==> Trusted(c, s)
    ensures SampleStep(c, s).1.Refused? ==> SampleStep(c, s).1.error == Unavailable
    ensures Trusted(c, s) ==> SampleStep(c, s) == (c.(last := s.again.us), Done(Sampled(c.anchor.us + s.tick.us - c.start, s.tick.us)))
    ensures SampleStep(c, s).0.wallFault <==>
              || c.wallFault
              || (&& c.qualified && !c.timerFault && s.tick.Ticks? && c.last <= s.tick.us
                  && (c.anchor.NotUtc? || s.wall.NotUtc?
                      || s.wall.us - (c.anchor.us + s.tick.us - c.start) > 1_000_000
                      || (c.anchor.us + s.tick.us - c.start) - s.wall.us > 1_000_000))
    ensures SampleStep(c, s).0.timerFault <==>
              || c.timerFault
              || (c.qualified && (s.tick.NotAnInteger? || s.tick.us < c.last))
              || (&& c.qualified && s.tick.Ticks? && c.last <= s.tick.us && c.anchor.Utc?
                  && !SampleStep(c, s).0.wallFault && s.healthy && (s.again.NotAnInteger? || s.again.us < s.tick.us))
  {
  }

  /** A reading alone: the time it shows does not depend on the wall clock. */
  lemma TickAcceptedExactlyWhen(c: Clock, r: TickReading)
    ensures TickStep(c, r).1.Done? <==> c.qualified && !c.timerFault && r.Ticks? && c.last <= r.us
    ensures TickStep(c, r).1.Done? ==> TickStep(c, r) == (c.(last := r.us), Done(r.us))
    ensures TickStep(c, r).1.Refused? ==> TickStep(c, r) == (c.(timerFault := c.timerFault || c.qualified), Refused(Unavailable))
    ensures RecoveredStep(c, r).1 == if TickStep(c, r).1.Done? then Done(c.fenceStart + c.fenceUs <= r.us) else Refused(Unavailable)
    ensures LogicalNowStep(c, r).1 == if TickStep(c, r).1.Done? && c.anchor.Utc? then Done(c.anchor.us + r.us - c.start) else Refused(Unavailable)
    ensures RecoveredStep(c, r).0 == LogicalNowStep(c, r).0 == TickStep(c, r).0
  {
  }

  /** What every operation of the clock keeps: its identity, and its latches. */
  predicate Later(c: Clock, d: Clock) {
    && d.epoch == c.epoch && d.qualified == c.qualified && d.start == c.start && d.anchor == c.anchor && d.fenceUs == c.fenceUs
    && c.last <= d.last
    && (c.timerFault ==> d.timerFault && d.last == c.last)
    && (c.wallFault ==> d.wallFault)
  }

  lemma ClockOnlyMovesForward(c: Clock, s: SampleReads)
    ensures Later(c, TickStep(c, s.tick).0) && Later(c, SampleStep(c, s).0) && Later(c, RecoveredStep(c, s.tick).0)
    ensures TickStep(c, s.tick).0.fenceStart == SampleStep(c, s).0.fenceStart == c.fenceStart
    ensures RecoveredStep(c, s.tick).0.fenceStart == c.fenceStart
    ensures c.timerFault ==> SampleStep(c, s).1.Refused? && TickStep(c, s.tick).1.Refused?
    ensures c.wallFault ==> SampleStep(c, s).1.Refused?
  {
  }

  class ControlClock {
    const epoch: Id
    const qualified: bool
    const start: int
    const anchor: WallReading
    const fenceUs: int
    var last: int
    var fenceStart: int
    var timerFault: bool
    var wallFault: bool

    function Model(): Clock
      reads this
    {
      Clock(epoch, qualified, start, last, fenceStart, anchor, timerFault, wallFault, fenceUs)
    }

    constructor (epoch: Id, qualified: bool, first: TickReading, wall: WallReading, ratePpm: nat, errorUs: nat)
      requires ratePpm < PPM
      ensures Model() == InitialClock(epoch, qualified, first, wall, ratePpm, errorUs)
    {
      this.epoch := epoch;
      this.qualified := qualified;
      var initial := if first.Ticks? then first.us else 0;
      start := initial;
      last := initial;
      fenceStart := initial;
      anchor := wall;
      timerFault := first.NotAnInteger?;
      wallFault := false;
      var numerator := (LIFETIME_US + errorUs) * (PPM + ratePpm);
      var denominator := PPM - ratePpm;
      fenceUs := (numerator + denominator - 1) / denominator;
    }

    /** The bounds that a new clock must meet; null where they are not met. */
    static method Create(epoch: Id, qualified: bool, first: TickReading, wall: WallReading, ratePpm: int, errorUs: int)
      returns (clock: ControlClock?)
      ensures clock == null <==> !(0 <= ratePpm < PPM && 0 <= errorUs)
      ensures clock != null ==> fresh(clock) && clock.Model() == InitialClock(epoch, qualified, first, wall, ratePpm, errorUs)
    {
      if !(0 <= ratePpm < PPM) || errorUs < 0 {
        return null;
      }
      clock := new ControlClock(epoch, qualified, first, wall, ratePpm, errorUs);
    }

    method Tick(r: TickReading) returns (o: Outcome<int>)
      modifies this
      ensures (Model(), o) == TickStep(old(Model()), r)
    {
      if !qualified || timerFault {
        return Refused(Unavailable);
      }
      if r.NotAnInteger? || r.us < last {
        timerFault := true;
        return Refused(Unavailable);
      }
      last := r.us;
      return Done(r.us);
    }

    method Recovered(r: TickReading) returns (o: Outcome<bool>)
      modifies this
      ensures (Model(), o) == RecoveredStep(old(Model()), r)
    {
      var tick := Tick(r);
      if tick.Refused? {
        return Refused(tick.error);
      }
      return Done(tick.value - fenceStart >= fenceUs);
    }

    method LogicalNow(r: TickReading) returns (o: Outcome<int>)
      modifies this
      ensures (Model(), o) == LogicalNowStep(old(Model()), r)
    {
      var tick := Tick(r);
      if tick.Refused? {
        return tick;
      }
      if anchor.NotUtc? {
        return Refused(Unavailable);
      }
      return Done(anchor.us + (tick.value - start));
    }

    method Sample(s: SampleReads) returns (o: Outcome<Sampled>)
      modifies this
      ensures (Model(), o) == SampleStep(old(Model()), s)
    {
      var tick := Tick(s.tick);
      if tick.Refused? {
        return Refused(tick.error);
      }
      if anchor.NotUtc? {
        wallFault := true;
        return Refused(Unavailable);
      }
      var value := anchor.us + (tick.value - start);
      if s.wall.NotUtc? {
        wallFault := true;
      } else if s.wall.us - value > 1_000_000 || value - s.wall.us > 1_000_000 {
        wallFault := true;
      }
      if wallFault || !s.healthy {
        return Refused(Unavailable);
      }
      var ready := Recovered(s.again);
      if ready != Done(true) {
        return Refused(Unavailable);
      }
      return Done(Sampled(value, tick.value));
    }
  }
}
