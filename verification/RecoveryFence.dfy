/** The arithmetic of the recovery fence against drifting clocks. */
module RecoveryFence {
  import opened Common
  import opened ControlClock

  /** How far a tick source may stray from real time (measured in microseconds too):
      its rate is off by at most the fraction `rate`, and a pair of readings may in
      addition be too far apart by `ahead` or too close by `behind`. */
  datatype Drift = Drift(rate: real, ahead: real, behind: real)

  function Fraction(ratePpm: nat): real {
    ratePpm as real / PPM as real
  }

  /** The drift stays within what a clock was configured to tolerate. */
  ghost predicate ValidDrift(d: Drift, ratePpm: nat, errorUs: nat) {
    && ratePpm < PPM
    && 0.0 <= d.rate <= Fraction(ratePpm)
    && 0.0 <= d.ahead && 0.0 <= d.behind && d.ahead + d.behind <= errorUs as real
  }

  /** A counter of whole ticks may advance by `ticks` while real time advances by `elapsed`. */
  ghost predicate MayAdvance(d: Drift, elapsed: real, ticks: int) {
    && ticks as real <= (1.0 + d.rate) * elapsed + d.ahead
    && ticks as real >= (1.0 - d.rate) * elapsed - d.behind
  }

  /** Waiting for `fence` ticks of a new clock lets every old clock that was
      already running advance by a whole command lifetime. */
  ghost predicate Covers(fence: int, ratePpm: nat, errorUs: nat) {
    forall d: Drift, elapsed: real, older: real, newTicks: int, oldTicks: int ::
      ValidDrift(d, ratePpm, errorUs) && 0.0 <= elapsed <= older &&
      MayAdvance(d, elapsed, newTicks) && MayAdvance(d, older, oldTicks) &&
      fence <= newTicks
      ==> LIFETIME_US <= oldTicks
  }

  lemma CeilingBounds(n: int, d: int)
    requires d > 0
    ensures var q := (n + d - 1) / d; q * d >= n && (q - 1) * d < n
  {
    var q := (n + d - 1) / d;
    assert n + d - 1 == d * q + (n + d - 1) % d;
    assert q * d == d * q;
    assert (q - 1) * d == d * q - d;
  }

  /** The formula is the ceiling of (30 s + error) * (1 + rate) / (1 - rate). */
  lemma FenceIsCeiling(ratePpm: nat, errorUs: nat)
    requires ratePpm < PPM
    ensures FenceUs(ratePpm, errorUs) * (PPM - ratePpm) >= (LIFETIME_US + errorUs) * (PPM + ratePpm)
    ensures (FenceUs(ratePpm, errorUs) - 1) * (PPM - ratePpm) < (LIFETIME_US + errorUs) * (PPM + ratePpm)
  {
    CeilingBounds((LIFETIME_US + errorUs) * (PPM + ratePpm), PPM - ratePpm);
  }

  lemma ProductAsReal(a: int, b: int)
    ensures (a * b) as real == a as real * b as real
  {
  }

  lemma Scaled(a: int, b: int, ratePpm: nat)
    requires ratePpm < PPM
    ensures a * (PPM - ratePpm) > b * (PPM + ratePpm)
       <==> (1.0 + Fraction(ratePpm)) * b as real < (1.0 - Fraction(ratePpm)) * a as real
  {
    var ra, rb, x := a as real, b as real, ratePpm as real;
    ProductAsReal(a, PPM - ratePpm);
    ProductAsReal(b, PPM + ratePpm);
    assert PPM as real * ((1.0 + Fraction(ratePpm)) * rb) == rb * (PPM as real + x);
    assert PPM as real * ((1.0 - Fraction(ratePpm)) * ra) == ra * (PPM as real - x);
  }

  lemma ProductMono(a: real, b: real, k: real)
    requires a <= b && 0.0 <= k
    ensures k * a <= k * b && a * k <= b * k
  {
  }

  lemma Cancel(k: real, a: real, b: real)
    requires 0.0 < k && k * a < k * b
    ensures a < b
  {
  }

  /** The new clock cannot have run the fence unless more real time went by than a
      slow clock takes to run `need`. */
  lemma SlowClockProgress(slow: real, fast: real, fence: real, need: real, ahead: real, elapsed: real)
    requires 0.0 < slow <= fast && 0.0 <= ahead
    requires fast * need < slow * fence
    requires fence - ahead <= fast * elapsed
    ensures need - ahead < slow * elapsed
  {
    calc {
      fast * (need - ahead);
      fast * need - fast * ahead;
    <= { ProductMono(slow, fast, ahead); }
      fast * need - slow * ahead;
    <
      slow * fence - slow * ahead;
      slow * (fence - ahead);
    <= { ProductMono(fence - ahead, fast * elapsed, slow); }
      slow * (fast * elapsed);
      fast * (slow * elapsed);
    }
    Cancel(fast, need - ahead, slow * elapsed);
  }

  /** What a slow clock shows at the end of a longer stretch of time. */
  lemma OldProgress(bound: real, rate: real, elapsed: real, older: real)
    requires 0.0 <= rate <= bound < 1.0 && 0.0 <= elapsed <= older
    ensures (1.0 - bound) * elapsed <= (1.0 - rate) * older
    ensures (1.0 + rate) * elapsed <= (1.0 + bound) * elapsed
  {
    ProductMono(1.0 + rate, 1.0 + bound, elapsed);
    ProductMono(elapsed, older, 1.0 - bound);
    ProductMono(1.0 - bound, 1.0 - rate, older);
  }

  lemma WorstCase(bound: real, rate: real, fence: real, budget: real, need: real, ahead: real, behind: real,
                  elapsed: real, older: real, newTicks: real, oldTicks: real)
    requires 0.0 <= rate <= bound < 1.0 && 0.0 <= ahead && need + ahead + behind <= budget
    requires 0.0 <= elapsed <= older
    requires (1.0 + bound) * budget < (1.0 - bound) * fence && fence <= newTicks
    requires newTicks <= (1.0 + rate) * elapsed + ahead
    requires oldTicks >= (1.0 - rate) * older - behind
    ensures need < oldTicks
  {
    OldProgress(bound, rate, elapsed, older);
    SlowClockProgress(1.0 - bound, 1.0 + bound, fence, budget, ahead, elapsed);
    var slow, late := (1.0 - bound) * elapsed, (1.0 - rate) * older;
    InTime(budget, need, ahead, behind, slow, late, oldTicks);
  }

  lemma InTime(budget: real, need: real, ahead: real, behind: real, slow: real, late: real, oldTicks: real)
    requires need + ahead + behind <= budget && budget - ahead < slow <= late && oldTicks >= late - behind
    ensures need < oldTicks
  {
  }

  // ----- the exact threshold -----

  /** The fence is long enough for whole ticks: an old clock one tick short of the
      lifetime would need less real time than a new clock that has run the fence. */
  predicate LongEnough(fence: int, ratePpm: nat, errorUs: nat)
    requires ratePpm < PPM
  {
    fence * (PPM - ratePpm) > (LIFETIME_US - 1 + errorUs) * (PPM + ratePpm)
  }

  lemma LongFenceCovers(fence: int, d: Drift, ratePpm: nat, errorUs: nat, elapsed: real, older: real, newTicks: int, oldTicks: int)
    requires ValidDrift(d, ratePpm, errorUs) && 0.0 <= elapsed <= older
    requires MayAdvance(d, elapsed, newTicks) && MayAdvance(d, older, oldTicks)
    requires LongEnough(fence, ratePpm, errorUs) && fence <= newTicks
    ensures LIFETIME_US <= oldTicks
  {
    Scaled(fence, LIFETIME_US - 1 + errorUs, ratePpm);
    hide LongEnough;
    WorstCase(Fraction(ratePpm), d.rate, fence as real, (LIFETIME_US - 1 + errorUs) as real,
      (LIFETIME_US - 1) as real, d.ahead, d.behind, elapsed, older, newTicks as real, oldTicks as real);
  }

  lemma FormulaIsLongEnough(ratePpm: nat, errorUs: nat)
    requires ratePpm < PPM
    ensures LongEnough(FenceUs(ratePpm, errorUs), ratePpm, errorUs)
  {
    FenceIsCeiling(ratePpm, errorUs);
    assert (LIFETIME_US + errorUs) * (PPM + ratePpm) == (LIFETIME_US - 1 + errorUs) * (PPM + ratePpm) + (PPM + ratePpm);
  }

  /** Once a new clock has counted the fence, every clock that ran all the while has
      counted a whole command lifetime. */
  lemma FenceCoversLifetime(d: Drift, ratePpm: nat, errorUs: nat, elapsed: real, older: real, newTicks: int, oldTicks: int)
    requires ValidDrift(d, ratePpm, errorUs) && 0.0 <= elapsed <= older
    requires MayAdvance(d, elapsed, newTicks) && MayAdvance(d, older, oldTicks)
    requires FenceUs(ratePpm, errorUs) <= newTicks
    ensures LIFETIME_US <= oldTicks
  {
    hide FenceUs, LongEnough, MayAdvance;
    FormulaIsLongEnough(ratePpm, errorUs);
    LongFenceCovers(FenceUs(ratePpm, errorUs), d, ratePpm, errorUs, elapsed, older, newTicks, oldTicks);
  }

  lemma Cancelled(k: real, a: real, b: real)
    requires 0.0 < k && a < b
    ensures k * a < k * b
  {
  }

  /** Real time that goes with a fast new clock, and the progress of a slow old one. */
  lemma WorstRun(bound: real, fence: real, budget: real) returns (elapsed: real)
    requires 0.0 <= bound < 1.0 && 0.0 <= fence && (1.0 - bound) * fence <= (1.0 + bound) * budget
    ensures 0.0 <= elapsed && (1.0 + bound) * elapsed == fence
    ensures (1.0 - bound) * elapsed <= budget && (1.0 - bound) * elapsed <= fence
  {
    elapsed := fence / (1.0 + bound);
    var progress := (1.0 - bound) * elapsed;
    assert (1.0 + bound) * elapsed == fence;
    assert (1.0 + bound) * progress == (1.0 - bound) * fence by {
      assert (1.0 + bound) * progress == (1.0 - bound) * ((1.0 + bound) * elapsed);
    }
    ProductMono(1.0 - bound, 1.0 + bound, elapsed);
    if budget < progress {
      Cancelled(1.0 + bound, budget, progress);
    }
  }

  /** Any shorter fence fails in whole ticks: the new clock runs fast, the old one slow
      and late, and it shows one tick less than the lifetime, or no more than the fence. */
  lemma ShorterFenceFails(fence: int, ratePpm: nat, errorUs: nat)
    requires ratePpm < PPM && !LongEnough(fence, ratePpm, errorUs)
    ensures !Covers(fence, ratePpm, errorUs)
  {
    var newTicks, budget := if fence < 0 then 0 else fence, LIFETIME_US - 1 + errorUs;
    var oldTicks := if newTicks < LIFETIME_US - 1 then newTicks else LIFETIME_US - 1;
    Scaled(newTicks, budget, ratePpm);
    var elapsed := WorstRun(Fraction(ratePpm), newTicks as real, budget as real);
    var d := Drift(Fraction(ratePpm), 0.0, errorUs as real);
    assert ValidDrift(d, ratePpm, errorUs);
    assert MayAdvance(d, elapsed, newTicks) && MayAdvance(d, elapsed, oldTicks);
  }

  /** Exactly which fences are long enough, for the whole ticks that the clock accepts. */
  lemma FenceCoversExactlyWhen(fence: int, ratePpm: nat, errorUs: nat)
    requires ratePpm < PPM
    ensures Covers(fence, ratePpm, errorUs)
       <==> fence * (PPM - ratePpm) > (LIFETIME_US - 1 + errorUs) * (PPM + ratePpm)
  {
    if !LongEnough(fence, ratePpm, errorUs) {
      ShorterFenceFails(fence, ratePpm, errorUs);
    } else {
      forall d: Drift, elapsed: real, older: real, newTicks: int, oldTicks: int |
        ValidDrift(d, ratePpm, errorUs) && 0.0 <= elapsed <= older &&
        MayAdvance(d, elapsed, newTicks) && MayAdvance(d, older, oldTicks) && fence <= newTicks
        ensures LIFETIME_US <= oldTicks
      {
        LongFenceCovers(fence, d, ratePpm, errorUs, elapsed, older, newTicks, oldTicks);
      }
    }
  }

  // ----- the formula against the threshold -----

  /** The least number of whole ticks that is long enough. */
  function LeastFence(ratePpm: nat, errorUs: nat): int
    requires ratePpm < PPM
  {
    (LIFETIME_US - 1 + errorUs) * (PPM + ratePpm) / (PPM - ratePpm) + 1
  }

  lemma LeastFenceIsLeast(fence: int, ratePpm: nat, errorUs: nat)
    requires ratePpm < PPM
    ensures Covers(fence, ratePpm, errorUs) <==> LeastFence(ratePpm, errorUs) <= fence
  {
    FenceCoversExactlyWhen(fence, ratePpm, errorUs);
    QuotientOrder((LIFETIME_US - 1 + errorUs) * (PPM + ratePpm), PPM - ratePpm, fence);
  }

  lemma WholeMono(a: int, b: int, d: int)
    requires a <= b && 0 <= d
    ensures a * d <= b * d
  {
  }

  lemma QuotientOrder(n: int, d: int, q: int)
    requires d > 0
    ensures q * d > n <==> n / d + 1 <= q
  {
    var r := n / d;
    assert r * d <= n < r * d + d by {
      assert n == d * r + n % d;
      assert d * r == r * d;
    }
    if q >= r + 1 {
      WholeMono(r + 1, q, d);
      assert (r + 1) * d == r * d + d;
    } else {
      WholeMono(q, r, d);
    }
  }

  /** The formula never falls short of the least fence and exceeds it by fewer than
      2 / (1 - rate) ticks; with a perfect rate it is the least. */
  lemma FormulaAboveLeast(ratePpm: nat, errorUs: nat)
    requires ratePpm < PPM
    ensures LeastFence(ratePpm, errorUs) <= FenceUs(ratePpm, errorUs)
    ensures (FenceUs(ratePpm, errorUs) - LeastFence(ratePpm, errorUs)) * (PPM - ratePpm) < 2 * PPM
    ensures ratePpm == 0 ==> FenceUs(ratePpm, errorUs) == LeastFence(ratePpm, errorUs)
  {
    var n, d, f, l := (LIFETIME_US - 1 + errorUs) * (PPM + ratePpm), PPM - ratePpm, FenceUs(ratePpm, errorUs), LeastFence(ratePpm, errorUs);
    FormulaIsLongEnough(ratePpm, errorUs);
    QuotientOrder(n, d, f);
    QuotientOrder(n, d, l);
    FenceIsCeiling(ratePpm, errorUs);
    assert (LIFETIME_US + errorUs) * (PPM + ratePpm) == n + (PPM + ratePpm);
    assert (f - l) * d == (f - 1) * d + d - l * d;
  }

  /** So the formula is not the least fence: with the default bounds of 1000 ppm and
      1000 us one tick less is still long enough, and at 900,000 ppm eighteen less. */
  lemma FormulaIsNotLeast()
    ensures FenceUs(1_000, 1_000) == 30_061_063 && LeastFence(1_000, 1_000) == 30_061_062
    ensures FenceUs(900_000, 1_000) == 570_019_000 && LeastFence(900_000, 1_000) == 570_018_982
    ensures Covers(FenceUs(1_000, 1_000) - 1, 1_000, 1_000)
  {
    LeastFenceIsLeast(FenceUs(1_000, 1_000) - 1, 1_000, 1_000);
  }
}
