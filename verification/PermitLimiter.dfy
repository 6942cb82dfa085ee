/** What the per-device and per-second limiter of the permit authority guarantees
    about every history of requests it let through. */
module PermitLimiter {
  import opened Common
  import opened ControlClock
  import opened ControlAuthority

  /** One request the limiter let through, and the permit it led to, if any. */
  datatype Pass = Pass(key: Device, tick: int, grant: Option<Delivery>)

  /** Number of passes with lo <= tick < hi. */
  function CountIn(passes: seq<Pass>, lo: int, hi: int): nat {
    if passes == [] then 0
    else CountIn(passes[..|passes| - 1], lo, hi) + (if lo <= passes[|passes| - 1].tick < hi then 1 else 0)
  }

  function InSecond(passes: seq<Pass>, second: int): nat {
    CountIn(passes, second * SECOND, second * SECOND + SECOND)
  }

  ghost predicate Sorted(passes: seq<Pass>, last: int) {
    && (forall i, j :: 0 <= i < j < |passes| ==> passes[i].tick <= passes[j].tick)
    && (forall i :: 0 <= i < |passes| ==> passes[i].tick <= last)
  }

  /** The counter is the number of passes of its second; no second has too many. */
  ghost predicate Counted(l: Limiter, passes: seq<Pass>, last: int) {
    && (forall s :: InSecond(passes, s) <= PER_SECOND)
    && InSecond(passes, l.globalSecond) == l.globalCount
    && (passes != [] ==> passes[|passes| - 1].tick / SECOND <= l.globalSecond <= last / SECOND)
  }

  predicate PassedAt(p: Pass, key: Device, tick: int) {
    p.key == key && p.tick == tick
  }

  /** Every remembered rate belongs to a pass. */
  ghost predicate Remembered(rates: map<Device, int>, passes: seq<Pass>) {
    forall k :: k in rates ==> exists i :: 0 <= i < |passes| && PassedAt(passes[i], k, rates[k])
  }

  /** A pass is remembered or at least a second old. */
  predicate Recalled(rates: map<Device, int>, p: Pass, last: int) {
    (p.key in rates && p.tick <= rates[p.key]) || p.tick + SECOND <= last
  }

  ghost predicate AllRecalled(rates: map<Device, int>, passes: seq<Pass>, last: int) {
    forall i :: 0 <= i < |passes| ==> Recalled(rates, passes[i], last)
  }

  /** The limiter state is what the history of passes left behind. */
  ghost predicate Explains(l: Limiter, passes: seq<Pass>, last: int) {
    && Sorted(passes, last) && Counted(l, passes, last) && Remembered(l.rates, passes)
    && AllRecalled(l.rates, passes, last) && Spaced(passes)
  }

  /** Two passes of one device are at least a second apart. */
  ghost predicate Spaced(passes: seq<Pass>) {
    forall i, j :: 0 <= i < j < |passes| && passes[i].key == passes[j].key ==> passes[j].tick - passes[i].tick >= SECOND
  }

  lemma {:induction false} NoneAfter(passes: seq<Pass>, lo: int, hi: int)
    requires forall i :: 0 <= i < |passes| ==> passes[i].tick < lo
    ensures CountIn(passes, lo, hi) == 0
  {
    if passes != [] {
      NoneAfter(passes[..|passes| - 1], lo, hi);
    }
  }

  lemma {:induction false} Split(passes: seq<Pass>, lo: int, mid: int, hi: int)
    requires lo <= mid <= hi
    ensures CountIn(passes, lo, hi) == CountIn(passes, lo, mid) + CountIn(passes, mid, hi)
  {
    if passes != [] {
      Split(passes[..|passes| - 1], lo, mid, hi);
    }
  }

  lemma {:induction false} Wider(passes: seq<Pass>, lo: int, hi: int, lo': int, hi': int)
    requires lo' <= lo && hi <= hi'
    ensures CountIn(passes, lo, hi) <= CountIn(passes, lo', hi')
  {
    if passes != [] {
      Wider(passes[..|passes| - 1], lo, hi, lo', hi');
    }
  }

  /** A window of `seconds` seconds touches at most one calendar second more. */
  lemma {:induction false} WindowBound(passes: seq<Pass>, lo: int, seconds: nat)
    requires forall s :: InSecond(passes, s) <= PER_SECOND
    ensures CountIn(passes, lo, lo + seconds * SECOND) <= (seconds + 1) * PER_SECOND
  {
    var first := lo / SECOND;
    Wider(passes, lo, lo + seconds * SECOND, first * SECOND, (first + seconds + 1) * SECOND);
    SecondsBound(passes, first, seconds + 1);
  }

  lemma {:induction false} SecondsBound(passes: seq<Pass>, first: int, n: nat)
    requires forall s :: InSecond(passes, s) <= PER_SECOND
    ensures CountIn(passes, first * SECOND, (first + n) * SECOND) <= n * PER_SECOND
  {
    if n == 0 {
      Wider(passes, first * SECOND, first * SECOND, first * SECOND, first * SECOND + SECOND);
      EmptyWindow(passes, first * SECOND);
    } else {
      SecondsBound(passes, first, n - 1);
      Split(passes, first * SECOND, (first + n - 1) * SECOND, (first + n) * SECOND);
      assert InSecond(passes, first + n - 1) <= PER_SECOND;
      assert (first + n - 1) * SECOND + SECOND == (first + n) * SECOND;
    }
  }

  lemma {:induction false} EmptyWindow(passes: seq<Pass>, at: int)
    ensures CountIn(passes, at, at) == 0
  {
    if passes != [] {
      EmptyWindow(passes[..|passes| - 1], at);
    }
  }

  predicate LabelAt<K(==)>(labels: seq<K>, passes: seq<Pass>, i: int, k: K, lo: int, hi: int) {
    0 <= i < |passes| && i < |labels| && labels[i] == k && lo <= passes[i].tick < hi
  }

  /** Different labels seen inside a window are at most as many as its passes. */
  lemma {:induction false} DistinctLabels<K>(keys: set<K>, labels: seq<K>, passes: seq<Pass>, lo: int, hi: int)
    requires |labels| == |passes|
    requires forall k :: k in keys ==> exists i :: LabelAt(labels, passes, i, k, lo, hi)
    ensures |keys| <= CountIn(passes, lo, hi)
  {
    if passes == [] {
      assert keys == {};
    } else {
      var n := |passes| - 1;
      var rest := if lo <= passes[n].tick < hi then keys - {labels[n]} else keys;
      forall k | k in rest
        ensures exists i :: LabelAt(labels[..n], passes[..n], i, k, lo, hi)
      {
        var i :| LabelAt(labels, passes, i, k, lo, hi);
        assert LabelAt(labels[..n], passes[..n], i, k, lo, hi);
      }
      DistinctLabels(rest, labels[..n], passes[..n], lo, hi);
      assert keys == rest || keys == rest + {labels[n]};
    }
  }

  /** Every step of the limiter extends the history it can be explained by. */
  lemma LimitKeepsExplanation(l: Limiter, passes: seq<Pass>, last: int, key: Device, tick: int, grant: Option<Delivery>, later: int)
    requires Explains(l, passes, last) && last <= tick <= later
    ensures var (l', passed) := LimitStep(l, key, tick);
            Explains(l', if passed then passes + [Pass(key, tick, grant)] else passes, later)
  {
    var rates := Fresh(l.rates, tick);
    var second := tick / SECOND;
    var count := if second != l.globalSecond then 0 else l.globalCount;
    FilterKeepsMemory(l.rates, passes, last, tick);
    NewSecondKeepsCount(l, passes, last, Limiter(rates, second, count), tick);
    if LimitStep(l, key, tick).1 {
      var p := Pass(key, tick, grant);
      AppendKeepsCount(Limiter(rates, second, count), passes, p, rates[key := tick]);
      AppendKeepsMemory(rates, passes, p);
      AppendKeepsSpacing(rates, passes, p);
      Relax(LimitStep(l, key, tick).0, passes + [p], tick, later);
    } else {
      Relax(LimitStep(l, key, tick).0, passes, tick, later);
    }
  }

  /** A device is still remembered exactly if it had a pass within the last second. */
  lemma RememberedExactlyWhen(rates: map<Device, int>, passes: seq<Pass>, tick: int, key: Device)
    requires Remembered(Fresh(rates, tick), passes) && AllRecalled(Fresh(rates, tick), passes, tick)
    ensures key in Fresh(rates, tick) <==> exists i :: 0 <= i < |passes| && passes[i].key == key && tick < passes[i].tick + 1_000_000
  {
    if key in Fresh(rates, tick) {
      var i :| 0 <= i < |passes| && PassedAt(passes[i], key, Fresh(rates, tick)[key]);
    }
    if i :| 0 <= i < |passes| && passes[i].key == key && tick < passes[i].tick + 1_000_000 {
      assert Recalled(Fresh(rates, tick), passes[i], tick);
    }
  }

  /** What the limiter counts in the second of this tick. */
  function CountAt(l: Limiter, tick: int): int {
    if tick / SECOND != l.globalSecond then 0 else l.globalCount
  }

  lemma CountIsPasses(l: Limiter, passes: seq<Pass>, last: int, tick: int)
    requires Sorted(passes, last) && Counted(l, passes, last) && last <= tick
    ensures CountIn(passes, tick / 1_000_000 * 1_000_000, tick / 1_000_000 * 1_000_000 + 1_000_000) == CountAt(l, tick)
  {
    hide Sorted, CountIn;
    NewSecondKeepsCount(l, passes, last, Limiter(map[], tick / SECOND, CountAt(l, tick)), tick);
    assert InSecond(passes, tick / SECOND) == CountAt(l, tick);
  }

  lemma PassesWhen(l: Limiter, key: Device, tick: int)
    ensures LimitStep(l, key, tick).1 <==> key !in Fresh(l.rates, tick) && |Fresh(l.rates, tick)| < MAX_RATES && CountAt(l, tick) < PER_SECOND
  {
    hide Fresh;
  }

  /** The limiter refuses exactly a device that had a pass within the last second, and
      anyone once a calendar second had its 100 passes, as far as its table has room. */
  lemma LimitedExactlyWhen(l: Limiter, passes: seq<Pass>, last: int, key: Device, tick: int)
    requires Explains(l, passes, last) && last <= tick && |Fresh(l.rates, tick)| < MAX_RATES
    ensures LimitStep(l, key, tick).1 <==>
              && (forall i :: 0 <= i < |passes| && passes[i].key == key ==> passes[i].tick + 1_000_000 <= tick)
              && CountIn(passes, tick / 1_000_000 * 1_000_000, tick / 1_000_000 * 1_000_000 + 1_000_000) < 100
  {
    hide Sorted, Counted, Remembered, AllRecalled, Spaced, CountIn, Fresh, LimitStep, CountAt;
    FilterKeepsMemory(l.rates, passes, last, tick);
    RememberedExactlyWhen(l.rates, passes, tick, key);
    CountIsPasses(l, passes, last, tick);
    PassesWhen(l, key, tick);
  }

  lemma Relax(l: Limiter, passes: seq<Pass>, tick: int, later: int)
    requires Explains(l, passes, tick) && tick <= later
    ensures Explains(l, passes, later)
  {
    assert forall i :: 0 <= i < |passes| ==> Recalled(l.rates, passes[i], tick);
  }

  lemma FilterKeepsMemory(rates: map<Device, int>, passes: seq<Pass>, last: int, tick: int)
    requires Sorted(passes, last) && Remembered(rates, passes) && AllRecalled(rates, passes, last) && last <= tick
    ensures Sorted(passes, tick) && Remembered(Fresh(rates, tick), passes) && AllRecalled(Fresh(rates, tick), passes, tick)
  {
    forall i | 0 <= i < |passes|
      ensures Recalled(Fresh(rates, tick), passes[i], tick)
    {
      assert Recalled(rates, passes[i], last);
    }
  }

  lemma NewSecondKeepsCount(l: Limiter, passes: seq<Pass>, last: int, l': Limiter, tick: int)
    requires Sorted(passes, last) && Counted(l, passes, last) && last <= tick
    requires l'.globalSecond == tick / SECOND
    requires l'.globalCount == if l'.globalSecond != l.globalSecond then 0 else l.globalCount
    ensures Counted(l', passes, tick)
  {
    if l'.globalSecond != l.globalSecond {
      forall i | 0 <= i < |passes|
        ensures passes[i].tick < l'.globalSecond * SECOND
      {
        assert passes[i].tick <= passes[|passes| - 1].tick;
      }
      NoneAfter(passes, l'.globalSecond * SECOND, l'.globalSecond * SECOND + SECOND);
    }
  }

  lemma AppendKeepsCount(l: Limiter, passes: seq<Pass>, p: Pass, rates: map<Device, int>)
    requires Sorted(passes, p.tick) && Counted(l, passes, p.tick)
    requires l.globalSecond == p.tick / SECOND && l.globalCount < PER_SECOND
    ensures Counted(Limiter(rates, l.globalSecond, l.globalCount + 1), passes + [p], p.tick)
    ensures Sorted(passes + [p], p.tick)
  {
    var all := passes + [p];
    assert all[..|passes|] == passes;
    forall s
      ensures InSecond(all, s) == InSecond(passes, s) + (if s == p.tick / SECOND then 1 else 0)
    {
    }
  }

  lemma AppendKeepsMemory(rates: map<Device, int>, passes: seq<Pass>, p: Pass)
    requires Sorted(passes, p.tick) && Remembered(rates, passes) && AllRecalled(rates, passes, p.tick)
    ensures Remembered(rates[p.key := p.tick], passes + [p])
    ensures AllRecalled(rates[p.key := p.tick], passes + [p], p.tick)
  {
    var all := passes + [p];
    var rates' := rates[p.key := p.tick];
    forall k | k in rates'
      ensures exists i :: 0 <= i < |all| && PassedAt(all[i], k, rates'[k])
    {
      if k == p.key {
        assert PassedAt(all[|passes|], k, p.tick);
      } else {
        var i :| 0 <= i < |passes| && PassedAt(passes[i], k, rates[k]);
        assert PassedAt(all[i], k, rates[k]);
      }
    }
    forall i | 0 <= i < |all|
      ensures Recalled(rates[p.key := p.tick], all[i], p.tick)
    {
      if i < |passes| {
        assert Recalled(rates, passes[i], p.tick);
      }
    }
  }

  lemma AppendKeepsSpacing(rates: map<Device, int>, passes: seq<Pass>, p: Pass)
    requires Spaced(passes) && AllRecalled(rates, passes, p.tick) && p.key !in rates
    ensures Spaced(passes + [p])
  {
    forall i | 0 <= i < |passes| && passes[i].key == p.key
      ensures p.tick - passes[i].tick >= SECOND
    {
      assert Recalled(rates, passes[i], p.tick);
    }
  }

  /** The rate table never holds more than 200 devices. */
  lemma RatesBounded(rates: map<Device, int>, passes: seq<Pass>, tick: int)
    requires forall s :: InSecond(passes, s) <= PER_SECOND
    requires Remembered(rates, passes)
    requires forall k :: k in rates ==> tick - SECOND < rates[k] <= tick
    ensures |rates| <= 200
  {
    var labels := seq(|passes|, i requires 0 <= i < |passes| => passes[i].key);
    var lo, hi := tick - SECOND + 1, tick + 1;
    forall k | k in rates.Keys
      ensures exists i :: LabelAt(labels, passes, i, k, lo, hi)
    {
      var i :| 0 <= i < |passes| && PassedAt(passes[i], k, rates[k]);
      assert LabelAt(labels, passes, i, k, lo, hi);
    }
    DistinctLabels(rates.Keys, labels, passes, lo, hi);
    WindowBound(passes, lo, 1);
  }

  /** Each remembered reply stems from a pass that is less than a permit lifetime older than its expiry. */
  ghost predicate RepliesExplained(replies: map<Id, Reply>, passes: seq<Pass>) {
    forall c :: c in replies ==> exists i :: 0 <= i < |passes| && Issued(passes[i], replies[c].delivery) && replies[c].delivery.commandId == c
  }

  predicate Issued(p: Pass, d: Delivery) {
    p.grant == Some(d) && p.tick < d.validUntilTick < p.tick + PERMIT_US
  }

  ghost predicate AllIssued(passes: seq<Pass>) {
    forall i :: 0 <= i < |passes| && passes[i].grant.Some? ==> Issued(passes[i], passes[i].grant.value)
  }

  /** The reply cache never holds more than 300 unexpired replies. */
  lemma RepliesBounded(replies: map<Id, Reply>, passes: seq<Pass>, tick: int)
    requires forall s :: InSecond(passes, s) <= PER_SECOND
    requires forall i :: 0 <= i < |passes| ==> passes[i].tick <= tick
    requires RepliesExplained(replies, passes)
    requires forall c :: c in replies ==> tick < replies[c].delivery.validUntilTick
    ensures |replies| <= 300
  {
    var labels := seq(|passes|, i requires 0 <= i < |passes| => if passes[i].grant.Some? then passes[i].grant.value.commandId else 0);
    var lo, hi := tick - PERMIT_US + 1, tick + 1;
    forall c | c in replies.Keys
      ensures exists i :: LabelAt(labels, passes, i, c, lo, hi)
    {
      var i :| 0 <= i < |passes| && Issued(passes[i], replies[c].delivery) && replies[c].delivery.commandId == c;
      assert LabelAt(labels, passes, i, c, lo, hi);
    }
    DistinctLabels(replies.Keys, labels, passes, lo, hi);
    WindowBound(passes, lo, 2);
  }

  /** At most 200 requests pass in any million ticks. */
  lemma PassesPerWindow(l: Limiter, passes: seq<Pass>, last: int, from: int)
    requires Explains(l, passes, last)
    ensures CountIn(passes, from, from + SECOND) <= 200
  {
    WindowBound(passes, from, 1);
  }

  /** Of three permits of one device the first has expired before the third is issued. */
  lemma AtMostTwoUnexpired(passes: seq<Pass>, i: nat, j: nat, k: nat, first: Delivery)
    requires Spaced(passes) && i < j < k < |passes|
    requires passes[i].key == passes[j].key == passes[k].key
    requires Issued(passes[i], first)
    ensures first.validUntilTick < passes[k].tick
  {
  }
}
