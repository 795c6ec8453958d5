/** Several presets sharing one rate-limit key, as the gateway's keys allow. */
module MixedPresets {
  import opened Common
  import opened TokenBucket
  import opened BucketRuns

  ghost predicate FromFamily(calls: seq<Call>, family: set<Preset>) {
    forall i | 0 <= i < |calls| :: calls[i].preset in family
  }

  /** `maxCapacity` is reached by some preset of the family; no preset exceeds it or `maxRate`. */
  ghost predicate Bounds(family: set<Preset>, maxCapacity: real, maxRate: real) {
    && (forall p | p in family :: p.Valid() && p.capacity <= maxCapacity && p.refillPerSec <= maxRate)
    && (exists p :: p in family && p.capacity == maxCapacity)
  }

  /** The least wait after which the key that `p` wrote is gone. */
  function GoneAfterMs(p: Preset): int
    requires p.Valid()
  {
    1000 * TtlSeconds(p) + 1
  }

  /** A key that is gone would have refilled anyway at the greatest rate. */
  ghost predicate TtlsCoverRefill(family: set<Preset>, maxCapacity: real, maxRate: real) {
    forall p | p in family && p.Valid() :: Accrued(maxRate, GoneAfterMs(p)) >= maxCapacity
  }

  /** It is enough that the greatest rate times every time to live reaches the greatest capacity. */
  lemma RateTimesTtlCovers(family: set<Preset>, maxCapacity: real, maxRate: real)
    requires maxRate >= 0.0
    requires forall p | p in family && p.Valid() :: maxRate * TtlSeconds(p) as real >= maxCapacity && TtlSeconds(p) > 0
    ensures TtlsCoverRefill(family, maxCapacity, maxRate)
  {
    forall p | p in family && p.Valid()
      ensures Accrued(maxRate, GoneAfterMs(p)) >= maxCapacity
    {
      var sec := TtlSeconds(p);
      AccruedGrows(maxRate, 1000 * sec, GoneAfterMs(p));
      WholeSeconds(maxRate, sec);
    }
  }

  /** At most maxCapacity + maxRate * W calls allowed in a window of W. */
  ghost predicate WindowHolds(calls: seq<Call>, maxCapacity: real, maxRate: real, j: nat, n: nat)
    requires IsRun(calls) && j <= n < |calls|
  {
    Passed(calls, j, n + 1) as real <= maxCapacity + Accrued(maxRate, calls[n].at - calls[j].at)
  }

  ghost predicate WindowsHold(calls: seq<Call>, maxCapacity: real, maxRate: real)
    requires IsRun(calls)
  {
    forall j: nat, n: nat | j <= n < |calls| :: WindowHolds(calls, maxCapacity, maxRate, j, n)
  }

  lemma {:induction false} AccruedByRate(slow: real, fast: real, ms: int)
    requires slow <= fast
    ensures Accrued(slow, ms) <= Accrued(fast, ms)
    decreases if ms > 0 then ms else 0
  {
    if ms > 0 {
      AccruedByRate(slow, fast, ms - 1);
    }
  }

  lemma FoundAfterCall(calls: seq<Call>, n: nat)
    requires IsRun(calls) && n + 1 < |calls|
    ensures var p, q, gap := calls[n].preset, calls[n + 1].preset, calls[n + 1].at - calls[n].at;
      FoundBy(calls, n + 1) ==
        if gap >= GoneAfterMs(p) then q.capacity
        else Min(q.capacity, Spend(FoundBy(calls, n)) + Accrued(q.refillPerSec, gap))
  {
  }

  /** What one call finds, from what the previous one left. */
  lemma FoundStep(calls: seq<Call>, family: set<Preset>, maxCapacity: real, maxRate: real, n: nat)
    requires IsRun(calls) && FromFamily(calls, family) && n + 1 < |calls|
    requires Bounds(family, maxCapacity, maxRate) && TtlsCoverRefill(family, maxCapacity, maxRate)
    requires 0.0 <= FoundBy(calls, n)
    ensures 0.0 <= FoundBy(calls, n + 1) <= Spend(FoundBy(calls, n)) + Accrued(maxRate, calls[n + 1].at - calls[n].at)
  {
    var p, q, gap := calls[n].preset, calls[n + 1].preset, calls[n + 1].at - calls[n].at;
    assert p in family && q in family;
    FoundAfterCall(calls, n);
    AccruedGrows(q.refillPerSec, 0, gap);
    AccruedByRate(q.refillPerSec, maxRate, gap);
    if gap >= GoneAfterMs(p) {
      AccruedGrows(maxRate, GoneAfterMs(p), gap);
    }
  }

  lemma {:induction false} FoundFitsWindow(calls: seq<Call>, family: set<Preset>, maxCapacity: real, maxRate: real,
                                           j: nat, n: nat)
    requires IsRun(calls) && FromFamily(calls, family) && j <= n < |calls|
    requires Bounds(family, maxCapacity, maxRate) && TtlsCoverRefill(family, maxCapacity, maxRate)
    ensures 0.0 <= FoundBy(calls, n) <=
      maxCapacity + Accrued(maxRate, calls[n].at - calls[j].at) - Passed(calls, j, n) as real
    decreases n
  {
    assert calls[n].preset in family;
    AccruedGrows(maxRate, 0, 0);
    if n > 0 {
      FoundFitsWindow(calls, family, maxCapacity, maxRate, if j < n then j else n - 1, n - 1);
      FoundStep(calls, family, maxCapacity, maxRate, n - 1);
      if j < n {
        AccruedAdds(maxRate, calls[n - 1].at - calls[j].at, calls[n].at - calls[n - 1].at);
      }
    }
  }

  /** Any interleaving of the family's presets keeps every window within maxCapacity + maxRate * W. */
  lemma MixedRunsKeepWindows(calls: seq<Call>, family: set<Preset>, maxCapacity: real, maxRate: real)
    requires IsRun(calls) && FromFamily(calls, family)
    requires Bounds(family, maxCapacity, maxRate) && TtlsCoverRefill(family, maxCapacity, maxRate)
    ensures WindowsHold(calls, maxCapacity, maxRate)
  {
    forall j: nat, n: nat | j <= n < |calls|
      ensures WindowHolds(calls, maxCapacity, maxRate, j, n)
    {
      FoundFitsWindow(calls, family, maxCapacity, maxRate, j, n);
    }
  }

  // ---------------------------------------------------------------- the condition is needed

  /** Drain a full key with the roomiest preset, touch it with `p`, wait out `p`'s time to live, drain it again. */
  function DrainTwice(p: Preset, big: Preset, size: nat): (calls: seq<Call>)
    requires p.Valid() && big.Valid()
    ensures |calls| == 2 * size + 1 && IsRun(calls)
  {
    var wait := GoneAfterMs(p);
    TtlRefills(p, wait);
    seq(2 * size + 1, i =>
      if i < size then Call(0, big) else if i == size then Call(0, p) else Call(wait, big))
  }

  lemma FoundAtSameInstant(calls: seq<Call>, n: nat)
    requires IsRun(calls) && n + 1 < |calls| && calls[n].at == calls[n + 1].at
    ensures FoundBy(calls, n + 1) == Min(calls[n + 1].preset.capacity, Spend(FoundBy(calls, n)))
  {
    FoundAfterCall(calls, n);
    TtlRefills(calls[n].preset, GoneAfterMs(calls[n].preset));
  }

  /** Each drain takes every whole token; the touch finds none. */
  lemma {:induction false} DrainTwiceFinds(p: Preset, big: Preset, n: nat)
    requires p.Valid() && big.Valid() && n <= 2 * big.capacity.Floor
    ensures FoundBy(DrainTwice(p, big, big.capacity.Floor), n) ==
      big.capacity - (if n <= big.capacity.Floor then n else n - 1 - big.capacity.Floor) as real
    decreases n
  {
    var size := big.capacity.Floor;
    var run := DrainTwice(p, big, size);
    if n == size + 1 {
      FoundAfterCall(run, n - 1);
    } else if n > 0 {
      hide FoundBy;
      DrainTwiceFinds(p, big, n - 1);
      FoundAtSameInstant(run, n - 1);
    }
  }

  lemma {:induction false} DrainTwicePasses(p: Preset, big: Preset, n: nat)
    requires p.Valid() && big.Valid() && n <= 2 * big.capacity.Floor + 1
    ensures Passed(DrainTwice(p, big, big.capacity.Floor), 0, n) == if n <= big.capacity.Floor then n else n - 1
    decreases n
  {
    if n > 0 {
      DrainTwicePasses(p, big, n - 1);
      DrainTwiceFinds(p, big, n - 1);
    }
  }

  /**
   * One preset whose time to live is too short is enough to break the window bound. For a whole-number capacity any
   * shortage will do; otherwise it must exceed what the two drains leave unused.
   */
  lemma ShortTtlBreaksWindow(p: Preset, big: Preset, maxRate: real)
    requires p.Valid() && big.Valid()
    requires big.capacity + Accrued(maxRate, GoneAfterMs(p)) < (2 * big.capacity.Floor) as real
    ensures var run := DrainTwice(p, big, big.capacity.Floor);
      !WindowHolds(run, big.capacity, maxRate, 0, 2 * big.capacity.Floor)
  {
    var size := big.capacity.Floor;
    var run := DrainTwice(p, big, size);
    DrainTwicePasses(p, big, 2 * size + 1);
    assert run[2 * size].at - run[0].at == GoneAfterMs(p);
  }

  /**
   * For a whole-number greatest capacity the condition on the times to live is exact:
   * every run of the family keeps every window iff it holds.
   */
  lemma WindowsHoldIffTtlsCoverRefill(family: set<Preset>, size: nat, maxRate: real)
    requires Bounds(family, size as real, maxRate)
    ensures TtlsCoverRefill(family, size as real, maxRate) <==>
      forall calls: seq<Call> | IsRun(calls) && FromFamily(calls, family) :: WindowsHold(calls, size as real, maxRate)
  {
    if TtlsCoverRefill(family, size as real, maxRate) {
      forall calls: seq<Call> | IsRun(calls) && FromFamily(calls, family)
        ensures WindowsHold(calls, size as real, maxRate)
      {
        MixedRunsKeepWindows(calls, family, size as real, maxRate);
      }
    } else {
      var p :| p in family && p.Valid() && Accrued(maxRate, GoneAfterMs(p)) < size as real;
      var big :| big in family && big.capacity == size as real;
      ShortTtlBreaksWindow(p, big, maxRate);
      assert FromFamily(DrainTwice(p, big, size), family);
    }
  }

  // ---------------------------------------------------------------- fractional capacities

  /** A greatest rate of `perMs` whole tokens each millisecond. */
  function WholeRate(perMs: nat): real {
    1000.0 * perMs as real
  }

  /** Tokens earned at that rate. */
  function Earned(perMs: nat, ms: nat): nat {
    if ms == 0 then 0 else Earned(perMs, ms - 1) + perMs
  }

  lemma {:induction false} AccruedWhole(perMs: nat, ms: nat)
    ensures Accrued(WholeRate(perMs), ms) == Earned(perMs, ms) as real
  {
    if ms > 0 {
      AccruedWhole(perMs, ms - 1);
      assert WholeRate(perMs) / 1000.0 == perMs as real;
    }
  }

  lemma {:induction false} EarnedAdds(perMs: nat, a: nat, b: nat)
    ensures Earned(perMs, a + b) == Earned(perMs, a) + Earned(perMs, b)
    decreases b
  {
    if b > 0 {
      EarnedAdds(perMs, a, b - 1);
    }
  }

  function WholeFound(calls: seq<Call>, n: nat): int
    requires IsRun(calls) && n < |calls|
  {
    FoundBy(calls, n).Floor
  }

  lemma WholeAfterWait(left: real, earned: real, whole: int, found: real)
    requires found <= left + earned && earned <= whole as real
    ensures found.Floor <= left.Floor + whole
  {
  }

  /** Every key that is gone would have refilled the whole part of the greatest capacity. */
  ghost predicate CoversWhole(family: set<Preset>, maxCapacity: real, perMs: nat) {
    && Bounds(family, maxCapacity, WholeRate(perMs))
    && TtlsCoverRefill(family, maxCapacity.Floor as real, WholeRate(perMs))
  }

  /** What one call finds in whole tokens, from what the previous one left. */
  lemma WholeTokensStep(calls: seq<Call>, family: set<Preset>, maxCapacity: real, perMs: nat, n: nat)
    requires IsRun(calls) && FromFamily(calls, family) && n + 1 < |calls| && 0 <= WholeFound(calls, n)
    requires CoversWhole(family, maxCapacity, perMs)
    ensures 0 <= WholeFound(calls, n + 1)
    ensures WholeFound(calls, n + 1) <=
      WholeFound(calls, n) - (if Allowed(calls, n) then 1 else 0) + Earned(perMs, calls[n + 1].at - calls[n].at)
  {
    var p, q, gap := calls[n].preset, calls[n + 1].preset, calls[n + 1].at - calls[n].at;
    assert p in family && q in family;
    FoundAfterCall(calls, n);
    hide FoundBy;
    AccruedWhole(perMs, gap);
    AccruedGrows(q.refillPerSec, 0, gap);
    AccruedByRate(q.refillPerSec, WholeRate(perMs), gap);
    if gap >= GoneAfterMs(p) {
      AccruedGrows(WholeRate(perMs), GoneAfterMs(p), gap);
      assert maxCapacity.Floor <= Earned(perMs, gap);
    } else {
      WholeAfterWait(Spend(FoundBy(calls, n)), Accrued(q.refillPerSec, gap), Earned(perMs, gap), FoundBy(calls, n + 1));
    }
  }

  lemma FirstWholeFound(calls: seq<Call>, family: set<Preset>, maxCapacity: real, perMs: nat, n: nat)
    requires IsRun(calls) && FromFamily(calls, family) && n < |calls|
    requires CoversWhole(family, maxCapacity, perMs)
    ensures WholeFound(calls, n) <= maxCapacity.Floor
    ensures n == 0 ==> 0 <= WholeFound(calls, n)
  {
    assert calls[n].preset in family;
  }

  /** The whole tokens found fit the window from call `j` on. */
  ghost predicate WholeFits(calls: seq<Call>, size: int, perMs: nat, j: nat, n: nat)
    requires IsRun(calls) && j <= n < |calls|
  {
    0 <= WholeFound(calls, n) <= size + Earned(perMs, calls[n].at - calls[j].at) - Passed(calls, j, n)
  }

  lemma EmptyWindowFits(calls: seq<Call>, size: int, perMs: nat, n: nat)
    requires IsRun(calls) && n < |calls| && 0 <= WholeFound(calls, n) <= size
    ensures WholeFits(calls, size, perMs, n, n)
  {
    hide WholeFound;
  }

  lemma WholeFitsStep(calls: seq<Call>, size: int, perMs: nat, j: nat, n: nat)
    requires IsRun(calls) && j <= n && n + 1 < |calls| && WholeFits(calls, size, perMs, j, n)
    requires 0 <= WholeFound(calls, n + 1) <=
      WholeFound(calls, n) - (if Allowed(calls, n) then 1 else 0) + Earned(perMs, calls[n + 1].at - calls[n].at)
    ensures WholeFits(calls, size, perMs, j, n + 1)
  {
    var before, gap := calls[n].at - calls[j].at, calls[n + 1].at - calls[n].at;
    hide WholeFound, FoundBy, Earned, Allowed;
    EarnedAdds(perMs, before, gap);
    assert before + gap == calls[n + 1].at - calls[j].at;
  }

  lemma {:induction false} WholeTokensFit(calls: seq<Call>, family: set<Preset>, maxCapacity: real, perMs: nat,
                                          j: nat, n: nat)
    requires IsRun(calls) && FromFamily(calls, family) && j <= n < |calls|
    requires CoversWhole(family, maxCapacity, perMs)
    ensures WholeFits(calls, maxCapacity.Floor, perMs, j, n)
    decreases n
  {
    hide CoversWhole, FromFamily, WholeFound, FoundBy, Allowed, Passed, Earned;
    FirstWholeFound(calls, family, maxCapacity, perMs, n);
    if n > 0 {
      var last := if j < n then j else n - 1;
      WholeTokensFit(calls, family, maxCapacity, perMs, last, n - 1);
      assert 0 <= WholeFound(calls, n - 1);
      WholeTokensStep(calls, family, maxCapacity, perMs, n - 1);
      WholeFitsStep(calls, maxCapacity.Floor, perMs, last, n - 1);
    }
    if j == n {
      EmptyWindowFits(calls, maxCapacity.Floor, perMs, n);
    }
  }

  lemma WholeShortage(capacity: real, earned: nat)
    requires earned as real < capacity.Floor as real
    ensures capacity + earned as real < (2 * capacity.Floor) as real
  {
    var size := capacity.Floor;
    assert earned + 1 <= size;
    assert capacity < size as real + 1.0;
  }

  lemma WholeRateKeepsWindow(calls: seq<Call>, family: set<Preset>, maxCapacity: real, perMs: nat, j: nat, n: nat)
    requires IsRun(calls) && FromFamily(calls, family) && j <= n < |calls|
    requires CoversWhole(family, maxCapacity, perMs)
    ensures WindowHolds(calls, maxCapacity, WholeRate(perMs), j, n)
  {
    WholeTokensFit(calls, family, maxCapacity, perMs, j, n);
    hide Earned, Accrued, After;
    AccruedWhole(perMs, calls[n].at - calls[j].at);
    var earned, size := Earned(perMs, calls[n].at - calls[j].at), maxCapacity.Floor;
    assert Passed(calls, j, n + 1) <= size + earned;
    assert (size + earned) as real <= maxCapacity + earned as real;
  }

  /**
   * At a greatest rate of whole tokens per millisecond the fraction of the greatest capacity can never be spent, so the
   * exact condition, for every capacity, is that the times to live refill its whole part.
   */
  lemma WholeRateWindowsHoldIff(family: set<Preset>, maxCapacity: real, perMs: nat)
    requires Bounds(family, maxCapacity, WholeRate(perMs))
    ensures TtlsCoverRefill(family, maxCapacity.Floor as real, WholeRate(perMs)) <==>
      forall calls: seq<Call> | IsRun(calls) && FromFamily(calls, family) ::
        WindowsHold(calls, maxCapacity, WholeRate(perMs))
  {
    hide Accrued, WholeRate, WindowHolds, Earned, IsRun;
    if TtlsCoverRefill(family, maxCapacity.Floor as real, WholeRate(perMs)) {
      forall calls: seq<Call>, j: nat, n: nat | IsRun(calls) && FromFamily(calls, family) && j <= n < |calls|
        ensures WindowHolds(calls, maxCapacity, WholeRate(perMs), j, n)
      {
        WholeRateKeepsWindow(calls, family, maxCapacity, perMs, j, n);
      }
    } else {
      var p :| p in family && p.Valid() && Accrued(WholeRate(perMs), GoneAfterMs(p)) < maxCapacity.Floor as real;
      var big :| big in family && big.capacity == maxCapacity;
      WholeShortageBreaks(p, big, perMs);
      assert FromFamily(DrainTwice(p, big, maxCapacity.Floor), family);
    }
  }

  lemma WholeShortageBreaks(p: Preset, big: Preset, perMs: nat)
    requires p.Valid() && big.Valid()
    requires Accrued(WholeRate(perMs), GoneAfterMs(p)) < big.capacity.Floor as real
    ensures var run, size := DrainTwice(p, big, big.capacity.Floor), big.capacity.Floor;
      !WindowHolds(run, big.capacity, WholeRate(perMs), 0, 2 * size)
  {
    hide Accrued, WholeRate, WindowHolds, Earned;
    TtlRefills(p, GoneAfterMs(p));
    AccruedWhole(perMs, GoneAfterMs(p));
    WholeShortage(big.capacity, Earned(perMs, GoneAfterMs(p)));
    ShortTtlBreaksWindow(p, big, WholeRate(perMs));
  }

  lemma {:induction false} EarnedOnePerMs(ms: nat)
    ensures Earned(1, ms) == ms
  {
    if ms > 0 {
      EarnedOnePerMs(ms - 1);
    }
  }

  const TOUCH := Preset(1.0, 1000.0)
  const ROOMY := Preset(2001.5, 1000.0)

  /**
   * So a fractional capacity can do without covering times to live: here the touching preset's key is gone when only
   * 2001 of 2001.5 tokens are back, and still no run ever exceeds a window.
   */
  lemma FractionCanSpareCover()
    ensures Bounds({TOUCH, ROOMY}, 2001.5, WholeRate(1)) && !TtlsCoverRefill({TOUCH, ROOMY}, 2001.5, WholeRate(1))
    ensures forall calls: seq<Call> | IsRun(calls) && FromFamily(calls, {TOUCH, ROOMY}) ::
      WindowsHold(calls, 2001.5, WholeRate(1))
  {
    var family := {TOUCH, ROOMY};
    assert ROOMY in family && TOUCH in family;
    assert TtlSeconds(TOUCH) == 2 && TtlSeconds(ROOMY) == 4;
    AccruedWhole(1, 2001);
    AccruedWhole(1, 4001);
    EarnedOnePerMs(2001);
    EarnedOnePerMs(4001);
    WholeRateWindowsHoldIff(family, 2001.5, 1);
  }

  /** The gateway's default presets (100 at 1.6667/s, 10 at 0.1667/s) meet the condition. */
  lemma GatewayDefaultsKeepWindows(calls: seq<Call>)
    requires IsRun(calls)
    requires FromFamily(calls, {Preset(100.0, 1.6667), Preset(10.0, 0.1667)})
    ensures WindowsHold(calls, 100.0, 1.6667)
  {
    var family := {Preset(100.0, 1.6667), Preset(10.0, 0.1667)};
    assert Preset(100.0, 1.6667) in family;
    assert TtlSeconds(Preset(100.0, 1.6667)) == 61 == TtlSeconds(Preset(10.0, 0.1667));
    RateTimesTtlCovers(family, 100.0, 1.6667);
    MixedRunsKeepWindows(calls, family, 100.0, 1.6667);
  }
}
