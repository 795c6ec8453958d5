/** Retrying with exponentially growing delays. */
module Backoff {
  import opened Common

  const MAX_RETRIES_CAP := 50
  const MAX_DELAY_CAP := 60000.0

  datatype Options = Options(retries: Option<Number>, initialMs: Option<Number>, maxMs: Option<Number>)

  /** The options after defaults and clamping. */
  datatype Plan = Plan(retries: int, initialMs: real, maxMs: real) {
    predicate Valid() {
      0 <= retries <= MAX_RETRIES_CAP && 0.0 < initialMs <= maxMs <= MAX_DELAY_CAP
    }
  }

  predicate Acceptable(o: Options) {
    && OrDefault(o.retries, 3.0).Finite? && OrDefault(o.retries, 3.0).value >= 0.0
    && OrDefault(o.initialMs, 100.0).Finite? && OrDefault(o.initialMs, 100.0).value > 0.0
    && OrDefault(o.maxMs, 1000.0).Finite? && OrDefault(o.maxMs, 1000.0).value > 0.0
  }

  function PlanFor(o: Options): (p: Plan)
    requires Acceptable(o)
    ensures p.Valid()
  {
    var retries := OrDefault(o.retries, 3.0).value.Floor;
    var initialMs := Min(OrDefault(o.initialMs, 100.0).value, MAX_DELAY_CAP);
    var maxMs := Min(OrDefault(o.maxMs, 1000.0).value, MAX_DELAY_CAP);
    Plan(if retries <= MAX_RETRIES_CAP then retries else MAX_RETRIES_CAP,
         initialMs,
         if maxMs < initialMs then initialMs else maxMs)
  }

  function Pow2(n: nat): int {
    if n == 0 then 1 else 2 * Pow2(n - 1)
  }

  /** The `k`-th doubling of the initial delay, before the cap. */
  function Doubled(p: Plan, k: nat): real {
    p.initialMs * Pow2(k) as real
  }

  function Delay(p: Plan, k: nat): real {
    Min(Doubled(p, k), p.maxMs)
  }

  /**
   * `fn(k)` is the outcome of the k-th call. Returns the last outcome, the number of calls made and the
   * delays slept between them.
   */
  method WithExponentialBackoff<T>(fn: nat -> Outcome<T>, options: Options)
    returns (r: Result<Outcome<T>, RangeError>, calls: nat, delays: seq<real>)
    ensures r.Ok? <==>
      && (options.retries.None? || (options.retries.value.Finite? && options.retries.value.value >= 0.0))
      && (options.initialMs.None? || (options.initialMs.value.Finite? && options.initialMs.value.value > 0.0))
      && (options.maxMs.None? || (options.maxMs.value.Finite? && options.maxMs.value.value > 0.0))
    ensures r.Ok? <==> Acceptable(options)
    ensures r.Err? ==> calls == 0 && delays == []
    ensures r.Err? ==> r.error == RangeError(
      if OrDefault(options.retries, 3.0).NotFinite? || OrDefault(options.retries, 3.0).value < 0.0 then "retries"
      else if OrDefault(options.initialMs, 100.0).NotFinite? || OrDefault(options.initialMs, 100.0).value <= 0.0
      then "initialMs"
      else "maxMs")
    ensures r.Ok? ==>
      var p := PlanFor(options);
      && 1 <= calls <= p.retries + 1
      && r.value == fn(calls - 1)
      && (forall k: nat | k < calls - 1 :: fn(k).Rejected?)
      && (r.value.Rejected? ==> calls == p.retries + 1)
      && |delays| == calls - 1
      && (forall k: nat | k < |delays| :: delays[k] == Delay(p, k))
    ensures r.Ok? ==>
      var retries := if options.retries.Some? then options.retries.value.value else 3.0;
      var initial := if options.initialMs.Some? then options.initialMs.value.value else 100.0;
      var max := if options.maxMs.Some? then options.maxMs.value.value else 1000.0;
      var most := if retries >= 50.0 then 51 else retries.Floor + 1;
      && calls <= most && (r.value.Rejected? ==> calls == most)
      && DoublingFrom(delays, Min(initial, 60000.0), Min(max, 60000.0))
  {
    hide Delay, Doubled, DoublingFrom;
    calls, delays := 0, [];
    var retriesOption := OrDefault(options.retries, 3.0);
    if retriesOption.NotFinite? || retriesOption.value < 0.0 {
      return Err(RangeError("retries")), calls, delays;
    }
    var retries := retriesOption.value.Floor;
    if retries > MAX_RETRIES_CAP {
      retries := MAX_RETRIES_CAP;
    }
    var initialOption := OrDefault(options.initialMs, 100.0);
    if initialOption.NotFinite? || initialOption.value <= 0.0 {
      return Err(RangeError("initialMs")), calls, delays;
    }
    var initialMs := Min(initialOption.value, MAX_DELAY_CAP);
    var maxOption := OrDefault(options.maxMs, 1000.0);
    if maxOption.NotFinite? || maxOption.value <= 0.0 {
      return Err(RangeError("maxMs")), calls, delays;
    }
    var maxMs := Min(maxOption.value, MAX_DELAY_CAP);
    if maxMs < initialMs {
      maxMs := initialMs;
    }
    ghost var p := PlanFor(options);
    assert p == Plan(retries, initialMs, maxMs);

    var attempt: nat := 0;
    while true
      invariant attempt <= retries && calls == attempt == |delays|
      invariant forall k: nat | k < calls :: fn(k).Rejected?
      invariant forall k: nat | k < |delays| :: delays[k] == Delay(p, k)
      decreases retries - attempt
    {
      var outcome := fn(calls);
      calls := calls + 1;
      if outcome.Resolved? {
        DelaysDouble(p, delays, Min(maxOption.value, MAX_DELAY_CAP));
        return Ok(outcome), calls, delays;
      }
      attempt := attempt + 1;
      if attempt > retries {
        DelaysDouble(p, delays, Min(maxOption.value, MAX_DELAY_CAP));
        return Ok(outcome), calls, delays;
      }
      delays := delays + [Delay(Plan(retries, initialMs, maxMs), attempt - 1)];
    }
  }

  /** The delays start at `first` and double up to `cap`, but no delay is below `first`. */
  ghost predicate DoublingFrom(delays: seq<real>, first: real, cap: real) {
    && (|delays| > 0 ==> delays[0] == first)
    && (forall i, j | 0 <= i && j == i + 1 < |delays| ::
          delays[j] == Min(2.0 * delays[i], if cap < first then first else cap))
  }

  lemma DelaysDouble(p: Plan, delays: seq<real>, cap: real)
    requires p.Valid() && p.maxMs == if cap < p.initialMs then p.initialMs else cap
    requires forall k: nat | k < |delays| :: delays[k] == Delay(p, k)
    ensures DoublingFrom(delays, p.initialMs, cap)
  {
    forall i, j | 0 <= i && j == i + 1 < |delays|
      ensures delays[j] == Min(2.0 * delays[i], p.maxMs)
    {
      DoublingGrows(p, i);
    }
  }

  lemma DoublingGrows(p: Plan, k: nat)
    requires p.initialMs > 0.0
    ensures Doubled(p, k + 1) == Doubled(p, k) + Doubled(p, k) && Doubled(p, k) > 0.0
  {
    PowPositive(k);
    assert Pow2(k + 1) as real == 2.0 * Pow2(k) as real;
  }

  lemma {:induction false} PowPositive(k: nat)
    ensures Pow2(k) >= 1
  {
    if k > 0 {
      PowPositive(k - 1);
    }
  }

  /** Delays never decrease. */
  lemma {:induction false} DelaysNeverDecrease(p: Plan, i: nat, j: nat)
    requires p.Valid() && i <= j
    ensures 0.0 < Delay(p, i) <= Delay(p, j) <= p.maxMs
    decreases j
  {
    DoublingGrows(p, i);
    if i < j {
      DelaysNeverDecrease(p, i, j - 1);
      DoublingGrows(p, j - 1);
    }
  }

  /** The first `n` delays together. */
  function Total(p: Plan, n: nat): real {
    if n == 0 then 0.0 else Total(p, n - 1) + Delay(p, n - 1)
  }

  /** How many of the first `n` delays are still below the cap. */
  function Uncapped(p: Plan, n: nat): nat {
    if n == 0 then 0 else Uncapped(p, n - 1) + (if Doubled(p, n - 1) < p.maxMs then 1 else 0)
  }

  /** The delays below the cap come first. */
  lemma {:induction false} UncappedFirst(p: Plan, n: nat)
    requires p.Valid()
    ensures Uncapped(p, n) <= n
    ensures n > 0 && Doubled(p, n - 1) < p.maxMs ==> Uncapped(p, n) == n
  {
    if n > 0 {
      UncappedFirst(p, n - 1);
      if n > 1 {
        DoublingGrows(p, n - 2);
      }
    }
  }

  /** The sleep time is a doubling sum, cut off at maxMs. */
  lemma {:induction false} TotalIsClosedForm(p: Plan, n: nat)
    requires p.Valid()
    ensures Uncapped(p, n) <= n
    ensures Total(p, n) == (Doubled(p, Uncapped(p, n)) - p.initialMs) + (n - Uncapped(p, n)) as real * p.maxMs
  {
    UncappedFirst(p, n);
    if n > 0 {
      TotalIsClosedForm(p, n - 1);
      if Doubled(p, n - 1) < p.maxMs {
        DoublingGrows(p, n - 1);
      } else {
        OneMoreTerm(n - Uncapped(p, n), p.maxMs);
      }
    } else {
      assert Doubled(p, 0) == p.initialMs;
    }
  }

  lemma OneMoreTerm(k: int, x: real)
    ensures k as real * x == (k - 1) as real * x + x
  {
  }

  function Sum(delays: seq<real>): real {
    if delays == [] then 0.0 else Sum(delays[..|delays| - 1]) + delays[|delays| - 1]
  }

  /** What `WithExponentialBackoff` slept in all. */
  lemma {:induction false} SleptTotal(p: Plan, delays: seq<real>)
    requires p.Valid() && |delays| <= p.retries
    requires forall k: nat | k < |delays| :: delays[k] == Delay(p, k)
    ensures var n, m := |delays|, Uncapped(p, |delays|);
      m <= n && Sum(delays) == (Doubled(p, m) - p.initialMs) + (n - m) as real * p.maxMs <= 50.0 * MAX_DELAY_CAP
  {
    hide Doubled, Uncapped, Total, Sum, Delay;
    SumIsTotal(p, delays);
    TotalIsClosedForm(p, |delays|);
    TotalIsBounded(p, |delays|);
  }

  lemma {:induction false} SumIsTotal(p: Plan, delays: seq<real>)
    requires forall k: nat | k < |delays| :: delays[k] == Delay(p, k)
    ensures Sum(delays) == Total(p, |delays|)
    decreases |delays|
  {
    if delays != [] {
      SumIsTotal(p, delays[..|delays| - 1]);
    }
  }

  /** No call sleeps more than 50 times 60 seconds in all. */
  lemma {:induction false} TotalIsBounded(p: Plan, n: nat)
    requires p.Valid()
    ensures Total(p, n) <= n as real * MAX_DELAY_CAP
    ensures n <= p.retries ==> Total(p, n) <= 50.0 * MAX_DELAY_CAP
  {
    if n > 0 {
      TotalIsBounded(p, n - 1);
    }
  }
}
