/** Counting whole periods in a stretch of time. */
module Periods {

  /** `k` periods that fit into a stretch are no more than the quotient. */
  lemma FullPeriods(k: int, elapsed: int, period: int)
    requires period > 0 && k * period <= elapsed
    ensures k <= elapsed / period
  {
    assert elapsed < (elapsed / period + 1) * period;
    Monotone(elapsed / period + 1, k, period);
  }

  /** Exactly `n` periods fit into `n` periods. */
  lemma WholePeriods(n: int, period: int)
    requires period > 0
    ensures n * period / period == n
  {
    var total := n * period;
    FullPeriods(n, total, period);
    assert total / period * period <= total;
    assert (n + 1) * period == total + period;
    Monotone(n + 1, total / period, period);
  }

  lemma Monotone(a: int, b: int, k: int)
    requires k >= 0
    ensures a <= b ==> a * k <= b * k
  {
  }
}
