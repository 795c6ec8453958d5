/** The token-bucket script: lazy refill, cap, consume, retry hint and key TTL. */
module TokenBucket {
  import opened Common
  import Redis

  datatype Preset = Preset(capacity: real, refillPerSec: real) {
    predicate Valid() {
      capacity >= 1.0 && refillPerSec > 0.0
    }
  }

  /** The Redis hash behind one rate-limit key. */
  datatype Bucket = Bucket(tokens: real, lastRefill: int)

  datatype Reply = Reply(allowed: bool, remaining: int, resetMs: int)

  /** Tokens earned over `ms` milliseconds, one millisecond at a time. */
  function Accrued(refillPerSec: real, ms: int): real
    decreases if ms > 0 then ms else 0
  {
    if ms <= 0 then 0.0 else Accrued(refillPerSec, ms - 1) + refillPerSec / 1000.0
  }

  lemma Spread(sec: real, rate: real)
    ensures (sec + 0.001) * rate == sec * rate + rate / 1000.0
  {
  }

  lemma OneMoreMs(before: real, after: real, rate: real)
    requires after == before + 1.0
    ensures after / 1000.0 * rate == before / 1000.0 * rate + rate / 1000.0
  {
    var sec := before / 1000.0;
    assert after / 1000.0 == sec + 0.001;
    Spread(sec, rate);
  }

  /** The script's own formula for the same amount. */
  lemma {:induction false} AccruedIsRateTimesTime(refillPerSec: real, ms: nat)
    ensures Accrued(refillPerSec, ms) == ms as real / 1000.0 * refillPerSec
  {
    if ms > 0 {
      AccruedIsRateTimesTime(refillPerSec, ms - 1);
      OneMoreMs((ms - 1) as real, ms as real, refillPerSec);
      assert Accrued(refillPerSec, ms) == Accrued(refillPerSec, ms - 1) + refillPerSec / 1000.0;
    }
  }

  /** The tokens on hand at `now`, after the lazy refill and the cap; an absent bucket is full. */
  function Level(p: Preset, b: Option<Bucket>, now: int): real {
    match b
    case None => p.capacity
    case Some(b) => Min(p.capacity, b.tokens + Accrued(p.refillPerSec, now - b.lastRefill))
  }

  /** The tokens left after a call that finds `level`. */
  function Spend(level: real): real {
    if level >= 1.0 then level - 1.0 else level
  }

  /** The wait until `level` has grown to one whole token. */
  function ResetMs(p: Preset, level: real): int
    requires p.Valid()
  {
    Ceil((1.0 - level) / p.refillPerSec * 1000.0)
  }

  /** The script's answer to a call that finds `level`. */
  function Answer(p: Preset, level: real): (r: Reply)
    requires p.Valid()
    ensures r.allowed <==> level >= 1.0
  {
    if level >= 1.0 then Reply(true, Spend(level).Floor, 0) else Reply(false, level.Floor, ResetMs(p, level))
  }

  function TtlSeconds(p: Preset): int
    requires p.Valid()
  {
    Ceil(p.capacity / p.refillPerSec) + 1
  }

  /** The bucket the script reads: an expired key reads as absent. */
  function Visible(key: Option<Redis.Entry<Bucket>>, now: int): Option<Bucket> {
    if key.Some? && key.value.Alive(now) then Some(key.value.value) else None
  }

  /** The tokens the script finds under a key. */
  function Found(key: Option<Redis.Entry<Bucket>>, p: Preset, now: int): real {
    Level(p, Visible(key, now), now)
  }

  /** The hash and the expiry the script writes. */
  function Stored(key: Option<Redis.Entry<Bucket>>, p: Preset, now: int): Redis.Entry<Bucket>
    requires p.Valid()
  {
    Redis.Entry(Bucket(Spend(Found(key, p, now)), now), Redis.Ttl(now, TtlSeconds(p)))
  }

  /** The limiter over its whole key space. */
  class TokenBucketRateLimiter {
    var hashes: map<string, Redis.Entry<Bucket>>

    ghost function KeyState(key: string): Option<Redis.Entry<Bucket>>
      reads this
    {
      if key in hashes then Some(hashes[key]) else None
    }

    constructor ()
      ensures hashes == map[]
    {
      hashes := map[];
    }

    method Consume(key: string, capacity: Number, refillPerSec: Number, now: int) returns (r: Result<Reply, RangeError>)
      modifies this
      ensures r.Ok? <==>
        capacity.Finite? && capacity.value >= 1.0 && refillPerSec.Finite? && refillPerSec.value > 0.0
      ensures r.Err? ==> hashes == old(hashes)
      ensures r.Err? ==> r.error == RangeError(
        if capacity.NotFinite? || capacity.value < 1.0 then "capacity" else "refillPerSec")
      ensures r.Ok? ==>
        var was, p := old(KeyState(key)), Preset(capacity.value, refillPerSec.value);
        r.value == Answer(p, Found(was, p, now)) && hashes == old(hashes)[key := Stored(was, p, now)]
    {
      hide ResetMs, TtlSeconds;
      if capacity.NotFinite? || capacity.value < 1.0 {
        return Err(RangeError("capacity"));
      }
      if refillPerSec.NotFinite? || refillPerSec.value <= 0.0 {
        return Err(RangeError("refillPerSec"));
      }
      var preset := Preset(capacity.value, refillPerSec.value);
      var tokens, lastRefill := preset.capacity, now;
      if Redis.Has(hashes, key, now) {
        tokens, lastRefill := hashes[key].value.tokens, hashes[key].value.lastRefill;
      }
      var elapsedMs := Max(0, now - lastRefill);
      var elapsedSec := elapsedMs as real / 1000.0;
      var refill := elapsedSec * preset.refillPerSec;
      assert refill == Accrued(preset.refillPerSec, elapsedMs) by {
        AccruedIsRateTimesTime(preset.refillPerSec, elapsedMs);
      }
      tokens := Min(preset.capacity, tokens + refill);
      lastRefill := now;

      var allowed := false;
      var remaining := tokens.Floor;
      var resetMs := 0;
      if tokens >= 1.0 {
        tokens := tokens - 1.0;
        allowed := true;
        remaining := tokens.Floor;
      } else {
        resetMs := ResetMs(preset, tokens);
      }
      hashes := hashes[key := Redis.Entry(Bucket(tokens, lastRefill), Redis.Ttl(now, TtlSeconds(preset)))];
      r := Ok(Reply(allowed, remaining, resetMs));
    }
  }
}
