/**
 * Whole runs of calls on one rate-limit key, in the order Redis runs the script.
 * The reference is a window constraint over every earlier call; the script only keeps one counter.
 */
module BucketRuns {
  import opened Common
  import opened TokenBucket
  import Redis

  datatype Call = Call(at: int, preset: Preset)

  /** A run on one key: valid presets, clock never going back. */
  ghost predicate IsRun(calls: seq<Call>) {
    && (forall i | 0 <= i < |calls| :: calls[i].preset.Valid())
    && (forall i, j | 0 <= i <= j < |calls| :: calls[i].at <= calls[j].at)
  }

  ghost predicate UsesOnly(calls: seq<Call>, p: Preset) {
    forall i | 0 <= i < |calls| :: calls[i].preset == p
  }

  /** The key after the first `n` calls; it starts absent. */
  function After(calls: seq<Call>, n: nat): Option<Redis.Entry<Bucket>>
    requires IsRun(calls) && n <= |calls|
  {
    if n == 0 then None
    else Some(Stored(After(calls, n - 1), calls[n - 1].preset, calls[n - 1].at))
  }

  /** The tokens call `n` finds. */
  function FoundBy(calls: seq<Call>, n: nat): real
    requires IsRun(calls) && n < |calls|
  {
    Found(After(calls, n), calls[n].preset, calls[n].at)
  }

  function ReplyTo(calls: seq<Call>, n: nat): (r: Reply)
    requires IsRun(calls) && n < |calls|
    ensures r.allowed <==> Allowed(calls, n)
  {
    Answer(calls[n].preset, FoundBy(calls, n))
  }

  predicate Allowed(calls: seq<Call>, n: nat)
    requires IsRun(calls) && n < |calls|
  {
    FoundBy(calls, n) >= 1.0
  }

  /** Calls allowed among `from`, ..., `until - 1`. */
  function Passed(calls: seq<Call>, from: nat, until: nat): nat
    requires IsRun(calls) && from <= until <= |calls|
    decreases until
  {
    if from == until then 0
    else Passed(calls, from, until - 1) + (if Allowed(calls, until - 1) then 1 else 0)
  }

  /** The same key kept for ever: no expiry. */
  function AfterForever(calls: seq<Call>, n: nat): Option<Bucket>
    requires IsRun(calls) && n <= |calls|
    decreases n, 0
  {
    if n == 0 then None
    else Some(Bucket(Spend(LevelForever(calls, n - 1)), calls[n - 1].at))
  }

  function LevelForever(calls: seq<Call>, n: nat): real
    requires IsRun(calls) && n < |calls|
    decreases n, 1
  {
    Level(calls[n].preset, AfterForever(calls, n), calls[n].at)
  }

  // ---------------------------------------------------------------- arithmetic

  lemma {:induction false} AccruedAdds(rate: real, a: nat, b: nat)
    ensures Accrued(rate, a + b) == Accrued(rate, a) + Accrued(rate, b)
    decreases b
  {
    if b > 0 {
      AccruedAdds(rate, a, b - 1);
    }
  }

  lemma {:induction false} AccruedGrows(rate: real, a: int, b: int)
    requires rate >= 0.0 && a <= b
    ensures 0.0 <= Accrued(rate, a) <= Accrued(rate, b)
    decreases if b > 0 then b else 0
  {
    if b > 0 {
      AccruedGrows(rate, if a < b then a else b - 1, b - 1);
    }
  }

  lemma Scale(a: real, b: real, k: real)
    requires a <= b && k >= 0.0
    ensures a * k <= b * k
  {
  }

  lemma ScaleStrictly(a: real, b: real, k: real)
    requires a < b && k > 0.0
    ensures a * k < b * k
  {
  }

  /** A time to live of ceil(capacity / refillPerSec) + 1 seconds is enough to refill from empty. */
  lemma TtlRefills(p: Preset, ms: int)
    requires p.Valid() && ms >= 1000 * TtlSeconds(p)
    ensures TtlSeconds(p) > 0 && Accrued(p.refillPerSec, ms) >= p.capacity
  {
    var need := p.capacity / p.refillPerSec;
    assert need > 0.0 && need * p.refillPerSec == p.capacity;
    assert ms as real / 1000.0 >= need;
    Scale(need, ms as real / 1000.0, p.refillPerSec);
    AccruedIsRateTimesTime(p.refillPerSec, ms);
  }

  // ---------------------------------------------------------------- expiry is invisible

  /** Stored tokens lie between 0 and the capacity. */
  lemma {:induction false} LevelInRange(calls: seq<Call>, p: Preset, n: nat)
    requires IsRun(calls) && UsesOnly(calls, p) && n < |calls|
    ensures 0.0 <= LevelForever(calls, n) <= p.capacity
    decreases n
  {
    assert calls[n].preset == p;
    if n > 0 {
      LevelInRange(calls, p, n - 1);
      AccruedGrows(p.refillPerSec, 0, calls[n].at - calls[n - 1].at);
    }
  }

  /**
   * Dropping the key after its time to live and re-creating it full changes nothing: every call finds the tokens
   * it would find under a key that never expires, gets the same reply and stores the same bucket.
   */
  lemma {:induction false} ExpiryIsInvisible(calls: seq<Call>, p: Preset, n: nat)
    requires IsRun(calls) && UsesOnly(calls, p) && n < |calls|
    ensures FoundBy(calls, n) == LevelForever(calls, n)
    ensures ReplyTo(calls, n) == Answer(p, LevelForever(calls, n))
    ensures After(calls, n + 1).value.value == AfterForever(calls, n + 1).value
    decreases n
  {
    assert calls[n].preset == p;
    if n > 0 {
      ExpiryIsInvisible(calls, p, n - 1);
      assert calls[n - 1].preset == p;
      if Visible(After(calls, n), calls[n].at).None? {
        LevelInRange(calls, p, n - 1);
        TtlRefills(p, calls[n].at - calls[n - 1].at);
      }
    }
  }

  // ---------------------------------------------------------------- the exact window constraint

  /** What the window that opens with call `j` leaves for call `n`. */
  function Room(calls: seq<Call>, p: Preset, j: nat, n: nat): real
    requires IsRun(calls) && j <= n < |calls|
  {
    p.capacity + Accrued(p.refillPerSec, calls[n].at - calls[j].at) - Passed(calls, j, n) as real
  }

  function One(allowed: bool): real {
    if allowed then 1.0 else 0.0
  }

  /** From one call to the next, every window's room and the counter move together. */
  lemma RoomStep(calls: seq<Call>, p: Preset, j: nat, n: nat)
    requires IsRun(calls) && UsesOnly(calls, p) && j <= n && n + 1 < |calls|
    ensures var earned := Accrued(p.refillPerSec, calls[n + 1].at - calls[n].at) - One(Allowed(calls, n));
      && Room(calls, p, j, n + 1) == Room(calls, p, j, n) + earned
      && LevelForever(calls, n + 1) == Min(p.capacity, LevelForever(calls, n) + earned)
  {
    assert calls[n + 1].preset == p;
    ExpiryIsInvisible(calls, p, n);
    AccruedAdds(p.refillPerSec, calls[n].at - calls[j].at, calls[n + 1].at - calls[n].at);
  }

  /** No window leaves less room than the counter shows. */
  lemma {:induction false} LevelFitsWindow(calls: seq<Call>, p: Preset, j: nat, n: nat)
    requires IsRun(calls) && UsesOnly(calls, p) && j <= n < |calls|
    ensures LevelForever(calls, n) <= Room(calls, p, j, n)
    decreases n
  {
    if j < n {
      LevelFitsWindow(calls, p, j, n - 1);
      RoomStep(calls, p, j, n - 1);
    } else {
      LevelInRange(calls, p, n);
    }
  }

  /** Some window leaves exactly the room the counter shows. */
  lemma {:induction false} SomeWindowIsTight(calls: seq<Call>, p: Preset, n: nat) returns (tightest: nat)
    requires IsRun(calls) && UsesOnly(calls, p) && n < |calls|
    ensures tightest <= n && LevelForever(calls, n) == Room(calls, p, tightest, n)
    decreases n
  {
    assert calls[n].preset == p;
    if n == 0 {
      return 0;
    }
    tightest := SomeWindowIsTight(calls, p, n - 1);
    RoomStep(calls, p, tightest, n - 1);
    if LevelForever(calls, n) == p.capacity {
      tightest := n;
    }
  }

  /** The lazily refilled counter is the minimum, over every earlier call, of the room its window leaves. */
  lemma LevelIsTightestWindow(calls: seq<Call>, p: Preset, n: nat)
    requires IsRun(calls) && UsesOnly(calls, p) && n < |calls|
    ensures forall j: nat | j <= n :: FoundBy(calls, n) <= Room(calls, p, j, n)
    ensures exists j: nat | j <= n :: FoundBy(calls, n) == Room(calls, p, j, n)
  {
    ExpiryIsInvisible(calls, p, n);
    forall j: nat | j <= n
      ensures FoundBy(calls, n) <= Room(calls, p, j, n)
    {
      LevelFitsWindow(calls, p, j, n);
    }
    var tightest := SomeWindowIsTight(calls, p, n);
  }

  /** Call `n` passes iff, counting it, no window over the earlier calls overflows. */
  lemma AllowedIffEveryWindowHasRoom(calls: seq<Call>, p: Preset, n: nat)
    requires IsRun(calls) && UsesOnly(calls, p) && n < |calls|
    ensures Allowed(calls, n) <==> forall j: nat | j <= n :: Room(calls, p, j, n) >= 1.0
  {
    LevelIsTightestWindow(calls, p, n);
  }

  // ---------------------------------------------------------------- optimality

  /** Positions among `from`, ..., `until - 1` that another limiter admits. */
  function Chosen(choice: seq<bool>, from: nat, until: nat): nat
    requires from <= until <= |choice|
    decreases until
  {
    if from == until then 0 else Chosen(choice, from, until - 1) + (if choice[until - 1] then 1 else 0)
  }

  /** At most capacity + rate * elapsed in the window from call `j` to call `n`. */
  ghost predicate Fits(calls: seq<Call>, p: Preset, j: nat, n: nat, count: nat)
    requires j <= n < |calls|
  {
    count as real <= p.capacity + Accrued(p.refillPerSec, calls[n].at - calls[j].at)
  }

  ghost predicate RespectsWindows(calls: seq<Call>, p: Preset, choice: seq<bool>)
    requires |choice| == |calls|
  {
    forall j: nat, n: nat | j <= n < |calls| :: RespectsWindow(calls, p, choice, j, n)
  }

  ghost predicate RespectsWindow(calls: seq<Call>, p: Preset, choice: seq<bool>, j: nat, n: nat)
    requires j <= n < |calls| == |choice|
  {
    Fits(calls, p, j, n, Chosen(choice, j, n + 1))
  }

  lemma {:induction false} ChosenSplits(choice: seq<bool>, a: nat, b: nat, c: nat)
    requires a <= b <= c <= |choice|
    ensures Chosen(choice, a, c) == Chosen(choice, a, b) + Chosen(choice, b, c)
    decreases c
  {
    if b < c {
      ChosenSplits(choice, a, b, c - 1);
    }
  }

  lemma {:induction false} PassedSplits(calls: seq<Call>, a: nat, b: nat, c: nat)
    requires IsRun(calls) && a <= b <= c <= |calls|
    ensures Passed(calls, a, c) == Passed(calls, a, b) + Passed(calls, b, c)
    decreases c
  {
    if b < c {
      PassedSplits(calls, a, b, c - 1);
    }
  }

  /** In a window without room nobody who respects it has admitted more. */
  lemma FullWindow(calls: seq<Call>, p: Preset, choice: seq<bool>, j: nat, n: nat)
    requires IsRun(calls) && j <= n < |calls| == |choice|
    requires RespectsWindow(calls, p, choice, j, n) && Room(calls, p, j, n) < 1.0
    ensures Chosen(choice, j, n + 1) <= Passed(calls, j, n)
  {
  }

  /** No rule that respects the windows has admitted more calls than the bucket, after any prefix. */
  lemma {:induction false} BucketIsOptimal(calls: seq<Call>, p: Preset, choice: seq<bool>, n: nat)
    requires IsRun(calls) && UsesOnly(calls, p) && n <= |calls| == |choice|
    requires RespectsWindows(calls, p, choice)
    ensures Chosen(choice, 0, n) <= Passed(calls, 0, n)
    decreases n
  {
    if n > 0 {
      BucketIsOptimal(calls, p, choice, n - 1);
      if !Allowed(calls, n - 1) {
        AllowedIffEveryWindowHasRoom(calls, p, n - 1);
        var j: nat :| j <= n - 1 && Room(calls, p, j, n - 1) < 1.0;
        BucketIsOptimal(calls, p, choice, j);
        assert RespectsWindow(calls, p, choice, j, n - 1);
        FullWindow(calls, p, choice, j, n - 1);
        ChosenSplits(choice, 0, j, n);
        PassedSplits(calls, 0, j, n - 1);
      }
    }
  }

  /** The bucket itself respects every window, so it is the greatest rule that does. */
  lemma BucketRespectsWindows(calls: seq<Call>, p: Preset, j: nat, n: nat)
    requires IsRun(calls) && UsesOnly(calls, p) && j <= n < |calls|
    ensures Fits(calls, p, j, n, Passed(calls, j, n + 1))
  {
    LevelFitsWindow(calls, p, j, n);
    LevelInRange(calls, p, n);
    ExpiryIsInvisible(calls, p, n);
  }

  /** The bucket's own decisions as a choice that can be compared with others. */
  function Decisions(calls: seq<Call>): (d: seq<bool>)
    requires IsRun(calls)
    ensures |d| == |calls| && forall i | 0 <= i < |d| :: d[i] == Allowed(calls, i)
  {
    seq(|calls|, i requires 0 <= i < |calls| => Allowed(calls, i))
  }

  lemma {:induction false} DecisionsCount(calls: seq<Call>, j: nat, n: nat)
    requires IsRun(calls) && j <= n <= |calls|
    ensures Chosen(Decisions(calls), j, n) == Passed(calls, j, n)
    decreases n
  {
    if j < n {
      DecisionsCount(calls, j, n - 1);
    }
  }

  lemma DecisionsRespectWindows(calls: seq<Call>, p: Preset)
    requires IsRun(calls) && UsesOnly(calls, p)
    ensures RespectsWindows(calls, p, Decisions(calls))
  {
    forall j: nat, n: nat | j <= n < |calls|
      ensures RespectsWindow(calls, p, Decisions(calls), j, n)
    {
      DecisionsCount(calls, j, n + 1);
      BucketRespectsWindows(calls, p, j, n);
    }
  }

  // ---------------------------------------------------------------- denied calls are free

  /** A denied call stores what it found: the level at every later time is as if it had not happened. */
  lemma DenialKeepsLevel(p: Preset, b: Option<Bucket>, now: int, later: int)
    requires p.Valid() && now <= later && (b.Some? ==> b.value.lastRefill <= now)
    requires Level(p, b, now) < 1.0
    ensures Level(p, Some(Bucket(Spend(Level(p, b, now)), now)), later) == Level(p, b, later)
  {
    AccruedGrows(p.refillPerSec, 0, later - now);
    AccruedAdds(p.refillPerSec, now - b.value.lastRefill, later - now);
  }

  /** The calls marked to be kept among the first `n`. */
  function Kept(calls: seq<Call>, keep: seq<bool>, n: nat): (kept: seq<Call>)
    requires IsRun(calls) && |keep| == |calls| && n <= |calls|
    ensures forall i | 0 <= i < |kept| :: kept[i] in calls[..n]
    ensures IsRun(kept)
  {
    if n == 0 then []
    else if keep[n - 1] then Kept(calls, keep, n - 1) + [calls[n - 1]]
    else Kept(calls, keep, n - 1)
  }

  lemma {:induction false} KeptGrows(calls: seq<Call>, keep: seq<bool>, m: nat, n: nat)
    requires IsRun(calls) && |keep| == |calls| && m <= n <= |calls|
    ensures Kept(calls, keep, m) <= Kept(calls, keep, n)
    decreases n
  {
    if m < n {
      KeptGrows(calls, keep, m, n - 1);
    }
  }

  lemma {:induction false} PrefixDecides(a: seq<Call>, b: seq<Call>, n: nat)
    requires IsRun(a) && IsRun(b) && a <= b && n <= |a|
    ensures AfterForever(a, n) == AfterForever(b, n)
    decreases n
  {
    if n > 0 {
      PrefixDecides(a, b, n - 1);
    }
  }

  /** Dropping denied calls changes the level found at no later time. */
  lemma {:induction false} DroppedLevel(calls: seq<Call>, p: Preset, keep: seq<bool>, n: nat, now: int)
    requires IsRun(calls) && UsesOnly(calls, p) && |keep| == |calls| && n <= |calls| && p.Valid()
    requires forall i | 0 <= i < |calls| && !keep[i] :: !Allowed(calls, i)
    requires n > 0 ==> calls[n - 1].at <= now
    ensures SameLevel(calls, p, keep, n, now)
    decreases n
  {
    hide SameLevel;
    if n == 0 {
      NothingDropped(calls, p, keep, now);
    } else if keep[n - 1] {
      DroppedLevel(calls, p, keep, n - 1, calls[n - 1].at);
      LastIsKept(calls, p, keep, n, now);
    } else {
      DroppedLevel(calls, p, keep, n - 1, now);
      LastIsDropped(calls, p, keep, n, now);
    }
  }

  /** The kept calls among the first `n` leave the level at `now` that all of them leave. */
  ghost predicate SameLevel(calls: seq<Call>, p: Preset, keep: seq<bool>, n: nat, now: int)
    requires IsRun(calls) && |keep| == |calls| && n <= |calls|
  {
    var kept := Kept(calls, keep, n);
    Level(p, AfterForever(kept, |kept|), now) == Level(p, AfterForever(calls, n), now)
  }

  lemma NothingDropped(calls: seq<Call>, p: Preset, keep: seq<bool>, now: int)
    requires IsRun(calls) && |keep| == |calls|
    ensures SameLevel(calls, p, keep, 0, now)
  {
  }

  lemma LastIsKept(calls: seq<Call>, p: Preset, keep: seq<bool>, n: nat, now: int)
    requires IsRun(calls) && UsesOnly(calls, p) && |keep| == |calls| && 0 < n <= |calls| && keep[n - 1]
    requires SameLevel(calls, p, keep, n - 1, calls[n - 1].at)
    ensures SameLevel(calls, p, keep, n, now)
  {
    var shorter, kept := Kept(calls, keep, n - 1), Kept(calls, keep, n);
    assert calls[n - 1].preset == p && kept == shorter + [calls[n - 1]];
    hide Level, FoundBy, Kept;
    PrefixDecides(shorter, kept, |shorter|);
    SameCallSameBucket(kept, calls, n);
  }

  lemma LastIsDropped(calls: seq<Call>, p: Preset, keep: seq<bool>, n: nat, now: int)
    requires IsRun(calls) && UsesOnly(calls, p) && |keep| == |calls| && 0 < n <= |calls| && !keep[n - 1]
    requires SameLevel(calls, p, keep, n - 1, now) && !Allowed(calls, n - 1) && calls[n - 1].at <= now
    ensures SameLevel(calls, p, keep, n, now)
  {
    assert Kept(calls, keep, n) == Kept(calls, keep, n - 1);
    hide Level, FoundBy, Kept;
    DroppedDenial(calls, p, n - 1, now);
  }

  /** Two runs whose last call finds the same level end in the same bucket. */
  lemma SameCallSameBucket(a: seq<Call>, b: seq<Call>, n: nat)
    requires IsRun(a) && IsRun(b) && 0 < n <= |b| && |a| > 0 && a[|a| - 1] == b[n - 1]
    requires LevelForever(a, |a| - 1) == LevelForever(b, n - 1)
    ensures AfterForever(a, |a|) == AfterForever(b, n)
  {
  }

  /** A denied call leaves the level at every later time as it was. */
  lemma DroppedDenial(calls: seq<Call>, p: Preset, n: nat, now: int)
    requires IsRun(calls) && UsesOnly(calls, p) && n < |calls| && !Allowed(calls, n) && calls[n].at <= now
    ensures Level(p, AfterForever(calls, n + 1), now) == Level(p, AfterForever(calls, n), now)
  {
    assert calls[n].preset == p;
    ExpiryIsInvisible(calls, p, n);
    DenialKeepsLevel(p, AfterForever(calls, n), calls[n].at, now);
  }

  /** Deleting any denied calls from a run leaves every reply to the remaining calls as it was. */
  lemma DroppingDeniedCallsChangesNothing(calls: seq<Call>, p: Preset, keep: seq<bool>, n: nat)
    requires IsRun(calls) && UsesOnly(calls, p) && |keep| == |calls| && n < |calls| && keep[n]
    requires forall i | 0 <= i < |calls| && !keep[i] :: !Allowed(calls, i)
    ensures var kept := Kept(calls, keep, |calls|);
      var at := |Kept(calls, keep, n)|;
      at < |kept| && kept[at] == calls[n] && ReplyTo(kept, at) == ReplyTo(calls, n)
  {
    var kept, shorter := Kept(calls, keep, |calls|), Kept(calls, keep, n);
    KeptGrows(calls, keep, n + 1, |calls|);
    assert shorter <= kept && kept[|shorter|] == calls[n];
    assert UsesOnly(kept, p);
    assert calls[n].preset == p;
    DroppedLevel(calls, p, keep, n, calls[n].at);
    PrefixDecides(shorter, kept, |shorter|);
    ExpiryIsInvisible(calls, p, n);
    ExpiryIsInvisible(kept, p, |shorter|);
  }

  // ---------------------------------------------------------------- the hints are exact

  /** While calls are denied, the level keeps growing as if only time had passed. */
  lemma {:induction false} LevelAcrossDenials(calls: seq<Call>, p: Preset, i: nat, k: nat)
    requires IsRun(calls) && UsesOnly(calls, p) && i < k < |calls|
    requires forall m | i <= m < k :: !Allowed(calls, m)
    ensures LevelForever(calls, k) ==
      Min(p.capacity, LevelForever(calls, i) + Accrued(p.refillPerSec, calls[k].at - calls[i].at))
    decreases k
  {
    assert calls[k].preset == p;
    RoomStep(calls, p, k - 1, k - 1);
    if i < k - 1 {
      LevelAcrossDenials(calls, p, i, k - 1);
      AccruedAdds(p.refillPerSec, calls[k - 1].at - calls[i].at, calls[k].at - calls[k - 1].at);
      AccruedGrows(p.refillPerSec, 0, calls[k].at - calls[k - 1].at);
    }
  }

  /** A wait measured in seconds and the same wait in whole milliseconds agree. */
  lemma InMilliseconds(need: real, ms: nat)
    ensures ms >= Ceil(need * 1000.0) <==> ms as real / 1000.0 >= need
  {
    var scaled := need * 1000.0;
    assert ms >= Ceil(scaled) <==> ms as real >= scaled;
  }

  /** Earning `gap` at `rate` takes `gap / rate`. */
  lemma TimeToEarn(gap: real, rate: real, time: real)
    requires rate > 0.0
    ensures time * rate >= gap <==> time >= gap / rate
  {
    var need := gap / rate;
    assert need * rate == gap;
    if time >= need {
      Scale(need, time, rate);
    } else {
      ScaleStrictly(time, need, rate);
    }
  }

  lemma WaitReachesOne(p: Preset, level: real, ms: nat)
    requires p.Valid() && level < 1.0
    ensures level + Accrued(p.refillPerSec, ms) >= 1.0 <==> ms >= ResetMs(p, level)
  {
    AccruedIsRateTimesTime(p.refillPerSec, ms);
    InMilliseconds((1.0 - level) / p.refillPerSec, ms);
    TimeToEarn(1.0 - level, p.refillPerSec, ms as real / 1000.0);
  }

  /**
   * After a denial, and as long as nothing is allowed in between, a later call passes
   * exactly when it waits at least the denial's resetMs.
   */
  lemma ResetMsIsLeastWait(calls: seq<Call>, p: Preset, i: nat, k: nat)
    requires IsRun(calls) && UsesOnly(calls, p) && i < k < |calls|
    requires forall m | i <= m < k :: !Allowed(calls, m)
    ensures Allowed(calls, k) <==> calls[k].at - calls[i].at >= ReplyTo(calls, i).resetMs
  {
    assert calls[i].preset == p;
    ExpiryIsInvisible(calls, p, i);
    ExpiryIsInvisible(calls, p, k);
    LevelAcrossDenials(calls, p, i, k);
    WaitReachesOne(p, LevelForever(calls, i), calls[k].at - calls[i].at);
  }

  lemma LevelAtSameInstant(calls: seq<Call>, p: Preset, n: nat)
    requires IsRun(calls) && UsesOnly(calls, p) && n + 1 < |calls| && calls[n].at == calls[n + 1].at
    ensures LevelForever(calls, n + 1) == Spend(LevelForever(calls, n))
  {
    RoomStep(calls, p, n, n);
    ExpiryIsInvisible(calls, p, n);
    LevelInRange(calls, p, n);
  }

  /** What is left of `tokens` after `n` attempts to take one. */
  function AfterAttempts(tokens: real, n: int): real {
    tokens - (if n <= tokens.Floor then n else tokens.Floor) as real
  }

  lemma {:induction false} LevelAtOneInstant(calls: seq<Call>, p: Preset, i: nat, m: nat)
    requires IsRun(calls) && UsesOnly(calls, p) && 0 < m && i + m < |calls|
    requires calls[i].at == calls[i + m].at
    ensures LevelForever(calls, i + m) == AfterAttempts(Spend(LevelForever(calls, i)), m - 1)
    decreases m
  {
    assert calls[i].at <= calls[i + m - 1].at <= calls[i + m].at;
    LevelAtSameInstant(calls, p, i + m - 1);
    if m > 1 {
      LevelAtOneInstant(calls, p, i, m - 1);
    }
    LevelInRange(calls, p, i);
  }

  /** After any call, exactly `remaining` further calls at the same instant pass. */
  lemma RemainingIsExact(calls: seq<Call>, p: Preset, i: nat, m: nat)
    requires IsRun(calls) && UsesOnly(calls, p) && 0 < m && i + m < |calls|
    requires calls[i].at == calls[i + m].at
    ensures Allowed(calls, i + m) <==> m <= ReplyTo(calls, i).remaining
  {
    ExpiryIsInvisible(calls, p, i);
    ExpiryIsInvisible(calls, p, i + m);
    LevelAtOneInstant(calls, p, i, m);
    var left := Spend(LevelForever(calls, i));
    assert ReplyTo(calls, i).remaining == left.Floor;
    assert Allowed(calls, i + m) <==> LevelForever(calls, i + m) >= 1.0;
    assert LevelForever(calls, i + m) == AfterAttempts(left, m - 1);
    WholeTokens(left, m);
  }

  lemma WholeTokens(left: real, m: int)
    ensures AfterAttempts(left, m - 1) >= 1.0 <==> m <= left.Floor
  {
  }

  // ---------------------------------------------------------------- replies and times to live

  /** Whatever presets are mixed on the key, no call ever finds less than nothing. */
  lemma {:induction false} FoundNonNegative(calls: seq<Call>, n: nat)
    requires IsRun(calls) && n < |calls|
    ensures FoundBy(calls, n) >= 0.0
    decreases n
  {
    if n > 0 {
      FoundNonNegative(calls, n - 1);
      AccruedGrows(calls[n].preset.refillPerSec, 0, calls[n].at - calls[n - 1].at);
    }
  }

  /** An allowed call is told no wait, and a denied one that nothing remains and how long to wait. */
  lemma RepliesAreConsistent(calls: seq<Call>, n: nat)
    requires IsRun(calls) && n < |calls|
    ensures var r := ReplyTo(calls, n);
      && r.remaining >= 0
      && (r.allowed ==> r.resetMs == 0)
      && (!r.allowed ==> r.remaining == 0 && r.resetMs > 0)
  {
    FoundNonNegative(calls, n);
    hide FoundBy;
    if !Allowed(calls, n) {
      WaitReachesOne(calls[n].preset, FoundBy(calls, n), 0);
    }
  }

  lemma WholeSeconds(rate: real, sec: nat)
    ensures Accrued(rate, 1000 * sec) == rate * sec as real
  {
    AccruedIsRateTimesTime(rate, 1000 * sec);
    var elapsed := (1000 * sec) as real / 1000.0;
    assert elapsed == sec as real;
  }

  /** The time to live is one second more than the least whole number of seconds that refills an empty bucket. */
  lemma TtlIsLeastRefillPlusOne(p: Preset)
    requires p.Valid()
    ensures TtlSeconds(p) >= 2
    ensures Accrued(p.refillPerSec, 1000 * (TtlSeconds(p) - 1)) >= p.capacity
    ensures Accrued(p.refillPerSec, 1000 * (TtlSeconds(p) - 2)) < p.capacity
  {
    var sec := TtlSeconds(p) - 1;
    assert p.capacity / p.refillPerSec > 0.0;
    WholeSeconds(p.refillPerSec, sec);
    WholeSeconds(p.refillPerSec, sec - 1);
    TimeToEarn(p.capacity, p.refillPerSec, sec as real);
    TimeToEarn(p.capacity, p.refillPerSec, (sec - 1) as real);
  }
}
