/** The deadline on one awaited promise. */
module Timeout {
  import opened Common

  /** When and how a promise settles, if it ever does. */
  datatype Promise<+T> = Pending | SettlesAt(at: int, outcome: Outcome<T>)

  datatype Raced<+T> = Finished(outcome: Outcome<T>) | TimedOut

  /** The timers of the event loop that are still armed. */
  class Timers {
    var armed: set<nat>
    var next: nat

    ghost predicate Valid()
      reads this
    {
      forall id | id in armed :: id < next
    }

    constructor ()
      ensures Valid() && armed == {}
    {
      armed, next := {}, 0;
    }

    method SetTimeout() returns (id: nat)
      requires Valid()
      modifies this
      ensures Valid() && id !in old(armed) && armed == old(armed) + {id}
    {
      id, next := next, next + 1;
      armed := armed + {id};
    }

    method ClearTimeout(id: nat)
      requires Valid()
      modifies this
      ensures Valid() && armed == old(armed) - {id}
    {
      armed := armed - {id};
    }
  }

  const MAX_TIMER_MS := 2147483647.0

  /** What setTimeout makes of a delay: whole milliseconds, and 1 for one that is too short or too long for a timer. */
  function TimerMs(delay: real): (ms: int)
    ensures 1.0 <= delay <= 2147483647.0 ==> ms as real <= delay < (ms + 1) as real
    ensures !(1.0 <= delay <= 2147483647.0) ==> ms == 1
  {
    if 1.0 <= delay <= MAX_TIMER_MS then delay.Floor else 1
  }

  /** When a timer of `timeoutMs` set at `start` fires. */
  function Deadline(timeoutMs: real, start: int): int {
    start + TimerMs(timeoutMs)
  }

  /** When the race between `promise`, awaited from `start`, and the timer is over. */
  function RaceEnd<T>(promise: Promise<T>, timeoutMs: real, start: int): int {
    if promise.SettlesAt? && promise.at < Deadline(timeoutMs, start) then promise.at else Deadline(timeoutMs, start)
  }

  /**
   * Races `promise`, awaited from `start`, against a timer; `promiseFirst` decides a tie. The race is over when the
   * timer fires, a promise that settles before that keeps its outcome, and no timer is left armed.
   */
  method WithTimeout<T>(timers: Timers, promise: Promise<T>, timeoutMs: real, start: int, promiseFirst: bool)
    returns (r: Raced<T>, at: int)
    requires timers.Valid() && (promise.SettlesAt? ==> start <= promise.at)
    modifies timers
    ensures timers.Valid() && timers.armed == old(timers.armed)
    ensures at == RaceEnd(promise, timeoutMs, start) && start <= at <= Deadline(timeoutMs, start)
    ensures timeoutMs >= 1.0 ==> (at - start) as real <= timeoutMs
    ensures 1.0 <= timeoutMs <= 2147483647.0 ==>
      && (promise.SettlesAt? && (promise.at + 1 - start) as real <= timeoutMs ==> r == Finished(promise.outcome))
      && (r == TimedOut ==> (at - start) as real <= timeoutMs < (at + 1 - start) as real)
    ensures !(1.0 <= timeoutMs <= 2147483647.0) ==>
      && (promise.SettlesAt? && promise.at == start ==> r == Finished(promise.outcome))
      && (r == TimedOut ==> at == start + 1)
    ensures promise.SettlesAt? && promise.at < Deadline(timeoutMs, start) ==> r == Finished(promise.outcome)
    ensures r == TimedOut ==> at == Deadline(timeoutMs, start) && (promise.SettlesAt? ==> promise.at >= at)
    ensures r.Finished? ==> promise.SettlesAt? && r.outcome == promise.outcome && at == promise.at
  {
    var timerId: Option<nat> := None;
    var id := timers.SetTimeout();
    timerId := Some(id);
    var deadline := start + TimerMs(timeoutMs);
    if promise.SettlesAt? && (promise.at < deadline || (promise.at == deadline && promiseFirst)) {
      r, at := Finished(promise.outcome), promise.at;
    } else {
      r, at := TimedOut, deadline;
    }
    if timerId.Some? {
      timers.ClearTimeout(timerId.value);
    }
  }
}
