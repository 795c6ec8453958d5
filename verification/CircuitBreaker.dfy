/** The circuit breaker object: option checks, admission, and the handling of settled calls. */
module CircuitBreaker {
  import opened Common
  import Timeout

  datatype State = Closed | Open | HalfOpen

  datatype Options = Options(
    failureThreshold: Option<Number>,
    recoveryTimeoutMs: Option<Number>,
    halfOpenMaxTrials: Option<Number>,
    timeoutMs: Option<Number>)

  datatype Config = Config(failureThreshold: int, recoveryTimeoutMs: real, halfOpenMaxTrials: int, timeoutMs: real) {
    predicate Valid() {
      failureThreshold >= 1 && recoveryTimeoutMs >= 0.0 && halfOpenMaxTrials >= 1 && timeoutMs >= 0.0
    }

    /** The clock shows whole milliseconds, so the recovery timeout takes effect at the next whole one. */
    function RecoveryMs(): (ms: int)
      ensures (ms - 1) as real < recoveryTimeoutMs <= ms as real
    {
      Ceil(recoveryTimeoutMs)
    }

    /** How long a call may run, if `timeoutMs` is positive. */
    function TimeoutMs(): int {
      Timeout.TimerMs(timeoutMs)
    }
  }

  predicate AtLeast(n: Number, bound: real) {
    n.Finite? && n.value >= bound
  }

  predicate Floors(n: int, x: real) {
    n as real <= x < (n + 1) as real
  }

  predicate Acceptable(o: Options) {
    && AtLeast(OrDefault(o.failureThreshold, 5.0), 1.0)
    && AtLeast(OrDefault(o.halfOpenMaxTrials, 1.0), 1.0)
    && AtLeast(OrDefault(o.recoveryTimeoutMs, 30000.0), 0.0)
    && AtLeast(OrDefault(o.timeoutMs, 5000.0), 0.0)
  }

  /** The constructor's checks, in the source's order; the error names the first option that fails. */
  method Configure(o: Options) returns (r: Result<Config, RangeError>)
    ensures r.Ok? <==> Acceptable(o)
    ensures r.Ok? <==>
      && (o.failureThreshold.None? || (o.failureThreshold.value.Finite? && o.failureThreshold.value.value >= 1.0))
      && (o.halfOpenMaxTrials.None? || (o.halfOpenMaxTrials.value.Finite? && o.halfOpenMaxTrials.value.value >= 1.0))
      && (o.recoveryTimeoutMs.None? || (o.recoveryTimeoutMs.value.Finite? && o.recoveryTimeoutMs.value.value >= 0.0))
      && (o.timeoutMs.None? || (o.timeoutMs.value.Finite? && o.timeoutMs.value.value >= 0.0))
    ensures r.Ok? ==> r.value.Valid()
    ensures r.Ok? ==>
      && r.value.recoveryTimeoutMs == (if o.recoveryTimeoutMs.Some? then o.recoveryTimeoutMs.value.value else 30000.0)
      && r.value.timeoutMs == (if o.timeoutMs.Some? then o.timeoutMs.value.value else 5000.0)
      && Floors(r.value.failureThreshold, if o.failureThreshold.Some? then o.failureThreshold.value.value else 5.0)
      && Floors(r.value.halfOpenMaxTrials, if o.halfOpenMaxTrials.Some? then o.halfOpenMaxTrials.value.value else 1.0)
    ensures r.Err? ==> r.error == RangeError(
      if !AtLeast(OrDefault(o.failureThreshold, 5.0), 1.0) then "failureThreshold"
      else if !AtLeast(OrDefault(o.halfOpenMaxTrials, 1.0), 1.0) then "halfOpenMaxTrials"
      else if !AtLeast(OrDefault(o.recoveryTimeoutMs, 30000.0), 0.0) then "recoveryTimeoutMs"
      else "timeoutMs")
  {
    var failureThreshold := OrDefault(o.failureThreshold, 5.0);
    if failureThreshold.NotFinite? || failureThreshold.value < 1.0 {
      return Err(RangeError("failureThreshold"));
    }
    var halfOpenMaxTrials := OrDefault(o.halfOpenMaxTrials, 1.0);
    if halfOpenMaxTrials.NotFinite? || halfOpenMaxTrials.value < 1.0 {
      return Err(RangeError("halfOpenMaxTrials"));
    }
    var recoveryTimeoutMs := OrDefault(o.recoveryTimeoutMs, 30000.0);
    if recoveryTimeoutMs.NotFinite? || recoveryTimeoutMs.value < 0.0 {
      return Err(RangeError("recoveryTimeoutMs"));
    }
    var timeoutMs := OrDefault(o.timeoutMs, 5000.0);
    if timeoutMs.NotFinite? || timeoutMs.value < 0.0 {
      return Err(RangeError("timeoutMs"));
    }
    r := Ok(Config(
        failureThreshold.value.Floor, recoveryTimeoutMs.value, halfOpenMaxTrials.value.Floor, timeoutMs.value));
  }

  /** The mutable fields, as a value. */
  datatype Core = Core(state: State, failureCount: int, openedAt: Option<int>, inFlightProbes: int)

  const FRESH := Core(Closed, 0, None, 0)

  datatype Admission = Refused | Admitted(isProbe: bool)

  function ToOpen(b: Core, now: int): Core {
    b.(state := Open, openedAt := Some(now), failureCount := 0)
  }

  function ToClosed(b: Core): Core {
    Core(Closed, 0, None, 0)
  }

  function ToHalfOpen(b: Core): Core {
    b.(state := HalfOpen, inFlightProbes := 0)
  }

  function Recovered(c: Config, b: Core, now: int): Core {
    if b.state == Open && b.openedAt.Some? && (now - b.openedAt.value) as real >= c.recoveryTimeoutMs
    then ToHalfOpen(b) else b
  }

  /** The synchronous head of `execute`: fail fast, or start the call and say whether it is a probe. */
  function Admit(c: Config, b: Core, now: int): (Core, Admission) {
    var b := Recovered(c, b, now);
    if b.state == Open then (b, Refused)
    else if b.state == Closed then (b, Admitted(false))
    else if b.inFlightProbes >= c.halfOpenMaxTrials then (b, Refused)
    else (b.(inFlightProbes := b.inFlightProbes + 1), Admitted(true))
  }

  function Released(b: Core, isProbe: bool): Core {
    if isProbe then b.(inFlightProbes := Max(0, b.inFlightProbes - 1)) else b
  }

  function Succeed(b: Core, isProbe: bool): Core {
    if isProbe && b.state == HalfOpen then ToClosed(b)
    else if !isProbe && b.state == Closed then b.(failureCount := 0)
    else Released(b, isProbe)
  }

  function Fail(c: Config, b: Core, isProbe: bool, now: int): Core {
    var released := Released(b, isProbe);
    if b.state == Closed then
      if b.failureCount + 1 >= c.failureThreshold then ToOpen(released, now)
      else released.(failureCount := b.failureCount + 1)
    else if b.state == HalfOpen && isProbe then ToOpen(released, now)
    else released
  }

  /** One breaker; `execute` is its two synchronous halves, Begin and HandleSuccess or HandleFailure. */
  class CircuitBreaker {
    const config: Config
    var state: State
    var failureCount: int
    var openedAt: Option<int>
    var inFlightProbes: int

    ghost function Snapshot(): Core
      reads this
    {
      Core(state, failureCount, openedAt, inFlightProbes)
    }

    constructor (config: Config)
      requires config.Valid()
      ensures this.config == config && Snapshot() == FRESH
    {
      this.config := config;
      state, failureCount, openedAt, inFlightProbes := Closed, 0, None, 0;
    }

    method TransitionTo(newState: State, now: int)
      modifies this
      ensures Snapshot() ==
        if old(state) == newState then old(Snapshot())
        else match newState
          case Open => ToOpen(old(Snapshot()), now)
          case Closed => ToClosed(old(Snapshot()))
          case HalfOpen => ToHalfOpen(old(Snapshot()))
    {
      if state == newState {
        return;
      }
      state := newState;
      if newState == Open {
        openedAt := Some(now);
        failureCount := 0;
      } else if newState == Closed {
        openedAt := None;
        failureCount := 0;
        inFlightProbes := 0;
      } else {
        inFlightProbes := 0;
      }
    }

    method CheckRecoveryTimeout(now: int)
      modifies this
      ensures Snapshot() == Recovered(config, old(Snapshot()), now)
    {
      if state == Open && openedAt.Some? {
        var elapsed := now - openedAt.value;
        if elapsed as real >= config.recoveryTimeoutMs {
          TransitionTo(HalfOpen, now);
        }
      }
    }

    method GetState(now: int) returns (s: State)
      modifies this
      ensures Snapshot() == Recovered(config, old(Snapshot()), now) && s == state
    {
      CheckRecoveryTimeout(now);
      s := state;
    }

    method Begin(now: int) returns (a: Admission)
      modifies this
      ensures (Snapshot(), a) == Admit(config, old(Snapshot()), now)
    {
      CheckRecoveryTimeout(now);
      if state == Open {
        return Refused;
      }
      var isProbe := false;
      if state == HalfOpen {
        if inFlightProbes >= config.halfOpenMaxTrials {
          return Refused;
        }
        inFlightProbes := inFlightProbes + 1;
        isProbe := true;
      }
      a := Admitted(isProbe);
    }

    method HandleSuccess(isProbe: bool, now: int)
      modifies this
      ensures Snapshot() == Succeed(old(Snapshot()), isProbe)
    {
      if isProbe {
        inFlightProbes := Max(0, inFlightProbes - 1);
        if state == HalfOpen {
          TransitionTo(Closed, now);
        }
      } else if state == Closed {
        failureCount := 0;
      }
    }

    method HandleFailure(isProbe: bool, now: int)
      modifies this
      ensures Snapshot() == Fail(config, old(Snapshot()), isProbe, now)
    {
      if isProbe {
        inFlightProbes := Max(0, inFlightProbes - 1);
        if state == HalfOpen {
          TransitionTo(Open, now);
        } else if state == Closed {
          failureCount := failureCount + 1;
          if failureCount >= config.failureThreshold {
            TransitionTo(Open, now);
          }
        }
        return;
      } else if state == Closed {
        failureCount := failureCount + 1;
        if failureCount >= config.failureThreshold {
          TransitionTo(Open, now);
        }
      }
    }
  }
}
