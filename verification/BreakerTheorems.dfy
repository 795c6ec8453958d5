/** What the breaker promises over whole runs. */
module BreakerTheorems {
  import opened Common
  import opened FiniteSets
  import opened CircuitBreaker
  import opened BreakerRuns
  import opened Periods

  // ---------------------------------------------------------------- counters as functions of history

  /** The failure count is determined by the history of settled calls, and `openedAt` is null exactly while CLOSED. */
  lemma FailureCountIsHistory(c: Config, s: System)
    requires c.Valid() && Reachable(c, s)
    ensures s.core.failureCount == if s.core.state == Closed then RecentFailures(s.log) else 0
    ensures s.core.openedAt.None? <==> s.core.state == Closed
    ensures s.core.state != Closed ==> s.core.openedAt == LastOpening(s.log)
  {
    ReachableInv(c, s);
  }

  /** From CLOSED, only a failure opens the breaker, and exactly the failureThreshold-th one does. */
  lemma OpensExactlyAtThreshold(c: Config, s: System, e: Event)
    requires c.Valid() && Reachable(c, s) && s.core.state == Closed && Enabled(c, s, e)
    ensures Step(c, s, e).core.state == Open <==>
      e.Settle? && !e.ok && RecentFailures(s.log) + 1 == c.failureThreshold
    ensures Step(c, s, e).core.state != HalfOpen
  {
    ReachableInv(c, s);
  }

  /** Consecutive openings are at least the recovery timeout apart. */
  lemma OpeningsAreSpaced(c: Config, s: System, i: nat, j: nat)
    requires c.Valid() && Reachable(c, s) && i < j < |s.log|
    requires s.log[i].Entered? && s.log[j].Entered? && s.log[i].state == Open == s.log[j].state
    ensures (s.log[j].at - s.log[i].at) as real >= c.recoveryTimeoutMs
  {
    ReachableInv(c, s);
  }

  // ---------------------------------------------------------------- HALF_OPEN

  /**
   * In HALF_OPEN the counter is the number of unsettled probes of this visit, which is also the number
   * of calls the visit has started; so a full HALF_OPEN always has a live probe.
   */
  lemma HalfOpenCountsItsOwnProbes(c: Config, s: System) returns (live: nat)
    requires c.Valid() && Reachable(c, s) && s.core.state == HalfOpen
    ensures s.core.inFlightProbes == |ProbesOfVisit(s)| == StartsInState(s.log) <= c.halfOpenMaxTrials
    ensures StartsInState(s.log) > 0 ==> live in ProbesOfVisit(s)
    ensures Admit(c, s.core, s.now).1.Refused? ==> live in ProbesOfVisit(s)
  {
    ReachableInv(c, s);
    live := 0;
    if s.core.inFlightProbes > 0 {
      live :| live in ProbesOfVisit(s);
    }
  }

  lemma VisitNeverDrops(c: Config, s: System, e: Event)
    requires Enabled(c, s, e)
    ensures Visit(s.log) <= Visit(Step(c, s, e).log)
    ensures s.core.state != HalfOpen == Step(c, s, e).core.state ==> Visit(s.log) < Visit(Step(c, s, e).log)
  {
    hide Visit;
    match e
    case Tick(ms) =>
    case Poll => AppendVisit(s.log, Entered(HalfOpen, s.now));
    case Execute =>
      AppendVisit(s.log, Entered(HalfOpen, s.now));
      AppendVisit(PollStep(c, s).log, Started(s.now));
    case Settle(id, ok) =>
      var settled := s.log + [Settled(s.calls[id].isProbe, ok)];
      AppendVisit(s.log, Settled(s.calls[id].isProbe, ok));
      AppendVisit(settled, Entered(Step(c, s, e).core.state, s.now));
  }

  lemma {:induction false} VisitNeverDropsInRun(c: Config, s: System, events: seq<Event>)
    requires CanRun(c, s, events)
    ensures Visit(s.log) <= Visit(Run(c, s, events).log)
    decreases |events|
  {
    if events != [] {
      VisitNeverDropsInRun(c, s, events[..|events| - 1]);
      VisitNeverDrops(c, Run(c, s, events[..|events| - 1]), events[|events| - 1]);
    }
  }

  /**
   * As long as the visit lasts none of its probes has settled, so with a timeout it ends within that time of any
   * of them.
   */
  lemma {:induction false} VisitEndsWithinTimeout(c: Config, s: System, probe: nat, events: seq<Event>)
    requires c.Valid() && Reachable(c, s) && s.core.state == HalfOpen && probe in ProbesOfVisit(s)
    requires CanRun(c, s, events)
    requires Run(c, s, events).core.state == HalfOpen && Visit(Run(c, s, events).log) == Visit(s.log)
    ensures probe in ProbesOfVisit(Run(c, s, events))
    ensures c.timeoutMs > 0.0 ==> Run(c, s, events).now - s.calls[probe].at <= c.TimeoutMs()
    ensures c.timeoutMs >= 1.0 ==> (Run(c, s, events).now - s.calls[probe].at) as real <= c.timeoutMs
    decreases |events|
  {
    ReachableInv(c, s);
    StaysUnsettled(c, s, probe, events);
    RunKeepsInv(c, s, events);
  }

  lemma {:induction false} StaysUnsettled(c: Config, s: System, probe: nat, events: seq<Event>)
    requires c.Valid() && Inv(c, s) && s.core.state == HalfOpen && probe in ProbesOfVisit(s)
    requires CanRun(c, s, events)
    requires Run(c, s, events).core.state == HalfOpen && Visit(Run(c, s, events).log) == Visit(s.log)
    ensures probe in Run(c, s, events).calls && Run(c, s, events).calls[probe] == s.calls[probe]
    decreases |events|
  {
    if events != [] {
      var before, e := Run(c, s, events[..|events| - 1]), events[|events| - 1];
      VisitNeverDropsInRun(c, s, events[..|events| - 1]);
      VisitNeverDrops(c, before, e);
      RunKeepsInv(c, s, events[..|events| - 1]);
      StaysUnsettled(c, s, probe, events[..|events| - 1]);
    }
  }

  // ---------------------------------------------------------------- who ends a visit

  /** If this step leaves HALF_OPEN, it is the settling of a probe admitted in this same visit. */
  ghost predicate EndsByOwnProbe(c: Config, s: System, e: Event)
    requires Enabled(c, s, e)
  {
    s.core.state == HalfOpen != Step(c, s, e).core.state ==> e.Settle? && e.id in ProbesOfVisit(s)
  }

  /** Along the whole run every HALF_OPEN visit is ended by one of its own probes. */
  ghost predicate VisitsEndByOwnProbes(c: Config, events: seq<Event>)
    requires CanRun(c, INITIAL, events)
    decreases |events|
  {
    events == [] ||
    (&& VisitsEndByOwnProbes(c, events[..|events| - 1])
     && EndsByOwnProbe(c, Run(c, INITIAL, events[..|events| - 1]), events[|events| - 1]))
  }

  ghost predicate NoLeftovers(s: System) {
    s.core.state == HalfOpen ==> forall id | id in s.calls && s.calls[id].isProbe :: s.calls[id].visit == Visit(s.log)
  }

  /** Calls time out before the breaker can try again. */
  predicate TimesOutFirst(c: Config) {
    c.timeoutMs > 0.0 && c.TimeoutMs() < c.RecoveryMs()
  }

  /** Except below one millisecond, that is so whenever the timeout is shorter than the recovery timeout. */
  lemma ShortTimeoutTimesOutFirst(c: Config)
    requires c.Valid() && 1.0 <= c.timeoutMs < c.recoveryTimeoutMs
    ensures TimesOutFirst(c)
  {
  }

  /** A timeout that a timer can hold and that is no shorter than the recovery timeout does not. */
  lemma LongTimeoutTimesOutLast(c: Config)
    requires c.Valid() && 1.0 <= c.timeoutMs <= 2147483647.0
    ensures TimesOutFirst(c) <==> c.timeoutMs < c.RecoveryMs() as real
    ensures c.recoveryTimeoutMs.Floor as real == c.recoveryTimeoutMs ==>
      (TimesOutFirst(c) <==> c.timeoutMs < c.recoveryTimeoutMs)
  {
  }

  /** When calls time out first, HALF_OPEN begins with nothing unsettled, so nothing older can settle in it. */
  ghost predicate OnlyOwnProbes(s: System) {
    s.core.state == HalfOpen ==> forall id | id in s.calls :: id in ProbesOfVisit(s)
  }

  lemma RecoveryOutlastsCalls(c: Config, s: System)
    requires c.Valid() && Inv(c, s) && TimesOutFirst(c)
    requires s.core.state == Open && Recovered(c, s.core, s.now).state == HalfOpen
    ensures s.calls == map[]
  {
    assert s.now - s.core.openedAt.value >= c.RecoveryMs();
    assert forall id :: id !in s.calls;
  }

  lemma TimedStep(c: Config, s: System, e: Event)
    requires c.Valid() && Inv(c, s) && TimesOutFirst(c) && OnlyOwnProbes(s) && Enabled(c, s, e)
    ensures OnlyOwnProbes(Step(c, s, e)) && EndsByOwnProbe(c, s, e)
  {
    VisitNeverDrops(c, s, e);
    var t := Step(c, s, e);
    if t.core.state == HalfOpen {
      if s.core.state == Open {
        RecoveryOutlastsCalls(c, s);
      }
      match e
      case Tick(ms) =>
      case Poll =>
      case Execute => AppendMark(PollStep(c, s).log, Started(s.now));
      case Settle(id, ok) =>
    }
  }

  /** With a single trial, a visit's one probe must settle to end it, so no probe outlives its visit. */
  ghost predicate ProbesOnlyInVisit(s: System) {
    forall id | id in s.calls && s.calls[id].isProbe :: s.core.state == HalfOpen && id in ProbesOfVisit(s)
  }

  lemma SingleTrialStep(c: Config, s: System, e: Event)
    requires c.Valid() && Inv(c, s) && c.halfOpenMaxTrials == 1 && ProbesOnlyInVisit(s) && Enabled(c, s, e)
    ensures ProbesOnlyInVisit(Step(c, s, e)) && EndsByOwnProbe(c, s, e)
  {
    var t := Step(c, s, e);
    match e
    case Tick(ms) =>
    case Poll =>
    case Execute => AppendMark(PollStep(c, s).log, Started(s.now));
    case Settle(id, ok) =>
      AppendMark(s.log, Settled(s.calls[id].isProbe, ok));
      forall other | other in t.calls && t.calls[other].isProbe
        ensures t.core.state == HalfOpen && other in ProbesOfVisit(t)
      {
        if s.calls[id].isProbe {
          TwoMembers(ProbesOfVisit(s), id, other);
        }
      }
  }

  lemma {:induction false} SafeConfigsEndOwnVisits(c: Config, events: seq<Event>)
    requires c.Valid() && CanRun(c, INITIAL, events)
    requires c.halfOpenMaxTrials == 1 || TimesOutFirst(c)
    ensures VisitsEndByOwnProbes(c, events) && NoLeftovers(Run(c, INITIAL, events))
    ensures TimesOutFirst(c) ==> OnlyOwnProbes(Run(c, INITIAL, events))
    ensures c.halfOpenMaxTrials == 1 ==> ProbesOnlyInVisit(Run(c, INITIAL, events))
    decreases |events|
  {
    if events != [] {
      var init := events[..|events| - 1];
      SafeConfigsEndOwnVisits(c, init);
      InitialInv(c);
      RunKeepsInv(c, INITIAL, init);
      if TimesOutFirst(c) {
        TimedStep(c, Run(c, INITIAL, init), events[|events| - 1]);
      }
      if c.halfOpenMaxTrials == 1 {
        SingleTrialStep(c, Run(c, INITIAL, init), events[|events| - 1]);
      }
    }
  }

  // ---------------------------------------------------------------- otherwise an old probe can end a visit

  lemma RunAppend(c: Config, s: System, events: seq<Event>, e: Event)
    requires CanRun(c, s, events) && Enabled(c, Run(c, s, events), e)
    ensures CanRun(c, s, events + [e]) && Run(c, s, events + [e]) == Step(c, Run(c, s, events), e)
  {
    assert (events + [e])[..|events + [e]| - 1] == events;
  }

  /** `n` calls, each failing at once. */
  function Trips(n: nat): seq<Event> {
    if n == 0 then [] else Trips(n - 1) + [Execute] + [Settle(n - 1, false)]
  }

  /** One call that fails at once, from CLOSED with nothing unsettled. */
  lemma OneTrip(c: Config, s: System)
    requires c.Valid() && s.core.state == Closed && s.core.openedAt.None? && s.core.inFlightProbes == 0
    requires s.calls == map[]
    ensures var t := ExecuteStep(c, s);
      && s.nextId in t.calls
      && (var u := SettleStep(c, t, s.nextId, false);
          && u.core == (if s.core.failureCount + 1 < c.failureThreshold
                        then Core(Closed, s.core.failureCount + 1, None, 0) else Core(Open, 0, Some(s.now), 0))
          && u.now == s.now && u.calls == map[] && u.nextId == s.nextId + 1 && Visit(u.log) == Visit(s.log))
  {
    hide Visit;
    var call, log := Call(false, Visit(s.log), s.now), s.log + [Started(s.now)];
    assert ExecuteStep(c, s) == s.(calls := map[s.nextId := call], nextId := s.nextId + 1, log := log);
    AppendVisit(s.log, Started(s.now));
    AppendVisit(log, Settled(false, false));
    AppendVisit(log + [Settled(false, false)], Entered(Open, s.now));
  }

  lemma {:induction false} TripsOpen(c: Config, n: nat)
    requires c.Valid() && n <= c.failureThreshold
    ensures CanRun(c, INITIAL, Trips(n))
    ensures var s := Run(c, INITIAL, Trips(n));
      && s.core == (if n < c.failureThreshold then Core(Closed, n, None, 0) else Core(Open, 0, Some(0), 0))
      && s.now == 0 && s.calls == map[] && s.nextId == n && Visit(s.log) == 0
    decreases n
  {
    if n > 0 {
      TripsOpen(c, n - 1);
      OneTrip(c, Run(c, INITIAL, Trips(n - 1)));
      RunAppend(c, INITIAL, Trips(n - 1), Execute);
      RunAppend(c, INITIAL, Trips(n - 1) + [Execute], Settle(n - 1, false));
    }
  }

  /** The run up to the first probe of the first visit. */
  lemma FirstProbe(c: Config) returns (events: seq<Event>)
    requires c.Valid()
    ensures CanRun(c, INITIAL, events)
    ensures var s, f, r := Run(c, INITIAL, events), c.failureThreshold, c.RecoveryMs();
      && s.core == Core(HalfOpen, 0, Some(0), 1) && s.now == r && s.nextId == f + 1 && Visit(s.log) == 1
      && s.calls == map[f := Call(true, 1, r)]
  {
    hide Visit, Run, CanRun, Trips, ExecuteStep;
    var r := c.RecoveryMs();
    TripsOpen(c, c.failureThreshold);
    RunAppend(c, INITIAL, Trips(c.failureThreshold), Tick(r));
    events := Trips(c.failureThreshold) + [Tick(r)];
    RecoveredProbe(c, Run(c, INITIAL, events));
    RunAppend(c, INITIAL, events, Execute);
    events := events + [Execute];
  }

  /** The first call after the recovery timeout, with nothing unsettled. */
  lemma RecoveredProbe(c: Config, s: System)
    requires c.Valid() && s.core == Core(Open, 0, Some(0), 0) && s.now == c.RecoveryMs() && s.calls == map[]
    ensures var t := ExecuteStep(c, s);
      && t.core == Core(HalfOpen, 0, Some(0), 1) && t.now == s.now && t.nextId == s.nextId + 1
      && Visit(t.log) == Visit(s.log) + 1 && t.calls == map[s.nextId := Call(true, Visit(s.log) + 1, s.now)]
  {
    hide Visit;
    AppendVisit(s.log, Entered(HalfOpen, s.now));
    AppendVisit(s.log + [Entered(HalfOpen, s.now)], Started(s.now));
  }

  /** With two trials, a second probe of the same visit. */
  lemma FirstVisit(c: Config) returns (events: seq<Event>)
    requires c.Valid() && c.halfOpenMaxTrials >= 2
    ensures CanRun(c, INITIAL, events)
    ensures var s, f, r := Run(c, INITIAL, events), c.failureThreshold, c.RecoveryMs();
      && s.core == Core(HalfOpen, 0, Some(0), 2) && s.now == r && Visit(s.log) == 1
      && s.calls == map[f := Call(true, 1, r), f + 1 := Call(true, 1, r)]
  {
    hide Visit, Run, CanRun;
    events := FirstProbe(c);
    var s := Run(c, INITIAL, events);
    RunAppend(c, INITIAL, events, Execute);
    events := events + [Execute];
    AppendVisit(s.log, Started(s.now));
  }

  /** One probe fails and reopens the breaker; the other is still unsettled. */
  lemma Reopened(c: Config) returns (events: seq<Event>)
    requires c.Valid() && c.halfOpenMaxTrials >= 2
    ensures CanRun(c, INITIAL, events)
    ensures var s, f, r := Run(c, INITIAL, events), c.failureThreshold, c.RecoveryMs();
      && s.core == Core(Open, 0, Some(r), 1) && s.now == r && Visit(s.log) == 1
      && s.calls == map[f + 1 := Call(true, 1, r)]
  {
    hide Visit, Run, CanRun;
    var f := c.failureThreshold;
    events := FirstVisit(c);
    var s := Run(c, INITIAL, events);
    RunAppend(c, INITIAL, events, Settle(f, false));
    events := events + [Settle(f, false)];
    AppendVisit(s.log, Settled(true, false));
    AppendVisit(s.log + [Settled(true, false)], Entered(Open, s.now));
  }

  /** The other probe outlives the recovery timeout: it is unsettled when the second visit begins. */
  lemma Overstayed(c: Config) returns (events: seq<Event>)
    requires c.Valid() && c.halfOpenMaxTrials >= 2 && !TimesOutFirst(c)
    ensures CanRun(c, INITIAL, events)
    ensures var s, f, r := Run(c, INITIAL, events), c.failureThreshold, c.RecoveryMs();
      s.core.state == HalfOpen && Visit(s.log) == 2 && s.calls == map[f + 1 := Call(true, 1, r)]
  {
    hide Visit, Run, CanRun;
    var r := c.RecoveryMs();
    events := Reopened(c);
    RunAppend(c, INITIAL, events, Tick(r));
    events := events + [Tick(r)];
    var s := Run(c, INITIAL, events);
    RunAppend(c, INITIAL, events, Poll);
    events := events + [Poll];
    AppendVisit(s.log, Entered(HalfOpen, s.now));
  }

  lemma LeftoverEndsVisit(c: Config) returns (events: seq<Event>)
    requires c.Valid() && c.halfOpenMaxTrials >= 2 && !TimesOutFirst(c)
    ensures CanRun(c, INITIAL, events) && !VisitsEndByOwnProbes(c, events)
  {
    var before := Overstayed(c);
    var last := Settle(c.failureThreshold + 1, false);
    RunAppend(c, INITIAL, before, last);
    events := before + [last];
    assert events[..|events| - 1] == before;
    assert !EndsByOwnProbe(c, Run(c, INITIAL, before), last);
  }

  /**
   * On every interleaving each HALF_OPEN visit is ended only by a probe admitted in that same visit
   * exactly when the breaker allows one trial, or its calls time out before it can try again.
   */
  lemma VisitsEndByOwnProbesIff(c: Config)
    requires c.Valid()
    ensures (c.halfOpenMaxTrials == 1 || TimesOutFirst(c)) <==>
      forall events | CanRun(c, INITIAL, events) :: VisitsEndByOwnProbes(c, events)
  {
    if c.halfOpenMaxTrials == 1 || TimesOutFirst(c) {
      forall events | CanRun(c, INITIAL, events)
        ensures VisitsEndByOwnProbes(c, events)
      {
        SafeConfigsEndOwnVisits(c, events);
      }
    } else {
      var events := LeftoverEndsVisit(c);
    }
  }

  /** The gateway's settings: 5000 ms timeouts, 30000 ms recovery. */
  lemma GatewayBreakersAreSafe(events: seq<Event>)
    requires CanRun(Config(5, 30000.0, 1, 5000.0), INITIAL, events)
    ensures VisitsEndByOwnProbes(Config(5, 30000.0, 1, 5000.0), events)
    ensures OnlyOwnProbes(Run(Config(5, 30000.0, 1, 5000.0), INITIAL, events))
  {
    SafeConfigsEndOwnVisits(Config(5, 30000.0, 1, 5000.0), events);
  }

  // ---------------------------------------------------------------- load on a dead upstream

  ghost predicate AllFail(events: seq<Event>) {
    forall i | 0 <= i < |events| && events[i].Settle? :: !events[i].ok
  }

  /** `n` times `k`, one addition at a time. */
  function Times(n: nat, k: int): int {
    if n == 0 then 0 else Times(n - 1, k) + k
  }

  lemma {:induction false} TimesIsProduct(n: nat, k: int)
    ensures Times(n, k) == n * k
  {
    if n > 0 {
      TimesIsProduct(n - 1, k);
    }
  }

  /** Visits, starts and elapsed time since the opening at `s`, while every call fails. */
  ghost predicate LoadOk(c: Config, s: System, t: System) {
    && s.core.openedAt.Some? && t.core.openedAt.Some? && t.core.state != Closed
    && Visit(t.log) >= Visit(s.log)
    && (var t0, h, r := s.core.openedAt.value, c.halfOpenMaxTrials, c.RecoveryMs();
        var visits, starts := Visit(t.log) - Visit(s.log), Starts(t.log) - Starts(s.log);
        && (t.core.state == Open ==>
            starts <= Times(visits, h) && t.core.openedAt.value - t0 >= Times(visits, r))
        && (t.core.state == HalfOpen ==>
            visits >= 1 && starts <= Times(visits - 1, h) + StartsInState(t.log) && t.now - t0 >= Times(visits, r)))
  }

  lemma LoadStep(c: Config, s: System, t: System, e: Event)
    requires c.Valid() && Inv(c, s) && Inv(c, t) && s.core.state == Open && LoadOk(c, s, t)
    requires Enabled(c, t, e) && (e.Settle? ==> !e.ok)
    ensures LoadOk(c, s, Step(c, t, e))
  {
    match e
    case Tick(ms) =>
    case Poll => LoadPoll(c, s, t);
    case Execute => LoadExecute(c, s, t);
    case Settle(id, ok) => LoadFailure(c, s, t, id);
  }

  lemma LoadPoll(c: Config, s: System, t: System)
    requires c.Valid() && Inv(c, t) && LoadOk(c, s, t)
    ensures LoadOk(c, s, PollStep(c, t))
  {
    AppendVisit(t.log, Entered(HalfOpen, t.now));
    AppendStart(t.log, Entered(HalfOpen, t.now));
  }

  lemma LoadExecute(c: Config, s: System, t: System)
    requires c.Valid() && Inv(c, t) && LoadOk(c, s, t)
    ensures LoadOk(c, s, ExecuteStep(c, t))
  {
    LoadPoll(c, s, t);
    AppendVisit(PollStep(c, t).log, Started(t.now));
    AppendStart(PollStep(c, t).log, Started(t.now));
  }

  lemma LoadFailure(c: Config, s: System, t: System, id: nat)
    requires c.Valid() && Inv(c, t) && LoadOk(c, s, t) && id in t.calls
    ensures LoadOk(c, s, SettleStep(c, t, id, false))
  {
    var settled := t.log + [Settled(t.calls[id].isProbe, false)];
    AppendVisit(t.log, Settled(t.calls[id].isProbe, false));
    AppendStart(t.log, Settled(t.calls[id].isProbe, false));
    AppendVisit(settled, Entered(Open, t.now));
    AppendStart(settled, Entered(Open, t.now));
  }

  lemma {:induction false} LoadInRun(c: Config, s: System, events: seq<Event>)
    requires c.Valid() && Inv(c, s) && s.core.state == Open
    requires CanRun(c, s, events) && AllFail(events)
    ensures LoadOk(c, s, Run(c, s, events))
    decreases |events|
  {
    if events != [] {
      var init := events[..|events| - 1];
      LoadInRun(c, s, init);
      RunKeepsInv(c, s, init);
      LoadStep(c, s, Run(c, s, init), events[|events| - 1]);
    }
  }

  /**
   * Once the breaker is open, and while every settled call fails, the calls started are bounded by
   * halfOpenMaxTrials for each full recovery timeout since it opened.
   */
  lemma DeadUpstreamLoad(c: Config, s: System, events: seq<Event>)
    requires c.Valid() && Reachable(c, s) && s.core.state == Open && s.core.openedAt.Some? && c.recoveryTimeoutMs > 0.0
    requires CanRun(c, s, events) && AllFail(events)
    ensures var t := Run(c, s, events);
      Starts(t.log) - Starts(s.log) <= c.halfOpenMaxTrials * ((t.now - s.core.openedAt.value) / c.RecoveryMs())
  {
    hide Inv, Visit, Starts, StartsInState;
    ReachableInv(c, s);
    LoadInRun(c, s, events);
    RunKeepsInv(c, s, events);
    var t := Run(c, s, events);
    LoadFacts(c, t);
    var visits := Visit(t.log) - Visit(s.log);
    var elapsed, r := t.now - s.core.openedAt.value, c.RecoveryMs();
    LoadArithmetic(c.halfOpenMaxTrials, visits, elapsed, r);
  }

  lemma LoadFacts(c: Config, t: System)
    requires Inv(c, t)
    ensures t.core.openedAt.Some? ==> t.core.openedAt.value <= t.now
    ensures t.core.state == HalfOpen ==> StartsInState(t.log) <= c.halfOpenMaxTrials
  {
  }

  lemma LoadArithmetic(h: nat, visits: nat, elapsed: int, r: int)
    requires r > 0 && elapsed >= Times(visits, r)
    ensures Times(visits, h) <= h * (elapsed / r)
  {
    TimesIsProduct(visits, h);
    TimesIsProduct(visits, r);
    FullPeriods(visits, elapsed, r);
    Monotone(visits, elapsed / r, h);
  }
}
