/** The bound on the load of a dead upstream is reached, so no smaller one holds. */
module BreakerLoad {
  import opened Common
  import opened CircuitBreaker
  import opened BreakerRuns
  import opened BreakerTheorems
  import opened Periods

  /** Just opened, with no call unsettled. */
  ghost predicate JustOpened(s: System) {
    s.core.state == Open && s.core.openedAt == Some(s.now) && s.core.failureCount == 0 && s.calls == map[]
  }

  /** In HALF_OPEN, with exactly the probes `first`, ..., `end - 1` unsettled. */
  ghost predicate Probing(s: System, first: nat, end: nat) {
    && s.core.state == HalfOpen && s.core.failureCount == 0 && s.nextId == end
    && first <= end && s.core.inFlightProbes == end - first
    && (forall id :: id in s.calls <==> first <= id < end)
    && (forall id | id in s.calls :: s.calls[id].isProbe && s.calls[id].at == s.now)
  }

  /** Reopened by a probe, with the probes `first`, ..., `end - 1` of that visit still unsettled. */
  ghost predicate Draining(s: System, first: nat, end: nat) {
    && s.core.state == Open && s.core.openedAt == Some(s.now) && s.core.failureCount == 0 && s.nextId == end
    && (forall id :: id in s.calls <==> first <= id < end)
    && (forall id | id in s.calls :: s.calls[id].isProbe && s.calls[id].at == s.now)
  }

  lemma FirstStart(c: Config, s: System)
    requires c.Valid() && JustOpened(s)
    ensures var t := ExecuteStep(c, s.(now := s.now + c.RecoveryMs()));
      Probing(t, s.nextId, s.nextId + 1) && t.now == s.now + c.RecoveryMs() && Starts(t.log) == Starts(s.log) + 1
  {
    var waited := s.(now := s.now + c.RecoveryMs());
    hide Starts;
    AppendStart(s.log, Entered(HalfOpen, waited.now));
    AppendStart(s.log + [Entered(HalfOpen, waited.now)], Started(waited.now));
  }

  lemma NextStart(c: Config, s: System, first: nat)
    requires Probing(s, first, s.nextId) && s.nextId - first < c.halfOpenMaxTrials
    ensures var t := ExecuteStep(c, s);
      Probing(t, first, s.nextId + 1) && t.now == s.now && Starts(t.log) == Starts(s.log) + 1
  {
    hide Starts;
    AppendStart(s.log, Started(s.now));
  }

  lemma FirstFailure(c: Config, s: System, first: nat, end: nat)
    requires Probing(s, first, end) && first < end
    ensures var t := SettleStep(c, s, first, false);
      Draining(t, first + 1, end) && t.now == s.now && Starts(t.log) == Starts(s.log)
  {
    hide Starts;
    AppendStart(s.log, Settled(true, false));
    AppendStart(s.log + [Settled(true, false)], Entered(Open, s.now));
  }

  lemma NextFailure(c: Config, s: System, first: nat, end: nat)
    requires Draining(s, first, end) && first < end
    ensures var t := SettleStep(c, s, first, false);
      Draining(t, first + 1, end) && t.now == s.now && Starts(t.log) == Starts(s.log)
  {
    hide Starts;
    AppendStart(s.log, Settled(true, false));
  }

  lemma ExtendFailing(c: Config, s: System, events: seq<Event>, e: Event)
    requires CanRun(c, s, events) && AllFail(events) && Enabled(c, Run(c, s, events), e) && !(e.Settle? && e.ok)
    ensures CanRun(c, s, events + [e]) && Run(c, s, events + [e]) == Step(c, Run(c, s, events), e)
    ensures AllFail(events + [e])
  {
    RunAppend(c, s, events, e);
  }

  /** After the recovery timeout, `k` probes start. */
  lemma {:induction false} StartProbes(c: Config, s: System, before: seq<Event>, k: nat) returns (events: seq<Event>)
    requires c.Valid() && CanRun(c, s, before) && AllFail(before) && JustOpened(Run(c, s, before))
    requires 1 <= k <= c.halfOpenMaxTrials
    ensures CanRun(c, s, events) && AllFail(events)
    ensures var b, t := Run(c, s, before), Run(c, s, events);
      Probing(t, b.nextId, b.nextId + k) && t.now == b.now + c.RecoveryMs() && Starts(t.log) == Starts(b.log) + k
    decreases k
  {
    hide Run, CanRun, Starts, ExecuteStep, AllFail;
    var b := Run(c, s, before);
    if k == 1 {
      ExtendFailing(c, s, before, Tick(c.RecoveryMs()));
      ExtendFailing(c, s, before + [Tick(c.RecoveryMs())], Execute);
      events := before + [Tick(c.RecoveryMs())] + [Execute];
      FirstStart(c, b);
    } else {
      var fewer := StartProbes(c, s, before, k - 1);
      NextStart(c, Run(c, s, fewer), b.nextId);
      ExtendFailing(c, s, fewer, Execute);
      events := fewer + [Execute];
    }
  }

  /** The first `k` of the probes fail. */
  lemma {:induction false} FailProbes(c: Config, s: System, before: seq<Event>, first: nat, end: nat, k: nat)
    returns (events: seq<Event>)
    requires CanRun(c, s, before) && AllFail(before) && Probing(Run(c, s, before), first, end)
    requires 1 <= k <= end - first
    ensures CanRun(c, s, events) && AllFail(events)
    ensures var b, t := Run(c, s, before), Run(c, s, events);
      Draining(t, first + k, end) && t.now == b.now && Starts(t.log) == Starts(b.log)
    decreases k
  {
    hide Run, CanRun, Starts, SettleStep, AllFail;
    if k == 1 {
      FirstFailure(c, Run(c, s, before), first, end);
      ExtendFailing(c, s, before, Settle(first, false));
      events := before + [Settle(first, false)];
    } else {
      var fewer := FailProbes(c, s, before, first, end, k - 1);
      NextFailure(c, Run(c, s, fewer), first + k - 1, end);
      ExtendFailing(c, s, fewer, Settle(first + k - 1, false));
      events := fewer + [Settle(first + k - 1, false)];
    }
  }

  /** A visit every recovery timeout, each with as many probes as it allows, all failing at once. */
  lemma {:induction false} Volleys(c: Config, s: System, visits: nat) returns (events: seq<Event>)
    requires c.Valid() && JustOpened(s)
    ensures CanRun(c, s, events) && AllFail(events) && JustOpened(Run(c, s, events))
    ensures Run(c, s, events).now == s.now + Times(visits, c.RecoveryMs())
    ensures Starts(Run(c, s, events).log) == Starts(s.log) + Times(visits, c.halfOpenMaxTrials)
    decreases visits
  {
    hide Starts, SettleStep, ExecuteStep;
    if visits == 0 {
      events := [];
    } else {
      var fewer := Volleys(c, s, visits - 1);
      var first := Run(c, s, fewer).nextId;
      var started := StartProbes(c, s, fewer, c.halfOpenMaxTrials);
      events := FailProbes(c, s, started, first, first + c.halfOpenMaxTrials, c.halfOpenMaxTrials);
      assert Run(c, s, events).calls == map[];
    }
  }

  /**
   * For every configuration and every number of full recovery timeouts there is a run in which the upstream stays dead
   * and exactly halfOpenMaxTrials calls start for each of them.
   */
  lemma LoadBoundIsReached(c: Config, visits: nat) returns (opening: seq<Event>, events: seq<Event>)
    requires c.Valid() && c.recoveryTimeoutMs > 0.0
    ensures CanRun(c, INITIAL, opening) && Run(c, INITIAL, opening).core.state == Open
    ensures CanRun(c, Run(c, INITIAL, opening), events) && AllFail(events)
    ensures var s := Run(c, INITIAL, opening);
      var t := Run(c, s, events);
      && s.core.openedAt.Some? && (t.now - s.core.openedAt.value) / c.RecoveryMs() == visits
      && Starts(t.log) - Starts(s.log) == c.halfOpenMaxTrials * ((t.now - s.core.openedAt.value) / c.RecoveryMs())
  {
    hide Run, CanRun, Trips, Starts, AllFail;
    opening := Trips(c.failureThreshold);
    TripsOpen(c, c.failureThreshold);
    events := Volleys(c, Run(c, INITIAL, opening), visits);
    TimesIsProduct(visits, c.RecoveryMs());
    TimesIsProduct(visits, c.halfOpenMaxTrials);
    WholePeriods(visits, c.RecoveryMs());
  }
}
