/** What a call, a settled call and a look at the breaker do in every state that can be reached. */
module BreakerSteps {
  import opened Common
  import opened CircuitBreaker
  import opened BreakerRuns
  import opened BreakerTheorems

  /** The recovery timeout has elapsed since the breaker last opened. */
  ghost predicate Elapsed(c: Config, s: System)
    requires LastOpening(s.log).Some?
  {
    (s.now - LastOpening(s.log).value) as real >= c.recoveryTimeoutMs
  }

  /** The call was let through: `fn` started, at once, as a probe or as an ordinary call. */
  ghost predicate StartsOne(s: System, t: System, isProbe: bool) {
    && s.nextId !in s.calls && t.nextId == s.nextId + 1
    && t.calls == s.calls[s.nextId := Call(isProbe, Visit(t.log), s.now)]
    && Starts(t.log) == Starts(s.log) + 1
  }

  /** The call was refused: nothing started. */
  ghost predicate StartsNone(s: System, t: System) {
    t.nextId == s.nextId && t.calls == s.calls && Starts(t.log) == Starts(s.log)
  }

  /**
   * CLOSED lets every call through; OPEN lets one through, as a probe, exactly from the moment the recovery timeout has
   * elapsed since it last opened; HALF_OPEN lets one through, as a probe, exactly while this visit has room.
   */
  lemma ExecuteAdmits(c: Config, s: System)
    requires c.Valid() && Reachable(c, s)
    ensures var t := Step(c, s, Execute);
      && (s.core.state == Closed ==> StartsOne(s, t, false) && t.core == s.core)
      && (s.core.state == Open ==> LastOpening(s.log).Some?)
      && (s.core.state == Open && Elapsed(c, s) ==> StartsOne(s, t, true) && t.core.state == HalfOpen)
      && (s.core.state == Open && !Elapsed(c, s) ==> StartsNone(s, t) && t == s)
      && (s.core.state == HalfOpen && |ProbesOfVisit(s)| < c.halfOpenMaxTrials ==>
            StartsOne(s, t, true) && t.core.state == HalfOpen)
      && (s.core.state == HalfOpen && |ProbesOfVisit(s)| >= c.halfOpenMaxTrials ==> StartsNone(s, t) && t == s)
  {
    hide Inv, Starts, Visit, LastOpening, PollStep, ExecuteStep, StartStep, StartsOne, ProbesOfVisit;
    var p := PollStep(c, s);
    ReachableInv(c, s);
    StateFacts(c, s);
    PollRecovers(c, s);
    PollStartsNone(c, s);
    ExecuteStarts(c, s);
    StartStarts(p);
    SameStarts(s, p, StartStep(p), p.core.state == HalfOpen);
  }

  lemma StateFacts(c: Config, s: System)
    requires Inv(c, s)
    ensures s.nextId !in s.calls
    ensures s.core.state == HalfOpen ==> s.core.inFlightProbes == |ProbesOfVisit(s)|
  {
  }

  lemma PollStartsNone(c: Config, s: System)
    ensures var p := PollStep(c, s);
      && StartsNone(s, p) && p.now == s.now
      && (p.core.state == HalfOpen != s.core.state ==> p.core.inFlightProbes == 0)
  {
    hide Starts;
    AppendStart(s.log, Entered(HalfOpen, s.now));
  }

  lemma StartStarts(p: System)
    requires p.nextId !in p.calls
    ensures StartsOne(p, StartStep(p), p.core.state == HalfOpen)
    ensures StartStep(p).core.state == p.core.state && (p.core.state == Closed ==> StartStep(p).core == p.core)
  {
    hide Starts, Visit;
    AppendStart(p.log, Started(p.now));
    AppendVisit(p.log, Started(p.now));
  }

  lemma SameStarts(s: System, p: System, t: System, isProbe: bool)
    requires StartsNone(s, p) && p.now == s.now && StartsOne(p, t, isProbe)
    ensures StartsOne(s, t, isProbe)
  {
  }

  /** Looking at the state moves it from OPEN to HALF_OPEN exactly once the recovery timeout has elapsed. */
  lemma PollRecovers(c: Config, s: System)
    requires c.Valid() && Reachable(c, s)
    ensures var t := Step(c, s, Poll);
      && (s.core.state != Open ==> t == s)
      && (s.core.state == Open ==> LastOpening(s.log).Some?)
      && (s.core.state == Open && Elapsed(c, s) ==> t.core.state == HalfOpen && t.calls == s.calls)
      && (s.core.state == Open && !Elapsed(c, s) ==> t == s)
  {
    ReachableInv(c, s);
    hide LastOpening, OpeningsOk;
  }

  /**
   * A settled call is no longer in flight, and moves the state in three cases only: in CLOSED, a failure opens the
   * breaker at the threshold; in HALF_OPEN, a probe that succeeds closes it and a probe that fails opens it again.
   */
  lemma SettleMoves(c: Config, s: System, id: nat, ok: bool)
    requires c.Valid() && Reachable(c, s) && id in s.calls
    ensures var t, probe := Step(c, s, Settle(id, ok)), s.calls[id].isProbe;
      && t.calls == s.calls - {id} && t.now == s.now && t.nextId == s.nextId
      && (t.core.state == Closed <==>
            || (s.core.state == Closed && (ok || RecentFailures(s.log) + 1 < c.failureThreshold))
            || (s.core.state == HalfOpen && probe && ok))
      && (t.core.state == Open <==>
            || s.core.state == Open
            || (s.core.state == Closed && !ok && RecentFailures(s.log) + 1 == c.failureThreshold)
            || (s.core.state == HalfOpen && probe && !ok))
      && (t.core.state == Open != s.core.state ==> t.core.openedAt == Some(s.now))
      && (s.core.state == Open ==> t.core.openedAt == s.core.openedAt)
      && (t.core.state == Closed ==>
            t.core.failureCount ==
              if !ok then RecentFailures(s.log) + 1
              else if probe && s.core.state == Closed then RecentFailures(s.log) else 0)
  {
    ReachableInv(c, s);
    hide RecentFailures, LastOpening, Visit, StartsInState, OpeningsOk;
  }
}
