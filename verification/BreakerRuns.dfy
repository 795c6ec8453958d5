/**
 * Every interleaving of calls through one breaker. A call is admitted in one step and settles in a
 * later one; the clock cannot pass the deadline that withTimeout puts on an unsettled call.
 */
module BreakerRuns {
  import opened Common
  import opened CircuitBreaker
  import Timeout

  /** An admitted call that has not settled; `visit` numbers the HALF_OPEN visits up to its admission. */
  datatype Call = Call(isProbe: bool, visit: nat, at: int)

  datatype Mark = Entered(state: State, at: int) | Started(at: int) | Settled(isProbe: bool, ok: bool)

  datatype System = System(core: Core, now: int, calls: map<nat, Call>, nextId: nat, log: seq<Mark>)

  datatype Event = Tick(ms: nat) | Execute | Settle(id: nat, ok: bool) | Poll

  const INITIAL := System(FRESH, 0, map[], 0, [])

  /** HALF_OPEN visits so far. */
  function Visit(log: seq<Mark>): nat {
    if log == [] then 0
    else Visit(log[..|log| - 1]) + (if log[|log| - 1].Entered? && log[|log| - 1].state == HalfOpen then 1 else 0)
  }

  /** Calls to `fn` started so far. */
  function Starts(log: seq<Mark>): nat {
    if log == [] then 0
    else Starts(log[..|log| - 1]) + (if log[|log| - 1].Started? then 1 else 0)
  }

  /** Calls started since the last change of state. */
  function StartsInState(log: seq<Mark>): nat {
    if log == [] || log[|log| - 1].Entered? then 0
    else StartsInState(log[..|log| - 1]) + (if log[|log| - 1].Started? then 1 else 0)
  }

  /** Failures settled since the later of the last change of state and the last ordinary success. */
  function RecentFailures(log: seq<Mark>): nat {
    if log == [] then 0
    else match log[|log| - 1]
      case Entered(_, _) => 0
      case Started(_) => RecentFailures(log[..|log| - 1])
      case Settled(isProbe, ok) =>
        if !ok then RecentFailures(log[..|log| - 1]) + 1
        else if isProbe then RecentFailures(log[..|log| - 1])
        else 0
  }

  /** When the breaker last opened. */
  function LastOpening(log: seq<Mark>): Option<int> {
    if log == [] then None
    else if log[|log| - 1].Entered? && log[|log| - 1].state == Open then Some(log[|log| - 1].at)
    else LastOpening(log[..|log| - 1])
  }

  function Noted(log: seq<Mark>, before: State, after: State, now: int): (r: seq<Mark>)
    ensures log <= r
  {
    if before == after then log else log + [Entered(after, now)]
  }

  predicate WithinDeadlines(c: Config, s: System, now: int) {
    c.timeoutMs > 0.0 ==> forall id | id in s.calls :: now - s.calls[id].at <= c.TimeoutMs()
  }

  /**
   * The clock rule is what withTimeout gives: the clock can be at `now` exactly if every unsettled call could still be
   * in its race then, and no race lasts longer than that of a promise that never settles.
   */
  lemma ClockRuleIsTimeout<T>(c: Config, s: System, now: int, promise: Timeout.Promise<T>, start: int)
    requires c.timeoutMs > 0.0
    ensures WithinDeadlines(c, s, now) <==>
      forall id | id in s.calls :: now <= Timeout.RaceEnd<T>(Timeout.Pending, c.timeoutMs, s.calls[id].at)
    ensures Timeout.RaceEnd(promise, c.timeoutMs, start) <= Timeout.RaceEnd<T>(Timeout.Pending, c.timeoutMs, start)
  {
  }

  predicate Enabled(c: Config, s: System, e: Event) {
    match e
    case Tick(ms) => WithinDeadlines(c, s, s.now + ms)
    case Settle(id, _) => id in s.calls
    case Execute => true
    case Poll => true
  }

  function PollStep(c: Config, s: System): System {
    var core := Recovered(c, s.core, s.now);
    s.(core := core, log := Noted(s.log, s.core.state, core.state, s.now))
  }

  function ExecuteStep(c: Config, s: System): System {
    var polled := PollStep(c, s);
    var (core, a) := Admit(c, s.core, s.now);
    if a.Refused? then polled
    else polled.(
      core := core,
      calls := s.calls[s.nextId := Call(a.isProbe, Visit(polled.log), s.now)],
      nextId := s.nextId + 1,
      log := polled.log + [Started(s.now)])
  }

  function SettleStep(c: Config, s: System, id: nat, ok: bool): System
    requires id in s.calls
  {
    var isProbe := s.calls[id].isProbe;
    var core := if ok then Succeed(s.core, isProbe) else Fail(c, s.core, isProbe, s.now);
    s.(core := core,
       calls := s.calls - {id},
       log := Noted(s.log + [Settled(isProbe, ok)], s.core.state, core.state, s.now))
  }

  function Step(c: Config, s: System, e: Event): System
    requires Enabled(c, s, e)
  {
    match e
    case Tick(ms) => s.(now := s.now + ms)
    case Execute => ExecuteStep(c, s)
    case Settle(id, ok) => SettleStep(c, s, id, ok)
    case Poll => PollStep(c, s)
  }

  predicate CanRun(c: Config, s: System, events: seq<Event>)
    decreases |events|, 0
  {
    events == [] ||
    (CanRun(c, s, events[..|events| - 1]) && Enabled(c, Run(c, s, events[..|events| - 1]), events[|events| - 1]))
  }

  function Run(c: Config, s: System, events: seq<Event>): System
    requires CanRun(c, s, events)
    decreases |events|, 1
  {
    if events == [] then s
    else Step(c, Run(c, s, events[..|events| - 1]), events[|events| - 1])
  }

  // ---------------------------------------------------------------- what every step keeps

  /** The unsettled probes admitted in the current HALF_OPEN visit. */
  function ProbesOfVisit(s: System): set<nat> {
    set id | id in s.calls && s.calls[id].isProbe && s.calls[id].visit == Visit(s.log)
  }

  ghost predicate OpeningsSpaced(c: Config, log: seq<Mark>) {
    forall i, j | 0 <= i < j < |log| && log[i].Entered? && log[j].Entered? && log[i].state == Open == log[j].state ::
      log[j].at - log[i].at >= c.RecoveryMs()
  }

  ghost predicate CallsKnown(s: System) {
    forall id | id in s.calls ::
      id < s.nextId && s.calls[id].at <= s.now && s.calls[id].visit <= Visit(s.log)
  }

  ghost predicate ClosedOk(c: Config, s: System) {
    s.core.state == Closed ==>
      && s.core.openedAt.None?
      && s.core.failureCount == RecentFailures(s.log) < c.failureThreshold
  }

  ghost predicate OpenOk(c: Config, s: System) {
    && (s.core.state != Closed ==>
          s.core.openedAt.Some? && s.core.openedAt == LastOpening(s.log) && s.core.failureCount == 0)
    && (s.core.state == Open ==> forall id | id in s.calls :: s.calls[id].at <= s.core.openedAt.value)
  }

  ghost predicate HalfOpenOk(c: Config, s: System) {
    && 0 <= s.core.inFlightProbes
    && (s.core.state == HalfOpen ==>
      && s.core.inFlightProbes == |ProbesOfVisit(s)| == StartsInState(s.log) <= c.halfOpenMaxTrials)
  }

  ghost predicate OpeningsOk(c: Config, s: System) {
    && OpeningsSpaced(c, s.log)
    && (forall i | 0 <= i < |s.log| && s.log[i].Entered? && s.log[i].state == Open ::
          LastOpening(s.log).Some? && s.log[i].at <= LastOpening(s.log).value)
    && (LastOpening(s.log).Some? ==> LastOpening(s.log).value <= s.now)
    && (LastOpening(s.log).Some? && s.core.state != Open ==> s.now - LastOpening(s.log).value >= c.RecoveryMs())
  }

  ghost predicate Inv(c: Config, s: System) {
    && CallsKnown(s) && ClosedOk(c, s) && OpenOk(c, s) && HalfOpenOk(c, s) && OpeningsOk(c, s)
    && WithinDeadlines(c, s, s.now)
  }

  lemma AppendMark(log: seq<Mark>, m: Mark)
    ensures (log + [m])[..|log + [m]| - 1] == log && (log + [m])[|log + [m]| - 1] == m
  {
  }

  lemma AppendVisit(log: seq<Mark>, m: Mark)
    ensures Visit(log + [m]) == Visit(log) + (if m.Entered? && m.state == HalfOpen then 1 else 0)
  {
    AppendMark(log, m);
  }

  lemma AppendStart(log: seq<Mark>, m: Mark)
    ensures Starts(log + [m]) == Starts(log) + (if m.Started? then 1 else 0)
    ensures StartsInState(log + [m]) == if m.Entered? then 0 else StartsInState(log) + (if m.Started? then 1 else 0)
  {
    AppendMark(log, m);
  }

  lemma InitialInv(c: Config)
    requires c.Valid()
    ensures Inv(c, INITIAL)
  {
  }

  lemma PollKeepsInv(c: Config, s: System)
    requires c.Valid() && Inv(c, s)
    ensures Inv(c, PollStep(c, s))
    ensures PollStep(c, s).core.state == HalfOpen != s.core.state ==> ProbesOfVisit(PollStep(c, s)) == {}
  {
    var t := PollStep(c, s);
    if t.core.state != s.core.state {
      AppendMark(s.log, Entered(HalfOpen, s.now));
      assert ProbesOfVisit(t) == {};
    }
  }

  /** Marks that are not a change of state leave visits and openings as they were. */
  lemma QuietMark(c: Config, log: seq<Mark>, m: Mark)
    requires !m.Entered?
    ensures Visit(log + [m]) == Visit(log) && LastOpening(log + [m]) == LastOpening(log)
    ensures OpeningsSpaced(c, log) ==> OpeningsSpaced(c, log + [m])
    ensures StartsInState(log + [m]) == StartsInState(log) + (if m.Started? then 1 else 0)
    ensures RecentFailures(log + [m]) == match m
      case Started(_) => RecentFailures(log)
      case Settled(isProbe, ok) => if !ok then RecentFailures(log) + 1 else if isProbe then RecentFailures(log) else 0
      case Entered(_, _) => 0
  {
    AppendMark(log, m);
  }

  /** A call started in a polled state that admits one. */
  function StartStep(p: System): System {
    var isProbe := p.core.state == HalfOpen;
    p.(core := if isProbe then p.core.(inFlightProbes := p.core.inFlightProbes + 1) else p.core,
       calls := p.calls[p.nextId := Call(isProbe, Visit(p.log), p.now)],
       nextId := p.nextId + 1,
       log := p.log + [Started(p.now)])
  }

  lemma StartKeepsInv(c: Config, p: System)
    requires Inv(c, p) && p.core.state != Open
    requires p.core.state == HalfOpen ==> p.core.inFlightProbes < c.halfOpenMaxTrials
    ensures Inv(c, StartStep(p))
  {
    hide Visit, LastOpening, StartsInState, RecentFailures, OpeningsSpaced;
    var t := StartStep(p);
    QuietMark(c, p.log, Started(p.now));
    assert CallsKnown(t) && WithinDeadlines(c, t, t.now);
    if t.core.state == HalfOpen {
      assert ProbesOfVisit(t) == ProbesOfVisit(p) + {p.nextId};
    }
  }

  lemma ExecuteStarts(c: Config, s: System)
    ensures var p := PollStep(c, s);
      ExecuteStep(c, s) ==
        if p.core.state == Open || (p.core.state == HalfOpen && p.core.inFlightProbes >= c.halfOpenMaxTrials) then p
        else StartStep(p)
  {
    hide Visit, Noted;
  }

  lemma ExecuteKeepsInv(c: Config, s: System)
    requires c.Valid() && Inv(c, s)
    ensures Inv(c, ExecuteStep(c, s))
  {
    hide Inv, PollStep, ExecuteStep, StartStep;
    PollKeepsInv(c, s);
    ExecuteStarts(c, s);
    if ExecuteStep(c, s) != PollStep(c, s) {
      StartKeepsInv(c, PollStep(c, s));
    }
  }

  /** A change of state at `now`. */
  lemma EnterMark(c: Config, log: seq<Mark>, state: State, now: int)
    ensures Visit(log + [Entered(state, now)]) == Visit(log) + (if state == HalfOpen then 1 else 0)
    ensures LastOpening(log + [Entered(state, now)]) == if state == Open then Some(now) else LastOpening(log)
    ensures RecentFailures(log + [Entered(state, now)]) == 0 == StartsInState(log + [Entered(state, now)])
  {
    AppendMark(log, Entered(state, now));
  }

  lemma SettleKeepsInv(c: Config, s: System, id: nat, ok: bool)
    requires c.Valid() && Inv(c, s) && id in s.calls
    ensures Inv(c, SettleStep(c, s, id, ok))
  {
    hide Visit, LastOpening, StartsInState, RecentFailures;
    var t := SettleStep(c, s, id, ok);
    var settled := s.log + [Settled(s.calls[id].isProbe, ok)];
    QuietMark(c, s.log, Settled(s.calls[id].isProbe, ok));
    EnterMark(c, settled, t.core.state, s.now);
    if t.core.state == s.core.state == HalfOpen {
      assert ProbesOfVisit(t) == ProbesOfVisit(s);
    }
  }

  lemma StepKeepsInv(c: Config, s: System, e: Event)
    requires c.Valid() && Inv(c, s) && Enabled(c, s, e)
    ensures Inv(c, Step(c, s, e))
  {
    match e
    case Tick(ms) => assert ProbesOfVisit(Step(c, s, e)) == ProbesOfVisit(s);
    case Execute => ExecuteKeepsInv(c, s);
    case Settle(id, ok) => SettleKeepsInv(c, s, id, ok);
    case Poll => PollKeepsInv(c, s);
  }

  lemma {:induction false} RunKeepsInv(c: Config, s: System, events: seq<Event>)
    requires c.Valid() && Inv(c, s) && CanRun(c, s, events)
    ensures Inv(c, Run(c, s, events))
    decreases |events|
  {
    if events != [] {
      RunKeepsInv(c, s, events[..|events| - 1]);
      StepKeepsInv(c, Run(c, s, events[..|events| - 1]), events[|events| - 1]);
    }
  }

  ghost predicate Reachable(c: Config, s: System) {
    exists events :: CanRun(c, INITIAL, events) && Run(c, INITIAL, events) == s
  }

  lemma ReachableInv(c: Config, s: System)
    requires c.Valid() && Reachable(c, s)
    ensures Inv(c, s)
  {
    var events :| CanRun(c, INITIAL, events) && Run(c, INITIAL, events) == s;
    InitialInv(c);
    RunKeepsInv(c, INITIAL, events);
  }
}
