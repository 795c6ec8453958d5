/** Exactly when two workers can be on one event, and what a worker that outlives its lease does. */
module IdempotencyOverlaps {
  import opened Common
  import opened FiniteSets
  import opened Idempotency
  import opened IdempotencyRuns
  import Redis

  /** If the event is delivered again now, it still has at most one worker. */
  ghost predicate NoOverlap(c: Settings, s: System, key: string) {
    |Active(BeginStep(c, s, key), key)| <= 1
  }

  /** A worker on the event that has outlived its lease. */
  ghost predicate Overdue(c: Settings, s: System, id: nat, key: string) {
    id in Active(s, key) && s.now > s.workers[id].since + 1000 * c.processingLeaseSeconds
  }

  lemma TimedHasNoOverlap(c: Settings, s: System, key: string)
    requires c.Valid() && TimedInv(c, s, key)
    ensures NoOverlap(c, s, key)
  {
    var t := BeginStep(c, s, key);
    TimedBegin(c, s, key, key);
    if Active(t, key) != {} {
      var id :| id in Active(t, key);
      assert Active(t, key) == {id};
    }
  }

  /** A worker past its lease: its key is free, and the next delivery puts a second worker beside it. */
  lemma OverdueOverlaps(c: Settings, s: System, ms: nat, id: nat, key: string)
    requires WorkersKnown(s) && HoldsItsKey(c, s, key) && Overdue(c, s.(now := s.now + ms), id, key)
    ensures !NoOverlap(c, s.(now := s.now + ms), key)
  {
    var later := s.(now := s.now + ms);
    assert id in Active(s, key);
    TwoMembers(Active(BeginStep(c, later, key), key), id, s.nextId);
  }

  /** While the workers on an event are on time, a wait is safe exactly if it leaves them within their lease. */
  lemma OverlapIffOverdue(c: Settings, events: seq<Event>, ms: nat, key: string)
    requires c.Valid() && CanRun(c, INITIAL, events) && AllTimely(c, INITIAL, events, key)
    ensures var s := Run(c, INITIAL, events);
      NoOverlap(c, s.(now := s.now + ms), key) <==> Timely(c, s, Tick(ms), key)
  {
    var s := Run(c, INITIAL, events);
    var later := s.(now := s.now + ms);
    TimedRun(c, events, key);
    if Timely(c, s, Tick(ms), key) {
      TimedStep(c, s, Tick(ms), key);
      TimedHasNoOverlap(c, later, key);
    } else {
      var id :| id in Active(s, key) && s.now + ms > s.workers[id].since + 1000 * c.processingLeaseSeconds;
      assert id in Active(later, key);
      OverdueOverlaps(c, s, ms, id, key);
    }
  }

  /** No point of the run lets a second worker in. */
  ghost predicate NeverOverlaps(c: Settings, events: seq<Event>, key: string)
    requires CanRun(c, INITIAL, events)
    decreases |events|
  {
    NoOverlap(c, Run(c, INITIAL, events), key) && (events == [] || NeverOverlaps(c, events[..|events| - 1], key))
  }

  /** An event can get a second worker at some point of a run exactly if a live worker on it outlives its lease. */
  lemma {:induction false} NeverOverlapsIffTimely(c: Settings, events: seq<Event>, key: string)
    requires c.Valid() && CanRun(c, INITIAL, events)
    ensures NeverOverlaps(c, events, key) <==> AllTimely(c, INITIAL, events, key)
    decreases |events|
  {
    if events == [] {
      TimedHasNoOverlap(c, INITIAL, key);
    } else {
      var init, e := events[..|events| - 1], events[|events| - 1];
      NeverOverlapsIffTimely(c, init, key);
      if AllTimely(c, INITIAL, init, key) {
        StepOverlaps(c, init, e, key);
      }
    }
  }

  lemma StepOverlaps(c: Settings, init: seq<Event>, e: Event, key: string)
    requires c.Valid() && CanRun(c, INITIAL, init) && AllTimely(c, INITIAL, init, key)
    requires Enabled(Run(c, INITIAL, init), e)
    ensures NoOverlap(c, Step(c, Run(c, INITIAL, init), e), key) <==> Timely(c, Run(c, INITIAL, init), e, key)
  {
    hide Run, CanRun, NoOverlap;
    var s := Run(c, INITIAL, init);
    if e.Tick? {
      OverlapIffOverdue(c, init, e.ms, key);
    } else {
      TimedRun(c, init, key);
      TimedStep(c, s, e, key);
      TimedHasNoOverlap(c, Step(c, s, e), key);
    }
  }

  // ---------------------------------------------------------------- sending twice

  /** Steps that take no time. */
  predicate NoTicks(events: seq<Event>) {
    forall i | 0 <= i < |events| :: !events[i].Tick?
  }

  /** More sends than the one that is due and those lost with a stopped worker. */
  ghost predicate SentTooOften(s: System, key: string) {
    Sends(s, key) > 1 + Lost(s, key)
  }

  /** What holds of an event never marked before, as long as its workers are on time and the clock stands still. */
  ghost predicate OnTimeUnmarked(c: Settings, s: System, key: string) {
    && TimedInv(c, s, key) && Conserved(s, key)
    && (Marks(s, key) == 0 || (Marks(s, key) == 1 && LastMark(s.log, key) == Some(s.now)))
  }

  /** Once it is marked, nobody works on it while the clock stands still. */
  lemma MarkedNowIsIdle(c: Settings, s: System, key: string)
    requires c.Valid() && TimedInv(c, s, key) && LastMark(s.log, key) == Some(s.now)
    ensures Active(s, key) == {}
  {
    hide LastMark;
  }

  lemma OnTimeStep(c: Settings, s: System, e: Event, key: string)
    requires c.Valid() && OnTimeUnmarked(c, s, key) && Enabled(s, e) && !e.Tick?
    ensures OnTimeUnmarked(c, Step(c, s, e), key)
  {
    if Marks(s, key) == 1 {
      MarkedNowIsIdle(c, s, key);
    }
    TimedStep(c, s, e, key);
    StepConserves(c, s, e, key);
    hide TimedInv, Conserved, Count, LastMark;
    if e.Send? || e.Finish? || e.Stop? {
      var k := s.workers[e.id].key;
      var note := if e.Send? then SentNote(k) else if e.Finish? then MarkedNote(k, s.now) else LostNote(k);
      Append(s.log, note, key);
      AppendMark(s.log, note, key);
      assert k == key ==> e.id in Active(s, key);
    }
  }

  lemma {:induction false} OnTimeRun(c: Settings, s: System, more: seq<Event>, key: string)
    requires c.Valid() && OnTimeUnmarked(c, s, key) && CanRun(c, s, more) && NoTicks(more)
    ensures OnTimeUnmarked(c, Run(c, s, more), key)
    decreases |more|
  {
    if more != [] {
      OnTimeRun(c, s, more[..|more| - 1], key);
      OnTimeStep(c, Run(c, s, more[..|more| - 1]), more[|more| - 1], key);
    }
  }

  lemma OnTimeSendsOnce(c: Settings, s: System, key: string)
    requires c.Valid() && OnTimeUnmarked(c, s, key)
    ensures !SentTooOften(s, key)
  {
    if Active(s, key) != {} {
      var id :| id in Active(s, key);
      assert Active(s, key) == {id};
    }
    SubsetSize(Unmarked(s, key), Active(s, key));
  }

  lemma ExtendFrom(c: Settings, s: System, events: seq<Event>, e: Event)
    requires CanRun(c, s, events) && Enabled(Run(c, s, events), e)
    ensures CanRun(c, s, events + [e])
    ensures Run(c, s, events + [e]) == Step(c, Run(c, s, events), e)
  {
    assert (events + [e])[..|events + [e]| - 1] == events;
  }

  /** What an overdue worker and the deliveries behind it can still do at once. */
  function Overrun(s: System, id: nat, key: string): seq<Event>
    requires id in s.workers
  {
    var second, third := s.nextId, s.nextId + 1;
    match s.workers[id].phase
    case Reserved => [] + [Begin(key)] + [Send(id, true)] + [Send(second, true)]
    case Sent => [] + [Begin(key)] + [Send(second, true)]
    case SendFailed =>
      [] + [Begin(key)] + [Finish(id)] + [Begin(key)] + [Send(second, true)] + [Send(third, true)]
  }

  /** One more send, by a worker that has not sent. */
  lemma SendCounts(c: Settings, s: System, events: seq<Event>, id: nat, key: string)
    requires CanRun(c, s, events) && id in Run(c, s, events).workers
    requires Run(c, s, events).workers[id] == Worker(key, Reserved, Run(c, s, events).workers[id].since)
    ensures CanRun(c, s, events + [Send(id, true)])
    ensures var t, u := Run(c, s, events), Run(c, s, events + [Send(id, true)]);
      && Sends(u, key) == Sends(t, key) + 1 && Lost(u, key) == Lost(t, key)
      && u.workers == t.workers[id := t.workers[id].(phase := Sent)] && u.keys == t.keys && u.now == t.now
  {
    ExtendFrom(c, s, events, Send(id, true));
    Append(Run(c, s, events).log, SentNote(key), key);
  }

  lemma FreeKeyBegins(c: Settings, s: System, key: string)
    requires !Redis.Has(s.keys, key, s.now)
    ensures var t := BeginStep(c, s, key);
      && t.workers == s.workers[s.nextId := Worker(key, Reserved, s.now)] && t.nextId == s.nextId + 1
      && t.log == s.log && t.now == s.now && Redis.Get(t.keys, key, t.now) in {None, Some(Processing)}
  {
  }

  lemma FailureFrees(c: Settings, s: System, id: nat, key: string)
    requires id in s.workers && s.workers[id].key == key && s.workers[id].phase == SendFailed
    requires Redis.Get(s.keys, key, s.now) in {None, Some(Processing)}
    ensures var t := FinishStep(c, s, id);
      && t.workers == s.workers - {id} && t.nextId == s.nextId && t.log == s.log && t.now == s.now
      && !Redis.Has(t.keys, key, t.now)
  {
  }

  lemma SecondBegins(c: Settings, s: System, id: nat, key: string)
    requires WorkersKnown(s) && id in Active(s, key) && !Redis.Has(s.keys, key, s.now)
    ensures CanRun(c, s, [] + [Begin(key)]) && Run(c, s, [] + [Begin(key)]) == BeginStep(c, s, key)
    ensures BeginStep(c, s, key).workers == s.workers[s.nextId := Worker(key, Reserved, s.now)]
    ensures BeginStep(c, s, key).log == s.log && BeginStep(c, s, key).nextId == s.nextId + 1
  {
    FreeKeyBegins(c, s, key);
    ExtendFrom(c, s, [], Begin(key));
  }

  /** A failed worker first releases the second one's reservation, which lets a third in. */
  lemma ThirdBegins(c: Settings, s: System, id: nat, key: string)
    requires WorkersKnown(s) && id in Active(s, key) && !Redis.Has(s.keys, key, s.now)
    requires s.workers[id].phase == SendFailed
    ensures var r := [] + [Begin(key)] + [Finish(id)] + [Begin(key)];
      && CanRun(c, s, r)
      && var t := Run(c, s, r);
        t.workers == (s.workers[s.nextId := Worker(key, Reserved, s.now)] - {id})
                       [s.nextId + 1 := Worker(key, Reserved, s.now)]
        && t.log == s.log
  {
    hide Run, CanRun, BeginStep, FinishStep;
    var r := [] + [Begin(key)];
    SecondBegins(c, s, id, key);
    FreeKeyBegins(c, s, key);
    var second := BeginStep(c, s, key);
    ExtendFrom(c, s, r, Finish(id));
    FailureFrees(c, second, id, key);
    FreeKeyBegins(c, FinishStep(c, second, id), key);
    ExtendFrom(c, s, r + [Finish(id)], Begin(key));
  }

  lemma OverrunRuns(c: Settings, s: System, id: nat, key: string)
    requires c.Valid() && WorkersKnown(s) && id in Active(s, key) && !Redis.Has(s.keys, key, s.now)
    requires Sends(s, key) == Lost(s, key) + (if s.workers[id].phase == Sent then 1 else 0)
    ensures CanRun(c, s, Overrun(s, id, key)) && NoTicks(Overrun(s, id, key))
    ensures SentTooOften(Run(c, s, Overrun(s, id, key)), key)
  {
    hide Count, Run, CanRun;
    var second, third := s.nextId, s.nextId + 1;
    var r := [] + [Begin(key)];
    SecondBegins(c, s, id, key);
    match s.workers[id].phase
    case Reserved =>
      SendCounts(c, s, r, id, key);
      SendCounts(c, s, r + [Send(id, true)], second, key);
    case Sent => SendCounts(c, s, r, second, key);
    case SendFailed =>
      ThirdBegins(c, s, id, key);
      r := r + [Finish(id)] + [Begin(key)];
      SendCounts(c, s, r, second, key);
      SendCounts(c, s, r + [Send(second, true)], third, key);
  }

  /** An overdue worker: the event can be sent twice at once. */
  lemma OverdueOverruns(c: Settings, s: System, ms: nat, id: nat, key: string) returns (more: seq<Event>)
    requires c.Valid() && TimedInv(c, s, key) && Conserved(s, key) && Marks(s, key) == 0
    requires Overdue(c, s.(now := s.now + ms), id, key)
    ensures var later := s.(now := s.now + ms);
      CanRun(c, later, more) && NoTicks(more) && SentTooOften(Run(c, later, more), key)
  {
    hide Count, LastMark, Run, CanRun;
    var later := s.(now := s.now + ms);
    assert Active(later, key) == Active(s, key);
    assert Active(s, key) == {id};
    assert Unmarked(s, key) == if s.workers[id].phase == Sent then {id} else {};
    OverrunRuns(c, later, id, key);
    more := Overrun(later, id, key);
  }

  /** No overdue worker: it cannot. */
  lemma OnTimeNeverOverruns(c: Settings, s: System, ms: nat, key: string, more: seq<Event>)
    requires c.Valid() && TimedInv(c, s, key) && Conserved(s, key) && Marks(s, key) == 0
    requires Timely(c, s, Tick(ms), key)
    requires CanRun(c, s.(now := s.now + ms), more) && NoTicks(more)
    ensures !SentTooOften(Run(c, s.(now := s.now + ms), more), key)
  {
    hide Count, LastMark, Run, CanRun, TimedInv;
    var later := s.(now := s.now + ms);
    TimedStep(c, s, Tick(ms), key);
    assert Unmarked(later, key) == Unmarked(s, key);
    OnTimeRun(c, later, more, key);
    OnTimeSendsOnce(c, Run(c, later, more), key);
  }

  /**
   * While the workers on an event that was never marked are on time, a wait makes it possible to send the event twice
   * at once, beyond the sends lost with stopped workers, exactly if it takes a live worker on it past its lease.
   */
  lemma SentTwiceIffOverdue(c: Settings, events: seq<Event>, ms: nat, key: string)
    requires c.Valid() && CanRun(c, INITIAL, events) && AllTimely(c, INITIAL, events, key)
    requires Marks(Run(c, INITIAL, events), key) == 0
    ensures var later := Run(c, INITIAL, events).(now := Run(c, INITIAL, events).now + ms);
      (exists id: nat :: Overdue(c, later, id, key)) <==>
      (exists more :: CanRun(c, later, more) && NoTicks(more) && SentTooOften(Run(c, later, more), key))
  {
    var s := Run(c, INITIAL, events);
    var later := s.(now := s.now + ms);
    TimedRun(c, events, key);
    SendsAreConserved(c, events, key);
    hide Run, CanRun, TimedInv, Conserved, SentTooOften;
    if id: nat :| Overdue(c, later, id, key) {
      var more := OverdueOverruns(c, s, ms, id, key);
    } else {
      assert Active(later, key) == Active(s, key);
      assert forall id | id in Active(s, key) :: !Overdue(c, later, id, key);
      forall more | CanRun(c, later, more) && NoTicks(more)
        ensures !SentTooOften(Run(c, later, more), key)
      {
        OnTimeNeverOverruns(c, s, ms, key, more);
      }
    }
  }

  // ---------------------------------------------------------------- a late release

  /** A worker that fails to send, when its lease has just run out. */
  function LateFailure(c: Settings, key: string): seq<Event> {
    [] + [Begin(key)] + [Send(0, false)] + [Tick(Max(0, 1000 * c.processingLeaseSeconds + 1))]
  }

  function Reservation(c: Settings, at: int): Redis.Entry<Marker> {
    Redis.Entry(Processing, Redis.Ttl(at, c.processingLeaseSeconds))
  }

  lemma AfterLateFailure(c: Settings, key: string)
    requires c.Valid()
    ensures CanRun(c, INITIAL, LateFailure(c, key))
    ensures var late := 1000 * c.processingLeaseSeconds + 1;
      Run(c, INITIAL, LateFailure(c, key)) ==
        System(map[key := Reservation(c, 0)], late, map[0 := Worker(key, SendFailed, 0)], 1, [])
  {
    var late := 1000 * c.processingLeaseSeconds + 1;
    assert CanRun(c, INITIAL, []) && Run(c, INITIAL, []) == INITIAL;
    hide Run, CanRun;
    ExtendFrom(c, INITIAL, [], Begin(key));
    var r := [] + [Begin(key)];
    assert Run(c, INITIAL, r) == System(map[key := Reservation(c, 0)], 0, map[0 := Worker(key, Reserved, 0)], 1, []);
    ExtendFrom(c, INITIAL, r, Send(0, false));
    ExtendFrom(c, INITIAL, r + [Send(0, false)], Tick(late));
  }

  /** The event is delivered again, the late release deletes the new reservation, and a third delivery follows. */
  function LateRelease(c: Settings, key: string): seq<Event> {
    LateFailure(c, key) + [Begin(key)] + [Finish(0)] + [Begin(key)]
  }

  lemma AfterLateRelease(c: Settings, key: string)
    requires c.Valid()
    ensures CanRun(c, INITIAL, LateRelease(c, key))
    ensures var late := 1000 * c.processingLeaseSeconds + 1;
      var held := Worker(key, Reserved, late);
      Run(c, INITIAL, LateRelease(c, key)) ==
        System(map[key := Reservation(c, late)], late, map[1 := held, 2 := held], 3, [])
  {
    hide Run, CanRun, LateFailure;
    var late := 1000 * c.processingLeaseSeconds + 1;
    AfterLateFailure(c, key);
    var r := LateFailure(c, key);
    ExtendFrom(c, INITIAL, r, Begin(key));
    r := r + [Begin(key)];
    ExtendFrom(c, INITIAL, r, Finish(0));
    r := r + [Finish(0)];
    assert Run(c, INITIAL, r) == System(map[], late, map[1 := Worker(key, Reserved, late)], 2, []);
    ExtendFrom(c, INITIAL, r, Begin(key));
  }

  /**
   * For every lease there is a run in which a late release deletes the reservation of the worker that came after, so
   * that a third gets in beside it and both send: two sends, with no worker lost and nothing marked in between.
   */
  lemma LateReleaseFreesTheHolder(c: Settings, key: string)
    requires c.Valid()
    ensures CanRun(c, INITIAL, LateRelease(c, key)) && Active(Run(c, INITIAL, LateRelease(c, key)), key) == {1, 2}
    ensures var both := LateRelease(c, key) + [Send(1, true)] + [Send(2, true)];
      && CanRun(c, INITIAL, both)
      && var s := Run(c, INITIAL, both); Sends(s, key) == 2 && Lost(s, key) == 0 && Marks(s, key) == 0
  {
    hide Run, CanRun, LateRelease;
    AfterLateRelease(c, key);
    var r := LateRelease(c, key);
    ExtendFrom(c, INITIAL, r, Send(1, true));
    ExtendFrom(c, INITIAL, r + [Send(1, true)], Send(2, true));
    Append([], SentNote(key), key);
    Append([] + [SentNote(key)], SentNote(key), key);
    assert Run(c, INITIAL, r + [Send(1, true)] + [Send(2, true)]).log == [] + [SentNote(key)] + [SentNote(key)];
  }

  // ---------------------------------------------------------------- nothing is suppressed unsent

  /** A PROCESSED key was written by a mark. */
  ghost predicate ProcessedWasMarked(s: System, key: string) {
    key in s.keys && s.keys[key].value == Processed ==> Marks(s, key) > 0
  }

  lemma MarkedStep(c: Settings, s: System, e: Event, key: string)
    requires ProcessedWasMarked(s, key) && Enabled(s, e)
    ensures ProcessedWasMarked(Step(c, s, e), key)
  {
    hide Count;
    if e.Send? || e.Finish? || e.Stop? {
      var k := s.workers[e.id].key;
      Append(s.log, if e.Send? then SentNote(k) else if e.Finish? then MarkedNote(k, s.now) else LostNote(k), key);
    }
  }

  lemma {:induction false} MarkedInRun(c: Settings, events: seq<Event>, key: string)
    requires CanRun(c, INITIAL, events)
    ensures ProcessedWasMarked(Run(c, INITIAL, events), key)
    decreases |events|
  {
    if events != [] {
      MarkedInRun(c, events[..|events| - 1], key);
      MarkedStep(c, Run(c, INITIAL, events[..|events| - 1]), events[|events| - 1], key);
    }
  }

  /**
   * Without any timing assumption: a delivery is turned away only while an unexpired reservation is there, or after
   * the event has been sent.
   */
  lemma OnlySentEventsAreSuppressed(c: Settings, events: seq<Event>, key: string)
    requires CanRun(c, INITIAL, events)
    ensures var s := Run(c, INITIAL, events);
      BeginStep(c, s, key) == s ==> Redis.Get(s.keys, key, s.now) == Some(Processing) || Sends(s, key) > 0
  {
    MarkedInRun(c, events, key);
    SendsAreConserved(c, events, key);
  }
}
