/** Many workers over one key space, every Redis command and every send a step of its own. */
module IdempotencyRuns {
  import opened Common
  import opened FiniteSets
  import opened Idempotency
  import opened Periods
  import Redis

  datatype Phase = Reserved | Sent | SendFailed

  /** A worker between its reserve and its mark or release. */
  datatype Worker = Worker(key: string, phase: Phase, since: int)

  datatype Note = SentNote(key: string) | MarkedNote(key: string, at: int) | LostNote(key: string)

  datatype System = System(keys: Keys, now: int, workers: map<nat, Worker>, nextId: nat, log: seq<Note>)

  /** Stop is a worker that never takes another step, wherever it was. */
  datatype Event = Tick(ms: nat) | Begin(key: string) | Send(id: nat, ok: bool) | Finish(id: nat) | Stop(id: nat)

  const INITIAL := System(map[], 0, map[], 0, [])

  predicate Enabled(s: System, e: Event) {
    match e
    case Tick(_) => true
    case Begin(_) => true
    case Send(id, _) => id in s.workers && s.workers[id].phase == Reserved
    case Finish(id) => id in s.workers && s.workers[id].phase != Reserved
    case Stop(id) => id in s.workers
  }

  function BeginStep(c: Settings, s: System, key: string): System {
    var (keys, won) := Reserve(s.keys, key, c, s.now);
    if won then s.(keys := keys, workers := s.workers[s.nextId := Worker(key, Reserved, s.now)], nextId := s.nextId + 1)
    else s
  }

  function SendStep(s: System, id: nat, ok: bool): System
    requires id in s.workers
  {
    var w := s.workers[id];
    if ok then s.(workers := s.workers[id := w.(phase := Sent)], log := s.log + [SentNote(w.key)])
    else s.(workers := s.workers[id := w.(phase := SendFailed)])
  }

  function FinishStep(c: Settings, s: System, id: nat): System
    requires id in s.workers
  {
    var w := s.workers[id];
    if w.phase == Sent then
      s.(keys := Mark(s.keys, w.key, c, s.now), workers := s.workers - {id}, log := s.log + [MarkedNote(w.key, s.now)])
    else
      s.(keys := Release(s.keys, w.key, s.now), workers := s.workers - {id})
  }

  function StopStep(s: System, id: nat): System
    requires id in s.workers
  {
    var w := s.workers[id];
    s.(workers := s.workers - {id}, log := if w.phase == Sent then s.log + [LostNote(w.key)] else s.log)
  }

  function Step(c: Settings, s: System, e: Event): System
    requires Enabled(s, e)
  {
    match e
    case Tick(ms) => s.(now := s.now + ms)
    case Begin(key) => BeginStep(c, s, key)
    case Send(id, ok) => SendStep(s, id, ok)
    case Finish(id) => FinishStep(c, s, id)
    case Stop(id) => StopStep(s, id)
  }

  predicate CanRun(c: Settings, s: System, events: seq<Event>)
    decreases |events|, 0
  {
    events == [] ||
    (CanRun(c, s, events[..|events| - 1]) && Enabled(Run(c, s, events[..|events| - 1]), events[|events| - 1]))
  }

  function Run(c: Settings, s: System, events: seq<Event>): System
    requires CanRun(c, s, events)
    decreases |events|, 1
  {
    if events == [] then s
    else Step(c, Run(c, s, events[..|events| - 1]), events[|events| - 1])
  }

  // ---------------------------------------------------------------- history

  /** Notes about `key` of the same kind as `like`. */
  function Count(log: seq<Note>, like: Note): nat {
    if log == [] then 0
    else Count(log[..|log| - 1], like) + (if SameKind(log[|log| - 1], like) then 1 else 0)
  }

  predicate SameKind(a: Note, b: Note) {
    a.key == b.key && a.SentNote? == b.SentNote? && a.MarkedNote? == b.MarkedNote?
  }

  function Sends(s: System, key: string): nat { Count(s.log, SentNote(key)) }

  function Marks(s: System, key: string): nat { Count(s.log, MarkedNote(key, 0)) }

  /** Workers that stopped after sending and before marking. */
  function Lost(s: System, key: string): nat { Count(s.log, LostNote(key)) }

  function LastMark(log: seq<Note>, key: string): Option<int> {
    if log == [] then None
    else if log[|log| - 1].MarkedNote? && log[|log| - 1].key == key then Some(log[|log| - 1].at)
    else LastMark(log[..|log| - 1], key)
  }

  function FirstMark(log: seq<Note>, key: string): Option<int> {
    if log == [] then None
    else if FirstMark(log[..|log| - 1], key).Some? then FirstMark(log[..|log| - 1], key)
    else if log[|log| - 1].MarkedNote? && log[|log| - 1].key == key then Some(log[|log| - 1].at)
    else None
  }

  /** Workers on `key`. */
  function Active(s: System, key: string): set<nat> {
    set id | id in s.workers && s.workers[id].key == key
  }

  function Unmarked(s: System, key: string): set<nat> {
    set id | id in s.workers && s.workers[id].key == key && s.workers[id].phase == Sent
  }

  lemma Append(log: seq<Note>, note: Note, key: string)
    ensures Count(log + [note], SentNote(key)) == Count(log, SentNote(key)) + (if note == SentNote(key) then 1 else 0)
    ensures Count(log + [note], MarkedNote(key, 0)) ==
      Count(log, MarkedNote(key, 0)) + (if note.MarkedNote? && note.key == key then 1 else 0)
    ensures Count(log + [note], LostNote(key)) == Count(log, LostNote(key)) + (if note == LostNote(key) then 1 else 0)
  {
    assert (log + [note])[..|log + [note]| - 1] == log;
  }

  lemma AppendMark(log: seq<Note>, note: Note, key: string)
    ensures LastMark(log + [note], key) ==
      if note.MarkedNote? && note.key == key then Some(note.at) else LastMark(log, key)
    ensures FirstMark(log + [note], key) ==
      if FirstMark(log, key).None? && note.MarkedNote? && note.key == key then Some(note.at) else FirstMark(log, key)
  {
    assert (log + [note])[..|log + [note]| - 1] == log;
  }

  // ---------------------------------------------------------------- without any timing assumption

  /** Every send is accounted for: marked, lost with a stopped worker, or still to be marked. */
  ghost predicate Conserved(s: System, key: string) {
    Sends(s, key) == Marks(s, key) + Lost(s, key) + |Unmarked(s, key)|
  }

  ghost predicate WorkersKnown(s: System) {
    forall id | id in s.workers :: id < s.nextId && s.workers[id].since <= s.now
  }

  lemma SendConserves(s: System, id: nat, ok: bool, key: string)
    requires id in s.workers && s.workers[id].phase == Reserved && Conserved(s, key)
    ensures Conserved(SendStep(s, id, ok), key)
  {
    hide Count;
    var t := SendStep(s, id, ok);
    Append(s.log, SentNote(s.workers[id].key), key);
    assert Unmarked(t, key) == Unmarked(s, key) + (if ok && s.workers[id].key == key then {id} else {});
  }

  lemma FinishConserves(c: Settings, s: System, id: nat, key: string)
    requires id in s.workers && s.workers[id].phase != Reserved && Conserved(s, key)
    ensures Conserved(FinishStep(c, s, id), key)
  {
    hide Count;
    Append(s.log, MarkedNote(s.workers[id].key, s.now), key);
    assert Unmarked(FinishStep(c, s, id), key) == Unmarked(s, key) - {id};
  }

  lemma StopConserves(s: System, id: nat, key: string)
    requires id in s.workers && Conserved(s, key)
    ensures Conserved(StopStep(s, id), key)
  {
    hide Count;
    Append(s.log, LostNote(s.workers[id].key), key);
    assert Unmarked(StopStep(s, id), key) == Unmarked(s, key) - {id};
  }

  lemma StepConserves(c: Settings, s: System, e: Event, key: string)
    requires Enabled(s, e) && WorkersKnown(s) && Conserved(s, key)
    ensures WorkersKnown(Step(c, s, e)) && Conserved(Step(c, s, e), key)
  {
    hide Count;
    match e
    case Tick(ms) => assert Unmarked(Step(c, s, e), key) == Unmarked(s, key);
    case Begin(k) => assert Unmarked(Step(c, s, e), key) == Unmarked(s, key);
    case Send(id, ok) => SendConserves(s, id, ok, key);
    case Finish(id) => FinishConserves(c, s, id, key);
    case Stop(id) => StopConserves(s, id, key);
  }

  lemma {:induction false} SendsAreConserved(c: Settings, events: seq<Event>, key: string)
    requires CanRun(c, INITIAL, events)
    ensures WorkersKnown(Run(c, INITIAL, events)) && Conserved(Run(c, INITIAL, events), key)
    decreases |events|
  {
    if events == [] {
      assert Unmarked(INITIAL, key) == {};
    } else {
      SendsAreConserved(c, events[..|events| - 1], key);
      StepConserves(c, Run(c, INITIAL, events[..|events| - 1]), events[|events| - 1], key);
    }
  }

  /** `key` reads PROCESSED until `deadline` at least. */
  ghost predicate ProcessedUntil(s: System, key: string, deadline: int) {
    key in s.keys && s.keys[key].value == Processed && s.keys[key].expiry.At? && s.keys[key].expiry.ms >= deadline
  }

  lemma {:induction false} ClockNeverDrops(c: Settings, s: System, events: seq<Event>)
    requires CanRun(c, s, events)
    ensures s.now <= Run(c, s, events).now
    decreases |events|
  {
    if events != [] {
      ClockNeverDrops(c, s, events[..|events| - 1]);
    }
  }

  lemma {:induction false} StaysProcessed(c: Settings, s: System, events: seq<Event>, key: string, deadline: int)
    requires c.Valid() && CanRun(c, s, events) && ProcessedUntil(s, key, deadline)
    requires deadline <= s.now + 1000 * c.processedTtlSeconds && Run(c, s, events).now <= deadline
    ensures ProcessedUntil(Run(c, s, events), key, deadline)
    decreases |events|
  {
    if events != [] {
      var init := events[..|events| - 1];
      ClockNeverDrops(c, s, init);
      StaysProcessed(c, s, init, key, deadline);
    }
  }

  /**
   * From the moment a worker marks its event, and until the marker's time to live ends, whatever the other
   * workers do and however late they are: every reserve fails and every release changes nothing.
   */
  lemma ProcessedIsSticky(c: Settings, s: System, id: nat, events: seq<Event>)
    requires c.Valid() && id in s.workers && s.workers[id].phase == Sent
    requires CanRun(c, FinishStep(c, s, id), events)
    requires Run(c, FinishStep(c, s, id), events).now <= s.now + 1000 * c.processedTtlSeconds
    ensures var key, t := s.workers[id].key, Run(c, FinishStep(c, s, id), events);
      && Redis.Get(t.keys, key, t.now) == Some(Processed)
      && BeginStep(c, t, key) == t
      && Release(t.keys, key, t.now) == t.keys
  {
    StaysProcessed(c, FinishStep(c, s, id), events, s.workers[id].key, s.now + 1000 * c.processedTtlSeconds);
  }

  // ---------------------------------------------------------------- when an event's workers keep their leases

  /** Time passes no further than the lease of any live worker on the event. */
  predicate Timely(c: Settings, s: System, e: Event, key: string) {
    e.Tick? ==>
      forall id | id in Active(s, key) :: s.now + e.ms <= s.workers[id].since + 1000 * c.processingLeaseSeconds
  }

  predicate AllTimely(c: Settings, s: System, events: seq<Event>, key: string)
    requires CanRun(c, s, events)
    decreases |events|
  {
    events == [] ||
    (&& AllTimely(c, s, events[..|events| - 1], key)
     && Timely(c, Run(c, s, events[..|events| - 1]), events[|events| - 1], key))
  }

  /** A worker on the event is the only one, and holds its unexpired reservation. */
  ghost predicate HoldsItsKey(c: Settings, s: System, key: string) {
    && (forall id | id in Active(s, key) ::
          && s.workers[id].since <= s.now <= s.workers[id].since + 1000 * c.processingLeaseSeconds
          && key in s.keys
          && s.keys[key] == Redis.Entry(Processing, Redis.Ttl(s.workers[id].since, c.processingLeaseSeconds)))
    && (forall a, b | a in Active(s, key) && b in Active(s, key) :: a == b)
  }

  /** From a mark to the first millisecond in which its key is gone. */
  function MarkerMs(c: Settings): int {
    1000 * c.processedTtlSeconds + 1
  }

  /** A mark keeps its key for its whole time to live. */
  ghost predicate MarkHolds(c: Settings, s: System, key: string) {
    LastMark(s.log, key).Some? ==>
      || s.now >= LastMark(s.log, key).value + MarkerMs(c)
      || (key in s.keys &&
          s.keys[key] == Redis.Entry(Processed, Redis.Ttl(LastMark(s.log, key).value, c.processedTtlSeconds)))
  }

  /** Work on an event starts only after its last mark has run out. */
  ghost predicate StartsAfterMark(c: Settings, s: System, key: string) {
    LastMark(s.log, key).Some? ==>
      forall id | id in Active(s, key) ::
        s.workers[id].since >= LastMark(s.log, key).value + MarkerMs(c)
  }

  ghost predicate TimedInv(c: Settings, s: System, key: string) {
    WorkersKnown(s) && HoldsItsKey(c, s, key) && MarkHolds(c, s, key) && StartsAfterMark(c, s, key)
  }

  lemma TimedFinish(c: Settings, s: System, id: nat, key: string)
    requires c.Valid() && TimedInv(c, s, key) && id in s.workers && s.workers[id].phase != Reserved
    ensures TimedInv(c, FinishStep(c, s, id), key)
  {
    hide Count, LastMark, FirstMark;
    AppendMark(s.log, MarkedNote(s.workers[id].key, s.now), key);
    var t := FinishStep(c, s, id);
    if key == s.workers[id].key {
      assert id in Active(s, key);
      assert Active(s, key) == {id};
      assert Active(t, key) == {};
    } else {
      assert Active(t, key) == Active(s, key);
    }
  }

  lemma TimedSend(c: Settings, s: System, id: nat, ok: bool, key: string)
    requires c.Valid() && TimedInv(c, s, key) && id in s.workers
    ensures TimedInv(c, SendStep(s, id, ok), key)
  {
    hide Count, LastMark, FirstMark;
    AppendMark(s.log, SentNote(s.workers[id].key), key);
    assert Active(SendStep(s, id, ok), key) == Active(s, key);
  }

  lemma TimedBegin(c: Settings, s: System, k: string, key: string)
    requires c.Valid() && TimedInv(c, s, key)
    ensures TimedInv(c, BeginStep(c, s, k), key)
  {
    var t := BeginStep(c, s, k);
    if k == key && t != s {
      assert Active(s, key) == {};
      assert Active(t, key) == {s.nextId};
    } else {
      assert Active(t, key) == Active(s, key);
    }
  }

  lemma TimedStop(c: Settings, s: System, id: nat, key: string)
    requires c.Valid() && TimedInv(c, s, key) && id in s.workers
    ensures TimedInv(c, StopStep(s, id), key)
  {
    hide Count, LastMark, FirstMark;
    AppendMark(s.log, LostNote(s.workers[id].key), key);
    assert Active(StopStep(s, id), key) == Active(s, key) - {id};
  }

  lemma TimedStep(c: Settings, s: System, e: Event, key: string)
    requires c.Valid() && TimedInv(c, s, key) && Enabled(s, e) && Timely(c, s, e, key)
    ensures TimedInv(c, Step(c, s, e), key)
  {
    match e
    case Tick(ms) => assert Active(s.(now := s.now + ms), key) == Active(s, key);
    case Begin(k) => TimedBegin(c, s, k, key);
    case Send(id, ok) => TimedSend(c, s, id, ok, key);
    case Finish(id) => TimedFinish(c, s, id, key);
    case Stop(id) => TimedStop(c, s, id, key);
  }

  lemma {:induction false} TimedRun(c: Settings, events: seq<Event>, key: string)
    requires c.Valid() && CanRun(c, INITIAL, events) && AllTimely(c, INITIAL, events, key)
    ensures TimedInv(c, Run(c, INITIAL, events), key)
    decreases |events|
  {
    if events != [] {
      TimedRun(c, events[..|events| - 1], key);
      TimedStep(c, Run(c, INITIAL, events[..|events| - 1]), events[|events| - 1], key);
    }
  }

  /** At most one worker per event is between its reserve and its mark or release, and none while the marker runs. */
  lemma OneWorkerPerEvent(c: Settings, events: seq<Event>, key: string)
    requires c.Valid() && CanRun(c, INITIAL, events) && AllTimely(c, INITIAL, events, key)
    ensures var s := Run(c, INITIAL, events);
      && |Active(s, key)| <= 1
      && (Redis.Get(s.keys, key, s.now) == Some(Processed) ==> Active(s, key) == {})
  {
    TimedRun(c, events, key);
    var s := Run(c, INITIAL, events);
    if Active(s, key) != {} {
      var id :| id in Active(s, key);
      assert Active(s, key) == {id};
    }
  }

  /** Marks of one event: the first and the last, and one time to live between any two. */
  ghost predicate MarksSpaced(c: Settings, s: System, key: string) {
    && FirstMark(s.log, key).Some? == LastMark(s.log, key).Some? == (Marks(s, key) > 0)
    && (Marks(s, key) > 0 ==>
        && LastMark(s.log, key).value <= s.now
        && LastMark(s.log, key).value - FirstMark(s.log, key).value >= Span(c, Marks(s, key) - 1))
  }

  /** `n` times to live of a marker. */
  function Span(c: Settings, n: int): int {
    n * MarkerMs(c)
  }

  lemma SpanGrows(c: Settings, n: int)
    ensures Span(c, n + 1) == Span(c, n) + MarkerMs(c) && Span(c, 0) == 0
  {
  }

  lemma MarkSpacing(c: Settings, s: System, e: Event, key: string)
    requires c.Valid() && TimedInv(c, s, key) && MarksSpaced(c, s, key) && Enabled(s, e)
    ensures MarksSpaced(c, Step(c, s, e), key)
  {
    hide Span, Count, LastMark, FirstMark;
    SpanGrows(c, Marks(s, key) - 1);
    SpanGrows(c, 0);
    if e.Send? || e.Finish? || e.Stop? {
      var k := s.workers[e.id].key;
      var note := if e.Send? then SentNote(k) else if e.Finish? then MarkedNote(k, s.now) else LostNote(k);
      Append(s.log, note, key);
      AppendMark(s.log, note, key);
      assert e.Finish? && k == key ==> e.id in Active(s, key);
    }
  }

  lemma {:induction false} MarkSpacingInRun(c: Settings, events: seq<Event>, key: string)
    requires c.Valid() && CanRun(c, INITIAL, events) && AllTimely(c, INITIAL, events, key)
    ensures MarksSpaced(c, Run(c, INITIAL, events), key)
    decreases |events|
  {
    if events != [] {
      TimedRun(c, events[..|events| - 1], key);
      MarkSpacingInRun(c, events[..|events| - 1], key);
      MarkSpacing(c, Run(c, INITIAL, events[..|events| - 1]), events[|events| - 1], key);
    }
  }

  /** An unfinished worker started a whole time to live after the last mark. */
  lemma MarksFitElapsed(c: Settings, s: System, key: string)
    requires c.Valid() && TimedInv(c, s, key) && MarksSpaced(c, s, key) && Marks(s, key) > 0 && |Active(s, key)| <= 1
    ensures Marks(s, key) + |Active(s, key)| <=
      1 + (s.now - FirstMark(s.log, key).value) / MarkerMs(c)
  {
    hide Span, Count, LastMark, FirstMark;
    var marks, ttl := Marks(s, key), MarkerMs(c);
    var first, last := FirstMark(s.log, key).value, LastMark(s.log, key).value;
    var owed := |Active(s, key)|;
    if owed == 1 {
      var id :| id in Active(s, key);
      assert s.now >= s.workers[id].since >= last + ttl;
    }
    SpanGrows(c, marks - 1);
    SpanFits(c, marks - 1 + owed, s.now - first);
  }

  /**
   * While live workers on an event finish within their lease, it is sent at most once beyond the workers lost after
   * sending, until its first marker's time to live has run out, and at most once more for each full
   * time to live that passes after that.
   */
  lemma SendsAreBounded(c: Settings, events: seq<Event>, key: string)
    requires c.Valid() && CanRun(c, INITIAL, events) && AllTimely(c, INITIAL, events, key)
    ensures var s := Run(c, INITIAL, events);
      var first := FirstMark(s.log, key);
      && first.Some? == (Marks(s, key) > 0)
      && Sends(s, key) <= 1 + Lost(s, key) +
           (if first.None? then 0 else (s.now - first.value) / MarkerMs(c))
  {
    var s := Run(c, INITIAL, events);
    SendsAreConserved(c, events, key);
    TimedRun(c, events, key);
    MarkSpacingInRun(c, events, key);
    OneWorkerPerEvent(c, events, key);
    SubsetSize(Unmarked(s, key), Active(s, key));
    if Marks(s, key) > 0 {
      MarksFitElapsed(c, s, key);
    }
  }

  lemma SpanFits(c: Settings, n: int, elapsed: int)
    requires c.Valid() && Span(c, n) <= elapsed
    ensures n <= elapsed / MarkerMs(c)
  {
    FullPeriods(n, elapsed, MarkerMs(c));
  }
}
