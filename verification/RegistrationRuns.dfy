/**
 * Whole runs of OTP requests and verifications. sendOtp is three steps (store the OTP, store the data,
 * publish), so other calls and the clock can come in between, or the call can stop halfway.
 */
module RegistrationRuns {
  import opened Common
  import opened Redis
  import opened Registration

  /** What one sendOtp call was asked to store under its session id. */
  datatype Asked = Asked(data: RegData, otp: string)

  datatype Stage = OtpStored | BothStored | Returned | RolledBack

  /** An OTP stored for an email, and the start of the rate window it was counted in. */
  datatype Stored = Stored(at: int, window: int)

  datatype System = System(
    st: Store,
    users: map<string, User>,
    now: int,
    asked: map<string, Asked>,
    stage: map<string, Stage>,
    stored: map<string, seq<Stored>>,
    wrong: map<string, int>)

  datatype Event =
    | Tick(ms: nat)
    | RequestOtp(data: RegData, otp: string, sessionId: string)
    | StoreData(sessionId: string)
    | Publish(sessionId: string, works: bool)
    | Verify(sessionId: string, otp: string, cleanupWorks: bool)

  const INITIAL := System(EMPTY, map[], 0, map[], map[], map[], map[])

  const WINDOW_MS: int := 1000 * RATE_LIMIT_WINDOW

  /** How long a counter is there: its window, with both ends counted. */
  const SLOT_MS: int := WINDOW_MS + 1

  function History(s: System, email: string): seq<Stored> {
    if email in s.stored then s.stored[email] else []
  }

  /** Wrong comparisons against this session's OTP since it was stored or last matched. */
  function Wrong(s: System, sessionId: string): int {
    if sessionId in s.wrong then s.wrong[sessionId] else 0
  }

  /** The window a live rate counter belongs to. */
  function WindowStart(counter: Entry<int>): int {
    if counter.expiry.At? then counter.expiry.ms - WINDOW_MS else 0
  }

  predicate InStage(s: System, sessionId: string, stage: Stage) {
    sessionId in s.stage && s.stage[sessionId] == stage && sessionId in s.asked
  }

  predicate Enabled(s: System, e: Event) {
    match e
    case RequestOtp(_, _, sessionId) => sessionId !in s.asked
    case StoreData(sessionId) => InStage(s, sessionId, OtpStored)
    case Publish(sessionId, _) => InStage(s, sessionId, BothStored)
    case _ => true
  }

  function RequestNext(s: System, ttl: int, data: RegData, otp: string, sessionId: string): System {
    if data.email in s.users then s
    else
      var (st, r) := StoreOtpStep(s.st, ttl, data.email, otp, sessionId, s.now);
      if r.Err? then s.(st := st)
      else s.(
        st := st,
        asked := s.asked[sessionId := Asked(data, otp)],
        stage := s.stage[sessionId := OtpStored],
        stored := s.stored[data.email := History(s, data.email) + [Stored(s.now, WindowStart(st.rate[data.email]))]])
  }

  function PublishNext(s: System, sessionId: string, works: bool): System {
    if works then s.(stage := s.stage[sessionId := Returned])
    else s.(st := DeleteStep(s.st, sessionId), stage := s.stage[sessionId := RolledBack])
  }

  function VerifyNext(s: System, ttl: int, sessionId: string, otp: string, cleanupWorks: bool): System {
    var (st, users, _) := VerifyStep(s.st, s.users, ttl, sessionId, otp, cleanupWorks, s.now);
    var r := VerifyOtpStep(s.st, ttl, sessionId, otp, s.now).1;
    var wrong := if r == Err(OtpInvalid) then s.wrong[sessionId := Wrong(s, sessionId) + 1]
                 else if r.Ok? then s.wrong[sessionId := 0] else s.wrong;
    s.(st := st, users := users, wrong := wrong)
  }

  function Step(s: System, ttl: int, e: Event): System
    requires Enabled(s, e)
  {
    match e
    case Tick(ms) => s.(now := s.now + ms)
    case RequestOtp(data, otp, sessionId) => RequestNext(s, ttl, data, otp, sessionId)
    case StoreData(sessionId) =>
      s.(st := StoreRegStep(s.st, ttl, sessionId, s.asked[sessionId].data, s.now),
         stage := s.stage[sessionId := BothStored])
    case Publish(sessionId, works) => PublishNext(s, sessionId, works)
    case Verify(sessionId, otp, cleanupWorks) => VerifyNext(s, ttl, sessionId, otp, cleanupWorks)
  }

  predicate CanRun(ttl: int, events: seq<Event>)
    decreases |events|, 0
  {
    events == [] ||
    (CanRun(ttl, events[..|events| - 1]) && Enabled(Run(ttl, events[..|events| - 1]), events[|events| - 1]))
  }

  function Run(ttl: int, events: seq<Event>): System
    requires CanRun(ttl, events)
    decreases |events|, 1
  {
    if events == [] then INITIAL
    else Step(Run(ttl, events[..|events| - 1]), ttl, events[|events| - 1])
  }

  // ---------------------------------------------------------------- one session's keys

  /** The keys of one session id hold what its sendOtp asked for; the data outlives the OTP once both are stored. */
  ghost predicate KeysOk(s: System, ttl: int, id: string) {
    && (id in s.asked <==> id in s.stage)
    && (id in s.st.otp ==> id in s.asked && s.st.otp[id].value == s.asked[id].otp && s.st.otp[id].expiry.At?)
    && (id in s.st.otp ==> s.st.otp[id].expiry.ms <= s.now + 1000 * ttl)
    && (id in s.st.reg ==> id in s.asked && s.st.reg[id].value == s.asked[id].data && s.st.reg[id].expiry.At?)
    && (id in s.st.otp && id in s.stage && s.stage[id] != OtpStored ==>
          id in s.st.reg && s.st.otp[id].expiry.ms <= s.st.reg[id].expiry.ms)
    && (InStage(s, id, RolledBack) ==> id !in s.st.otp && id !in s.st.reg)
  }

  /** A request changes one email's counter and history, and one new session's OTP, or less. */
  lemma RequestWrites(s: System, ttl: int, data: RegData, otp: string, sessionId: string)
    ensures var t := RequestNext(s, ttl, data, otp, sessionId);
      && t.st.reg == s.st.reg && t.st.attempts == s.st.attempts && t.now == s.now
      && t.users == s.users && t.wrong == s.wrong
      && (t.stored == s.stored || t.stored == s.stored[data.email := History(t, data.email)])
      && (t.st.rate == s.st.rate || t.st.rate == Counted(s.st.rate, data.email, RATE_LIMIT_WINDOW, s.now))
      && ((t.st.otp == s.st.otp && t.asked == s.asked && t.stage == s.stage)
          || (&& t.st.otp == s.st.otp[sessionId := Entry(otp, Ttl(s.now, ttl))]
              && t.asked == s.asked[sessionId := Asked(data, otp)]
              && t.stage == s.stage[sessionId := OtpStored]))
  {
    var (st, r) := StoreOtpStep(s.st, ttl, data.email, otp, sessionId, s.now);
    StoreWrites(s.st, ttl, data.email, otp, sessionId, s.now);
    hide StoreOtpStep, Counted;
  }

  lemma StoreWrites(st: Store, ttl: int, email: string, otp: string, sessionId: string, now: int)
    ensures var (t, r) := StoreOtpStep(st, ttl, email, otp, sessionId, now);
      && t.rate == Counted(st.rate, email, RATE_LIMIT_WINDOW, now) && email in t.rate
      && t.reg == st.reg && t.attempts == st.attempts
      && t.otp == if r.Ok? then st.otp[sessionId := Entry(otp, Ttl(now, ttl))] else st.otp
  {
  }

  lemma RequestKeepsKeys(s: System, ttl: int, data: RegData, otp: string, sessionId: string, id: string)
    requires ttl > 0 && KeysOk(s, ttl, id) && sessionId !in s.asked
    ensures KeysOk(RequestNext(s, ttl, data, otp, sessionId), ttl, id)
  {
    hide RequestNext, Counted;
    RequestWrites(s, ttl, data, otp, sessionId);
  }

  lemma PublishKeepsKeys(s: System, ttl: int, sessionId: string, works: bool, id: string)
    requires KeysOk(s, ttl, id) && InStage(s, sessionId, BothStored)
    ensures KeysOk(PublishNext(s, sessionId, works), ttl, id)
  {
  }

  /** A verification removes both keys, the OTP alone, or nothing. */
  lemma VerifyRemoves(s: System, ttl: int, sessionId: string, otp: string, cleanupWorks: bool)
    ensures var t := VerifyNext(s, ttl, sessionId, otp, cleanupWorks);
      || (t.st.otp == s.st.otp && t.st.reg == s.st.reg)
      || (t.st.otp == s.st.otp - {sessionId} && (t.st.reg == s.st.reg || t.st.reg == s.st.reg - {sessionId}))
    ensures var t := VerifyNext(s, ttl, sessionId, otp, cleanupWorks);
      t.st.rate == s.st.rate && t.stored == s.stored && t.now == s.now && t.asked == s.asked && t.stage == s.stage
  {
    hide Counted;
  }

  lemma StepKeepsKeys(s: System, ttl: int, e: Event, id: string)
    requires ttl > 0 && KeysOk(s, ttl, id) && Enabled(s, e)
    ensures KeysOk(Step(s, ttl, e), ttl, id)
  {
    match e
    case Tick(_) =>
    case RequestOtp(data, otp, sessionId) => RequestKeepsKeys(s, ttl, data, otp, sessionId, id);
    case StoreData(_) =>
    case Publish(sessionId, works) => PublishKeepsKeys(s, ttl, sessionId, works, id);
    case Verify(sessionId, otp, cleanupWorks) => VerifyRemoves(s, ttl, sessionId, otp, cleanupWorks);
  }

  /** While the OTP lives, its attempts counter is the current run of wrong comparisons and will not expire first. */
  ghost predicate AttemptsOk(s: System, id: string) {
    && (id in s.st.attempts || id in s.wrong ==> id in s.asked)
    && 0 <= Wrong(s, id) <= OTP_ATTEMPT_LIMIT
    && (Has(s.st.otp, id, s.now) && s.st.otp[id].expiry.At? ==>
          if Wrong(s, id) == 0 then !Has(s.st.attempts, id, s.now)
          else
            && id in s.st.attempts && s.st.attempts[id].value == Wrong(s, id)
            && s.st.attempts[id].expiry.At? && s.st.otp[id].expiry.ms <= s.st.attempts[id].expiry.ms)
  }

  lemma RequestKeepsAttempts(s: System, ttl: int, data: RegData, otp: string, sessionId: string, id: string)
    requires ttl > 0 && AttemptsOk(s, id) && sessionId !in s.asked
    ensures AttemptsOk(RequestNext(s, ttl, data, otp, sessionId), id)
  {
    hide RequestNext, Counted;
    RequestWrites(s, ttl, data, otp, sessionId);
  }

  /** What one verification does to the counter of its own session. */
  lemma VerifyCounts(s: System, ttl: int, id: string, otp: string, cleanupWorks: bool)
    requires ttl > 0 && KeysOk(s, ttl, id) && AttemptsOk(s, id) && Has(s.st.otp, id, s.now)
    ensures var t := VerifyNext(s, ttl, id, otp, cleanupWorks);
      var r := VerifyOtpStep(s.st, ttl, id, otp, s.now).1;
      && (r == Err(OtpLocked) <==> Wrong(s, id) == OTP_ATTEMPT_LIMIT)
      && (r == Err(OtpInvalid) <==> Wrong(s, id) < OTP_ATTEMPT_LIMIT && otp != s.st.otp[id].value)
      && (r == Ok(()) <==> Wrong(s, id) < OTP_ATTEMPT_LIMIT && otp == s.st.otp[id].value)
      && Wrong(t, id) == (if r == Err(OtpInvalid) then Wrong(s, id) + 1 else if r.Ok? then 0 else Wrong(s, id))
      && (r == Err(OtpLocked) ==> id !in t.st.otp)
      && (r == Ok(()) ==> id !in t.st.attempts)
      && (r == Err(OtpInvalid) ==>
          && t.st.otp == s.st.otp && id in t.st.attempts && t.st.attempts[id].value == Wrong(t, id)
          && t.st.attempts[id].expiry.At? && s.st.otp[id].expiry.ms <= t.st.attempts[id].expiry.ms)
  {
  }

  lemma VerifyKeepsAttempts(s: System, ttl: int, sessionId: string, otp: string, cleanupWorks: bool, id: string)
    requires ttl > 0 && KeysOk(s, ttl, id) && AttemptsOk(s, id)
    ensures AttemptsOk(VerifyNext(s, ttl, sessionId, otp, cleanupWorks), id)
  {
    VerifyRemoves(s, ttl, sessionId, otp, cleanupWorks);
    if sessionId == id {
      if Has(s.st.otp, id, s.now) {
        VerifyCounts(s, ttl, id, otp, cleanupWorks);
      }
    } else {
      VerifyLeavesOthers(s, ttl, sessionId, otp, cleanupWorks, id);
    }
  }

  lemma VerifyLeavesOthers(s: System, ttl: int, sessionId: string, otp: string, cleanupWorks: bool, id: string)
    requires id != sessionId
    ensures var t := VerifyNext(s, ttl, sessionId, otp, cleanupWorks);
      && Wrong(t, id) == Wrong(s, id) && (id in t.wrong <==> id in s.wrong)
      && (id in t.st.attempts <==> id in s.st.attempts)
      && (id in t.st.attempts ==> t.st.attempts[id] == s.st.attempts[id])
  {
    CountingLeavesOthers(s.st.attempts, sessionId, ttl, s.now, id);
    hide Counted;
  }

  lemma CountingLeavesOthers(counters: map<string, Entry<int>>, k: string, seconds: int, now: int, other: string)
    requires other != k
    ensures var after := Counted(counters, k, seconds, now);
      (other in after <==> other in counters) && (other in after ==> after[other] == counters[other])
  {
  }

  lemma StepKeepsAttempts(s: System, ttl: int, e: Event, id: string)
    requires ttl > 0 && KeysOk(s, ttl, id) && AttemptsOk(s, id) && Enabled(s, e)
    ensures AttemptsOk(Step(s, ttl, e), id)
  {
    match e
    case Tick(_) =>
    case RequestOtp(data, otp, sessionId) => RequestKeepsAttempts(s, ttl, data, otp, sessionId, id);
    case StoreData(_) =>
    case Publish(_, _) =>
    case Verify(sessionId, otp, cleanupWorks) => VerifyKeepsAttempts(s, ttl, sessionId, otp, cleanupWorks, id);
  }

  /** Every user was created from what its session's sendOtp asked for, on that session's OTP. */
  ghost predicate UserOk(s: System, email: string) {
    email in s.users ==>
      var u := s.users[email];
      && u.data.email == email && !u.emailVerified
      && u.sessionId in s.asked && s.asked[u.sessionId] == Asked(u.data, u.otp)
  }

  lemma StepKeepsUser(s: System, ttl: int, e: Event, email: string)
    requires UserOk(s, email) && Enabled(s, e) && (e.Verify? ==> KeysOk(s, ttl, e.sessionId))
    ensures UserOk(Step(s, ttl, e), email)
  {
  }

  // ---------------------------------------------------------------- the rate counter

  /**
   * OTPs stored in order: windows do not overlap, five places apart two OTPs never share one, and the first OTP of a
   * window is stored as the window opens.
   */
  ghost predicate Spaced(h: seq<Stored>, now: int) {
    InWindows(h, now) && InOrder(h) && FiveApart(h)
  }

  ghost predicate InWindows(h: seq<Stored>, now: int) {
    && (forall i | 0 <= i < |h| :: h[i].window <= h[i].at < h[i].window + SLOT_MS && h[i].at <= now)
    && (forall i | 0 <= i < |h| :: OpensOrContinues(h, i))
  }

  /** An OTP shares its window with the one before, or opens it. */
  ghost predicate OpensOrContinues(h: seq<Stored>, i: int)
    requires 0 <= i < |h|
  {
    (i > 0 && h[i - 1].window == h[i].window) || h[i].at == h[i].window
  }

  ghost predicate InOrder(h: seq<Stored>) {
    forall i, j | 0 <= i <= j < |h| ::
      h[i].at <= h[j].at && (h[i].window == h[j].window || h[i].window + SLOT_MS <= h[j].window)
  }

  ghost predicate FiveApart(h: seq<Stored>) {
    forall i, j | 0 <= i && i + RATE_LIMIT_MAX <= j < |h| :: h[i].window + SLOT_MS <= h[j].window
  }

  /** The last `counted` entries lie in `window`, the others in earlier ones. */
  ghost predicate CountedIn(h: seq<Stored>, counted: int, window: int) {
    && 0 <= counted <= |h|
    && (forall i | |h| - counted <= i < |h| :: h[i].window == window)
    && (forall i | 0 <= i < |h| - counted :: h[i].window + SLOT_MS <= window)
  }

  lemma OneMore(h: seq<Stored>, counted: int, window: int, now: int)
    requires Spaced(h, now) && CountedIn(h, counted, window) && counted < RATE_LIMIT_MAX
    requires window <= now < window + SLOT_MS && (counted == 0 ==> window == now)
    ensures Spaced(h + [Stored(now, window)], now) && CountedIn(h + [Stored(now, window)], counted + 1, window)
  {
    OneMoreInWindow(h, counted, window, now);
    OneMoreCounted(h, counted, window, now);
    OneMoreInOrder(h, counted, window, now);
    OneMoreFiveApart(h, counted, window, now);
  }

  lemma OneMoreInWindow(h: seq<Stored>, counted: int, window: int, now: int)
    requires InWindows(h, now) && CountedIn(h, counted, window)
    requires window <= now < window + SLOT_MS && (counted == 0 ==> window == now)
    ensures InWindows(h + [Stored(now, window)], now)
  {
    var longer := h + [Stored(now, window)];
    assert counted > 0 ==> h[|h| - 1].window == window;
    forall i | 0 <= i < |longer|
      ensures longer[i].window <= longer[i].at < longer[i].window + SLOT_MS && longer[i].at <= now
      ensures OpensOrContinues(longer, i)
    {
      assert i > 0 ==> longer[i - 1] == h[i - 1];
      if i < |h| {
        assert longer[i] == h[i];
        assert OpensOrContinues(h, i);
      }
    }
  }

  lemma OneMoreCounted(h: seq<Stored>, counted: int, window: int, now: int)
    requires CountedIn(h, counted, window)
    ensures CountedIn(h + [Stored(now, window)], counted + 1, window)
  {
    var longer := h + [Stored(now, window)];
    assert forall i | 0 <= i < |h| :: longer[i] == h[i];
  }

  lemma OneMoreInOrder(h: seq<Stored>, counted: int, window: int, now: int)
    requires InWindows(h, now) && InOrder(h) && CountedIn(h, counted, window)
    ensures InOrder(h + [Stored(now, window)])
  {
    var longer := h + [Stored(now, window)];
    assert forall i | 0 <= i < |h| :: longer[i] == h[i];
  }

  lemma OneMoreFiveApart(h: seq<Stored>, counted: int, window: int, now: int)
    requires FiveApart(h) && CountedIn(h, counted, window) && counted < RATE_LIMIT_MAX
    ensures FiveApart(h + [Stored(now, window)])
  {
    var longer := h + [Stored(now, window)];
    forall i, j | 0 <= i && i + RATE_LIMIT_MAX <= j < |longer|
      ensures longer[i].window + SLOT_MS <= longer[j].window
    {
      if j == |h| {
        assert longer[i] == h[i] && h[i].window + SLOT_MS <= window;
      } else {
        assert longer[i] == h[i] && longer[j] == h[j];
      }
    }
  }

  ghost predicate HistoryOk(s: System, email: string) {
    Spaced(History(s, email), s.now)
  }

  function Capped(count: int): int {
    if count <= RATE_LIMIT_MAX then count else RATE_LIMIT_MAX
  }

  /** A live counter has counted the last entries of the history, all in its own window. */
  ghost predicate CounterOk(s: System, email: string) {
    if Has(s.st.rate, email, s.now) then
      var counter := s.st.rate[email];
      && counter.expiry.At? && 1 <= counter.value && WindowStart(counter) <= s.now
      && CountedIn(History(s, email), Capped(counter.value), WindowStart(counter))
    else
      CountedIn(History(s, email), 0, s.now)
  }

  /** The first request of a window. */
  lemma WindowOpens(s: System, ttl: int, data: RegData, otp: string, sessionId: string)
    requires HistoryOk(s, data.email) && CounterOk(s, data.email)
    requires data.email !in s.users && !Has(s.st.rate, data.email, s.now)
    ensures var t := RequestNext(s, ttl, data, otp, sessionId);
      && History(t, data.email) == History(s, data.email) + [Stored(s.now, s.now)]
      && HistoryOk(t, data.email) && CounterOk(t, data.email)
  {
    hide Spaced, Counted;
    FirstHit(s.st.rate, data.email, s.now);
    OneMore(History(s, data.email), 0, s.now, s.now);
  }

  lemma FirstHit(counters: map<string, Entry<int>>, k: string, now: int)
    requires !Has(counters, k, now)
    ensures Counted(counters, k, RATE_LIMIT_WINDOW, now) == counters[k := Entry(1, Ttl(now, RATE_LIMIT_WINDOW))]
  {
  }

  /** A later request of the same window is stored while the limit lasts ... */
  lemma WindowContinues(s: System, ttl: int, data: RegData, otp: string, sessionId: string)
    requires HistoryOk(s, data.email) && CounterOk(s, data.email)
    requires data.email !in s.users && Has(s.st.rate, data.email, s.now) && s.st.rate[data.email].value < RATE_LIMIT_MAX
    ensures var t := RequestNext(s, ttl, data, otp, sessionId);
      && History(t, data.email) == History(s, data.email) + [Stored(s.now, WindowStart(s.st.rate[data.email]))]
      && HistoryOk(t, data.email) && CounterOk(t, data.email)
  {
    hide Spaced, CountedIn, Counted;
    var counter := s.st.rate[data.email];
    NextHit(s.st.rate, data.email, s.now);
    OneMore(History(s, data.email), counter.value, WindowStart(counter), s.now);
  }

  /** ... and refused after that. */
  lemma WindowIsFull(s: System, ttl: int, data: RegData, otp: string, sessionId: string)
    requires HistoryOk(s, data.email) && CounterOk(s, data.email)
    requires data.email !in s.users && Has(s.st.rate, data.email, s.now)
    requires s.st.rate[data.email].value >= RATE_LIMIT_MAX
    ensures StoreOtpStep(s.st, ttl, data.email, otp, sessionId, s.now).1 == Err(RateLimitExceeded)
    ensures var t := RequestNext(s, ttl, data, otp, sessionId);
      History(t, data.email) == History(s, data.email) && HistoryOk(t, data.email) && CounterOk(t, data.email)
  {
    NextHit(s.st.rate, data.email, s.now);
  }

  lemma NextHit(counters: map<string, Entry<int>>, k: string, now: int)
    requires Has(counters, k, now) && counters[k].value >= 1
    ensures Counted(counters, k, RATE_LIMIT_WINDOW, now) ==
      counters[k := Entry(counters[k].value + 1, counters[k].expiry)]
  {
  }

  lemma RequestLeavesOthers(s: System, ttl: int, data: RegData, otp: string, sessionId: string, email: string)
    requires data.email != email
    ensures var t := RequestNext(s, ttl, data, otp, sessionId);
      && History(t, email) == History(s, email) && t.now == s.now
      && (email in t.st.rate <==> email in s.st.rate) && (email in t.st.rate ==> t.st.rate[email] == s.st.rate[email])
  {
    hide RequestNext, Counted;
    RequestWrites(s, ttl, data, otp, sessionId);
    CountingLeavesOthers(s.st.rate, data.email, RATE_LIMIT_WINDOW, s.now, email);
  }

  lemma RequestKeepsRate(s: System, ttl: int, data: RegData, otp: string, sessionId: string, email: string)
    requires HistoryOk(s, email) && CounterOk(s, email)
    ensures var t := RequestNext(s, ttl, data, otp, sessionId); HistoryOk(t, email) && CounterOk(t, email)
  {
    if data.email != email {
      RequestLeavesOthers(s, ttl, data, otp, sessionId, email);
    } else if email !in s.users {
      if Has(s.st.rate, email, s.now) && s.st.rate[email].value >= RATE_LIMIT_MAX {
        WindowIsFull(s, ttl, data, otp, sessionId);
      } else if Has(s.st.rate, email, s.now) {
        WindowContinues(s, ttl, data, otp, sessionId);
      } else {
        WindowOpens(s, ttl, data, otp, sessionId);
      }
    }
  }

  lemma LaterStillOk(s: System, t: System, email: string)
    requires HistoryOk(s, email) && CounterOk(s, email)
    requires t.now >= s.now && History(t, email) == History(s, email) && t.st.rate == s.st.rate
    ensures HistoryOk(t, email) && CounterOk(t, email)
  {
  }

  lemma StepKeepsRate(s: System, ttl: int, e: Event, email: string)
    requires HistoryOk(s, email) && CounterOk(s, email) && Enabled(s, e)
    ensures HistoryOk(Step(s, ttl, e), email) && CounterOk(Step(s, ttl, e), email)
  {
    hide VerifyNext, RequestNext, Spaced, CountedIn;
    match e
    case Tick(ms) => LaterStillOk(s, s.(now := s.now + ms), email);
    case RequestOtp(data, otp, sessionId) => RequestKeepsRate(s, ttl, data, otp, sessionId, email);
    case StoreData(_) =>
    case Publish(_, _) =>
    case Verify(sessionId, otp, cleanupWorks) => VerifyRemoves(s, ttl, sessionId, otp, cleanupWorks);
  }
}
