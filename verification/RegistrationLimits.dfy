/** How tight the hourly OTP limit is: the run that reaches it, and the least limit that holds of every run. */
module RegistrationLimits {
  import opened Redis
  import opened FiniteSets
  import opened Registration
  import opened RegistrationRuns
  import opened RegistrationTheorems

  /** When the n-th request of the run below is made: one at once, four as its window ends, five a millisecond later. */
  function RequestedAt(n: nat): nat {
    if n <= 1 then 0 else if n <= 5 then WINDOW_MS else SLOT_MS
  }

  function WindowOf(n: nat): nat {
    if n <= 5 then 0 else SLOT_MS
  }

  /** The session id of request `n + 1`. */
  function FreshId(n: nat): (id: string)
    ensures |id| == n
  {
    seq(n, _ => 'x')
  }

  function Requests(data: RegData, otp: string, n: nat): seq<Event> {
    if n == 0 then []
    else
      var pause := Tick(RequestedAt(n) - RequestedAt(n - 1));
      Requests(data, otp, n - 1) + [pause] + [RequestOtp(data, otp, FreshId(n - 1))]
  }

  function Times(n: nat): (h: seq<Stored>)
    ensures |h| == n && forall i | 0 <= i < n :: h[i] == Stored(RequestedAt(i + 1), WindowOf(i + 1))
  {
    seq(n, i requires 0 <= i < n => Stored(RequestedAt(i + 1), WindowOf(i + 1)))
  }

  lemma Extend(ttl: int, events: seq<Event>, e: Event)
    requires CanRun(ttl, events) && Enabled(Run(ttl, events), e)
    ensures CanRun(ttl, events + [e]) && Run(ttl, events + [e]) == Step(Run(ttl, events), ttl, e)
  {
    assert (events + [e])[..|events + [e]| - 1] == events;
  }

  /** The state after `n` of these requests, all of them granted. */
  ghost predicate Granted(s: System, email: string, n: nat) {
    && s.now == RequestedAt(n) && s.users == map[] && (forall id | id in s.asked :: |id| < n)
    && History(s, email) == Times(n)
    && (if n == 0 then email !in s.st.rate
        else email in s.st.rate && s.st.rate[email] == CounterEntry(n))
  }

  /** The counter after the n-th request. */
  function CounterEntry(n: nat): Entry<int> {
    Entry(if n <= 5 then n else n - 5, At(WindowOf(n) + WINDOW_MS))
  }

  lemma CounterAt(counters: map<string, Entry<int>>, email: string, n: nat)
    requires 0 < n <= 10
    requires if n == 1 then email !in counters else email in counters && counters[email] == CounterEntry(n - 1)
    ensures Counted(counters, email, RATE_LIMIT_WINDOW, RequestedAt(n)) == counters[email := CounterEntry(n)]
  {
    hide Counted;
    if n == 1 || n == 6 {
      FirstHit(counters, email, RequestedAt(n));
    } else {
      NextHit(counters, email, RequestedAt(n));
    }
  }

  /** A request that the counter lets through. */
  lemma GrantedStores(s: System, ttl: int, data: RegData, otp: string, id: string)
    requires data.email !in s.users
    requires var counters := Counted(s.st.rate, data.email, RATE_LIMIT_WINDOW, s.now);
      data.email in counters && counters[data.email].value <= RATE_LIMIT_MAX
    ensures var t := RequestNext(s, ttl, data, otp, id);
      var counters := Counted(s.st.rate, data.email, RATE_LIMIT_WINDOW, s.now);
      && t.now == s.now && t.users == s.users && t.asked == s.asked[id := Asked(data, otp)] && t.st.rate == counters
      && History(t, data.email) == History(s, data.email) + [Stored(s.now, WindowStart(counters[data.email]))]
  {
    hide Counted;
  }

  lemma NextGranted(s: System, ttl: int, data: RegData, otp: string, n: nat)
    requires 0 < n <= 10 && Granted(s, data.email, n - 1)
    ensures FreshId(n - 1) !in s.asked && s.now == RequestedAt(n - 1)
    ensures var ticked := s.(now := RequestedAt(n));
      Granted(RequestNext(ticked, ttl, data, otp, FreshId(n - 1)), data.email, n)
  {
    var ticked := s.(now := RequestedAt(n));
    CounterAt(s.st.rate, data.email, n);
    GrantedStores(ticked, ttl, data, otp, FreshId(n - 1));
    hide Counted, StoreOtpStep, RequestNext;
    assert Times(n) == Times(n - 1) + [Stored(RequestedAt(n), WindowOf(n))];
  }

  lemma StartGranted(email: string)
    ensures Granted(INITIAL, email, 0)
  {
  }

  lemma {:induction false} AllGranted(ttl: int, data: RegData, otp: string, n: nat)
    requires n <= 10
    ensures CanRun(ttl, Requests(data, otp, n)) && Granted(Run(ttl, Requests(data, otp, n)), data.email, n)
  {
    hide RequestNext, Granted;
    if n > 0 {
      AllGranted(ttl, data, otp, n - 1);
      var r, pause := Requests(data, otp, n - 1), Tick(RequestedAt(n) - RequestedAt(n - 1));
      NextGranted(Run(ttl, r), ttl, data, otp, n);
      Extend(ttl, r, pause);
      Extend(ttl, r + [pause], RequestOtp(data, otp, FreshId(n - 1)));
    } else {
      StartGranted(data.email);
      assert Requests(data, otp, n) == [];
    }
  }

  /** One OTP as a window opens, four as it ends and five as the next one opens: nine within two milliseconds. */
  lemma NineAreReached(ttl: int, data: RegData, otp: string)
    ensures CanRun(ttl, Requests(data, otp, 10))
    ensures |StoredIn(Run(ttl, Requests(data, otp, 10)), data.email, WINDOW_MS, WINDOW_MS + 2)| == 9
  {
    hide Run, CanRun, Requests;
    AllGranted(ttl, data, otp, 10);
    var s := Run(ttl, Requests(data, otp, 10));
    var h := History(s, data.email);
    assert forall i | 0 <= i < |h| :: h[i].at == RequestedAt(i + 1);
    CountRun(s, data.email, WINDOW_MS, WINDOW_MS + 2, 1, 9);
  }

  /** A stretch that takes in `size` places of the history, from place `first` on. */
  lemma CountRun(s: System, email: string, start: int, end: int, first: nat, size: nat)
    requires first + size <= |History(s, email)|
    requires forall i | 0 <= i < |History(s, email)| ::
      start <= History(s, email)[i].at < end <==> first <= i < first + size
    ensures |StoredIn(s, email, start, end)| == size
  {
    hide History;
    assert StoredIn(s, email, start, end) == Range(first, size);
  }

  /** At most `limit` OTPs stored for `email` in the `length` milliseconds from `start` on. */
  ghost predicate AtMost(ttl: int, events: seq<Event>, email: string, start: int, length: int, limit: nat)
    requires CanRun(ttl, events)
  {
    |StoredIn(Run(ttl, events), email, start, start + length)| <= limit
  }

  /**
   * The exact sliding limit: `limit` OTPs per email holds of every run in every stretch of this length iff `limit` is
   * at least nine, whether the stretch is 3600 s with both ends counted or only two milliseconds.
   */
  lemma HourlyLimitIsExact(ttl: int, length: int, limit: nat)
    requires 2 <= length <= WINDOW_MS + 1
    ensures limit >= 9 <==> forall events: seq<Event>, email, start | CanRun(ttl, events) ::
      AtMost(ttl, events, email, start, length, limit)
  {
    forall events: seq<Event>, email, start | CanRun(ttl, events)
      ensures limit >= 9 ==> AtMost(ttl, events, email, start, length, limit)
    {
      NineOtpsPerHour(ttl, events, email, start);
      ShorterHoldsFewer(Run(ttl, events), email, start, start + length, start + WINDOW_MS + 1);
    }
    if limit < 9 {
      NineInside(ttl, length, limit);
    }
  }

  lemma NineInside(ttl: int, length: int, limit: nat)
    requires 2 <= length && limit < 9
    ensures var run := Requests(RegData("", "", "", ""), "", 10);
      CanRun(ttl, run) && !AtMost(ttl, run, "", WINDOW_MS, length, limit)
  {
    hide Run, CanRun, Requests;
    var run := Requests(RegData("", "", "", ""), "", 10);
    NineAreReached(ttl, RegData("", "", "", ""), "");
    ShorterHoldsFewer(Run(ttl, run), "", WINDOW_MS, WINDOW_MS + 2, WINDOW_MS + length);
  }

  lemma ShorterHoldsFewer(s: System, email: string, start: int, end: int, later: int)
    requires end <= later
    ensures |StoredIn(s, email, start, end)| <= |StoredIn(s, email, start, later)|
  {
    SubsetSize(StoredIn(s, email, start, end), StoredIn(s, email, start, later));
  }
}
