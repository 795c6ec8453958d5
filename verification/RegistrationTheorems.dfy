/** What the OTP counters and the registration record promise over whole runs. */
module RegistrationTheorems {
  import opened Common
  import opened Redis
  import opened FiniteSets
  import opened Registration
  import opened RegistrationRuns

  lemma {:induction false} RunKeepsSession(ttl: int, events: seq<Event>, id: string)
    requires ttl > 0 && CanRun(ttl, events)
    ensures KeysOk(Run(ttl, events), ttl, id) && AttemptsOk(Run(ttl, events), id)
    decreases |events|
  {
    if events != [] {
      RunKeepsSession(ttl, events[..|events| - 1], id);
      StepKeepsKeys(Run(ttl, events[..|events| - 1]), ttl, events[|events| - 1], id);
      StepKeepsAttempts(Run(ttl, events[..|events| - 1]), ttl, events[|events| - 1], id);
    }
  }

  lemma {:induction false} RunKeepsRate(ttl: int, events: seq<Event>, email: string)
    requires CanRun(ttl, events)
    ensures HistoryOk(Run(ttl, events), email) && CounterOk(Run(ttl, events), email)
    decreases |events|
  {
    if events != [] {
      RunKeepsRate(ttl, events[..|events| - 1], email);
      StepKeepsRate(Run(ttl, events[..|events| - 1]), ttl, events[|events| - 1], email);
    }
  }

  // ---------------------------------------------------------------- OTP attempts

  /**
   * An OTP session never sees more than five consecutive wrong comparisons: the sixth attempt in a row is
   * refused without comparing and deletes the OTP. Before that, an attempt succeeds exactly on the OTP asked for.
   */
  lemma FiveWrongGuessesLock(ttl: int, events: seq<Event>, id: string, otp: string)
    requires ttl > 0 && CanRun(ttl, events) && Has(Run(ttl, events).st.otp, id, Run(ttl, events).now)
    ensures var s := Run(ttl, events);
      var (st, r) := VerifyOtpStep(s.st, ttl, id, otp, s.now);
      && id in s.asked && 0 <= Wrong(s, id) <= OTP_ATTEMPT_LIMIT
      && (r == Err(OtpLocked) <==> Wrong(s, id) == OTP_ATTEMPT_LIMIT)
      && (r == Ok(()) <==> Wrong(s, id) < OTP_ATTEMPT_LIMIT && otp == s.asked[id].otp)
      && (r == Err(OtpLocked) ==> id !in st.otp)
  {
    RunKeepsSession(ttl, events, id);
    VerifyCounts(Run(ttl, events), ttl, id, otp, true);
  }

  lemma GoneStepsStayGone(s: System, ttl: int, e: Event, id: string)
    requires id in s.asked && !Has(s.st.otp, id, s.now) && Enabled(s, e)
    ensures id in Step(s, ttl, e).asked && !Has(Step(s, ttl, e).st.otp, id, Step(s, ttl, e).now)
  {
    if e.Verify? {
      VerifyRemoves(s, ttl, e.sessionId, e.otp, e.cleanupWorks);
    }
  }

  lemma {:induction false} PrefixRuns(ttl: int, events: seq<Event>, k: nat)
    requires CanRun(ttl, events) && k <= |events|
    ensures CanRun(ttl, events[..k])
    decreases |events|
  {
    if k < |events| {
      PrefixRuns(ttl, events[..|events| - 1], k);
      assert events[..|events| - 1][..k] == events[..k];
    } else {
      assert events[..k] == events;
    }
  }

  /**
   * An OTP that is gone (expired, locked, used or rolled back) never comes back: every later attempt finds it expired.
   */
  lemma {:induction false} GoneOtpStaysGone(ttl: int, events: seq<Event>, k: nat, id: string, otp: string)
    requires CanRun(ttl, events) && k <= |events| && CanRun(ttl, events[..k])
    requires var early := Run(ttl, events[..k]); id in early.asked && !Has(early.st.otp, id, early.now)
    ensures var s := Run(ttl, events);
      id in s.asked && !Has(s.st.otp, id, s.now) && VerifyOtpStep(s.st, ttl, id, otp, s.now).1 == Err(OtpExpired)
    decreases |events|
  {
    if k < |events| {
      var init := events[..|events| - 1];
      assert init[..k] == events[..k];
      GoneOtpStaysGone(ttl, init, k, id, otp);
      GoneStepsStayGone(Run(ttl, init), ttl, events[|events| - 1], id);
    } else {
      assert events[..k] == events;
    }
  }

  // ---------------------------------------------------------------- OTP rate

  /** Nine places apart, two OTPs are at least a full window apart. */
  lemma NineApart(h: seq<Stored>, now: int, i: nat)
    requires Spaced(h, now) && i + 9 < |h|
    ensures h[i].at + SLOT_MS <= h[i + 9].at
  {
    assert h[i].window + SLOT_MS <= h[i + 5].window;
    assert h[i + 4].window + SLOT_MS <= h[i + 9].window;
    if h[i + 9].window < h[i].window + 2 * SLOT_MS {
      assert h[i + 5].window == h[i + 9].window;
      assert h[i + 4].window == h[i].window;
      assert i > 0 ==> h[i - 1].window + SLOT_MS <= h[i + 4].window;
      assert OpensOrContinues(h, i);
      assert h[i].at == h[i].window;
    }
  }

  /** OTPs stored for `email` from `start` until before `end`. */
  function StoredIn(s: System, email: string, start: int, end: int): set<nat> {
    set i: nat | i < |History(s, email)| && start <= History(s, email)[i].at < end
  }

  /** Per email, at most nine OTPs in any 3600 seconds, both ends counted. */
  lemma NineOtpsPerHour(ttl: int, events: seq<Event>, email: string, start: int)
    requires CanRun(ttl, events)
    ensures |StoredIn(Run(ttl, events), email, start, start + WINDOW_MS + 1)| <= 9
  {
    var s := Run(ttl, events);
    RunKeepsRate(ttl, events, email);
    var h, found := History(s, email), StoredIn(s, email, start, start + WINDOW_MS + 1);
    if found != {} {
      var least := LeastOf(found);
      forall i | i in found
        ensures i in Range(least, 9)
      {
        if i >= least + 9 {
          NineApart(h, s.now, least);
        }
      }
      SubsetSize(found, Range(least, 9));
    }
  }

  /** At most five OTPs are stored in one window. */
  lemma FiveOtpsPerWindow(ttl: int, events: seq<Event>, email: string, window: int)
    requires CanRun(ttl, events)
    ensures var h := History(Run(ttl, events), email);
      |set i: nat | i < |h| && h[i].window == window| <= RATE_LIMIT_MAX
  {
    var s := Run(ttl, events);
    RunKeepsRate(ttl, events, email);
    var h := History(s, email);
    var found := set i: nat | i < |h| && h[i].window == window;
    if found != {} {
      var least := LeastOf(found);
      assert found <= Range(least, RATE_LIMIT_MAX);
      SubsetSize(found, Range(least, RATE_LIMIT_MAX));
    }
  }

  // ---------------------------------------------------------------- registration

  /**
   * Every user was created from the data its session's sendOtp stored, after that session's OTP was presented;
   * none is marked as verified.
   */
  lemma {:induction false} UsersComeFromSendOtp(ttl: int, events: seq<Event>, email: string)
    requires ttl > 0 && CanRun(ttl, events)
    ensures UserOk(Run(ttl, events), email)
    decreases |events|
  {
    if events != [] {
      var init, e := events[..|events| - 1], events[|events| - 1];
      UsersComeFromSendOtp(ttl, init, email);
      if e.Verify? {
        RunKeepsSession(ttl, init, e.sessionId);
      }
      StepKeepsUser(Run(ttl, init), ttl, e, email);
    }
  }

  /**
   * For a returned session id a live OTP implies live registration data, so the right OTP never finds the data
   * missing; after a failed publish neither key is left.
   */
  lemma ReturnedSessionsAreComplete(ttl: int, events: seq<Event>, id: string, otp: string, cleanupWorks: bool)
    requires ttl > 0 && CanRun(ttl, events)
    ensures var s := Run(ttl, events);
      && (InStage(s, id, Returned) && Has(s.st.otp, id, s.now) ==> Get(s.st.reg, id, s.now) == Some(s.asked[id].data))
      && (InStage(s, id, Returned) ==>
            VerifyStep(s.st, s.users, ttl, id, otp, cleanupWorks, s.now).2 != Err(RegistrationSessionExpired))
      && (InStage(s, id, RolledBack) ==> id !in s.st.otp && id !in s.st.reg)
  {
    RunKeepsSession(ttl, events, id);
  }

  /** A returned session with fewer than five wrong guesses registers its user on the right OTP, and only then. */
  lemma RightOtpRegisters(ttl: int, events: seq<Event>, id: string, otp: string, cleanupWorks: bool)
    requires ttl > 0 && CanRun(ttl, events) && InStage(Run(ttl, events), id, Returned)
    ensures var s := Run(ttl, events);
      var (st, users, r) := VerifyStep(s.st, s.users, ttl, id, otp, cleanupWorks, s.now);
      var asked := s.asked[id];
      && (r.Ok? <==>
            && Has(s.st.otp, id, s.now) && Wrong(s, id) < OTP_ATTEMPT_LIMIT && otp == asked.otp
            && asked.data.email !in s.users)
      && (r.Ok? ==> users == s.users[asked.data.email := User(asked.data, id, otp, false)])
      && (r.Err? ==> users == s.users)
      && (r.Ok? && cleanupWorks ==> id !in st.otp && id !in st.reg)
  {
    RunKeepsSession(ttl, events, id);
    if Has(Run(ttl, events).st.otp, id, Run(ttl, events).now) {
      VerifyCounts(Run(ttl, events), ttl, id, otp, cleanupWorks);
    }
  }
}
