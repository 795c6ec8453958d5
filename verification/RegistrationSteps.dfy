/** What each OTP request, verification and half of sendOtp does in every state that a run can reach. */
module RegistrationSteps {
  import opened Common
  import opened Redis
  import opened FiniteSets
  import opened Registration
  import opened RegistrationRuns
  import opened RegistrationTheorems

  const ONE_HOUR_MS: int := 3600000

  /** The OTPs stored for `email` in a window that has not run out. */
  function Running(s: System, email: string): set<nat> {
    set i: nat | i < |History(s, email)| && s.now <= History(s, email)[i].window + ONE_HOUR_MS
  }

  lemma RunningIsCounted(s: System, email: string)
    requires HistoryOk(s, email) && CounterOk(s, email)
    ensures if Has(s.st.rate, email, s.now)
      then |Running(s, email)| == Capped(s.st.rate[email].value) && |Running(s, email)| > 0
      else Running(s, email) == {}
  {
    var h := History(s, email);
    if Has(s.st.rate, email, s.now) {
      var counted := Capped(s.st.rate[email].value);
      assert Running(s, email) == Range(|h| - counted, counted);
    }
  }

  /**
   * A request for a known email is refused. Any other is granted exactly while fewer than five OTPs were stored in the
   * window that is running; the first of a window opens it. A granted request stores its OTP for the time to live.
   */
  lemma RequestGrantedIff(ttl: int, events: seq<Event>, data: RegData, otp: string, id: string)
    requires CanRun(ttl, events) && id !in Run(ttl, events).asked
    ensures var s, t := Run(ttl, events), Step(Run(ttl, events), ttl, RequestOtp(data, otp, id));
      var h, granted := History(s, data.email), data.email !in s.users && |Running(s, data.email)| < 5;
      && (data.email in s.users ==> t == s)
      && (data.email !in s.users ==>
            StoreOtpStep(s.st, ttl, data.email, otp, id, s.now).1 == if granted then Ok(id) else Err(RateLimitExceeded))
      && t.st.reg == s.st.reg && t.st.attempts == s.st.attempts && t.users == s.users
      && (!granted ==> t.st.otp == s.st.otp && t.asked == s.asked && History(t, data.email) == h)
      && (granted ==>
            && t.st.otp == s.st.otp[id := Entry(otp, At(s.now + 1000 * ttl))]
            && t.asked == s.asked[id := Asked(data, otp)]
            && (Running(s, data.email) == {} ==> History(t, data.email) == h + [Stored(s.now, s.now)])
            && (Running(s, data.email) != {} ==>
                  |h| > 0 && History(t, data.email) == h + [Stored(s.now, h[|h| - 1].window)]))
  {
    hide Run, CanRun, HistoryOk, CounterOk, Counted, RequestNext;
    var s := Run(ttl, events);
    RunKeepsRate(ttl, events, data.email);
    RunningIsCounted(s, data.email);
    RequestWrites(s, ttl, data, otp, id);
    if data.email !in s.users {
      GrantedAt(s, ttl, data, otp, id);
    } else {
      KnownEmail(s, ttl, data, otp, id);
    }
  }

  lemma KnownEmail(s: System, ttl: int, data: RegData, otp: string, id: string)
    requires data.email in s.users
    ensures RequestNext(s, ttl, data, otp, id) == s
  {
  }

  lemma GrantedAt(s: System, ttl: int, data: RegData, otp: string, id: string)
    requires HistoryOk(s, data.email) && CounterOk(s, data.email) && data.email !in s.users && id !in s.asked
    ensures var t, h := RequestNext(s, ttl, data, otp, id), History(s, data.email);
      var r := StoreOtpStep(s.st, ttl, data.email, otp, id, s.now).1;
      if Has(s.st.rate, data.email, s.now) && s.st.rate[data.email].value >= 5 then
        r == Err(RateLimitExceeded) && t.st.otp == s.st.otp && t.asked == s.asked && History(t, data.email) == h
      else
        && r == Ok(id) && t.st.otp == s.st.otp[id := Entry(otp, At(s.now + 1000 * ttl))]
        && t.asked == s.asked[id := Asked(data, otp)]
        && if Has(s.st.rate, data.email, s.now)
           then |h| > 0 && History(t, data.email) == h + [Stored(s.now, h[|h| - 1].window)]
           else History(t, data.email) == h + [Stored(s.now, s.now)]
  {
    StoreWrites(s.st, ttl, data.email, otp, id, s.now);
    if Has(s.st.rate, data.email, s.now) {
      NextHit(s.st.rate, data.email, s.now);
      if s.st.rate[data.email].value >= 5 {
        WindowIsFull(s, ttl, data, otp, id);
      } else {
        WindowContinues(s, ttl, data, otp, id);
      }
    } else {
      FirstHit(s.st.rate, data.email, s.now);
      WindowOpens(s, ttl, data, otp, id);
    }
    hide Counted, Spaced;
  }

  /** The later steps of sendOtp: the data is kept for the time to live; a failed publish removes both keys. */
  lemma SendOtpFinishes(ttl: int, s: System, id: string, works: bool)
    ensures InStage(s, id, OtpStored) ==>
      var t := Step(s, ttl, StoreData(id));
      t.st == s.st.(reg := s.st.reg[id := Entry(s.asked[id].data, At(s.now + 1000 * ttl))]) && t.users == s.users
    ensures InStage(s, id, BothStored) ==>
      var t := Step(s, ttl, Publish(id, works));
      t.users == s.users && t.st == if works then s.st else s.st.(otp := s.st.otp - {id}, reg := s.st.reg - {id})
  {
  }

  /** Who has registered, and which keys of the session are left. */
  ghost predicate Leaves(s: System, t: System, id: string, otpStays: bool, regStays: bool) {
    && t.st.otp == (if otpStays then s.st.otp else s.st.otp - {id})
    && t.st.reg == (if regStays then s.st.reg else s.st.reg - {id})
    && t.st.rate == s.st.rate
  }

  /** The answer to a verification, and what it leaves. */
  ghost predicate VerifyAnswer(s: System, id: string, otp: string, cleanupWorks: bool, t: System,
                               r: Result<User, RegistrationError>) {
    if !Has(s.st.otp, id, s.now) then
      r == Err(OtpExpired) && t == s
    else if Wrong(s, id) == 5 then
      r == Err(OtpLocked) && Leaves(s, t, id, false, true) && t.users == s.users
    else
      && id in s.asked
      && (if otp != s.asked[id].otp then
            && r == Err(OtpInvalid) && Leaves(s, t, id, true, true) && t.users == s.users
            && Wrong(t, id) == Wrong(s, id) + 1 && id in t.st.attempts && t.st.attempts[id].value == Wrong(s, id) + 1
          else
            && Wrong(t, id) == 0 && id !in t.st.attempts
            && (if !Has(s.st.reg, id, s.now) then
                  r == Err(RegistrationSessionExpired) && Leaves(s, t, id, true, true) && t.users == s.users
                else if s.asked[id].data.email in s.users then
                  r == Err(EmailTaken) && Leaves(s, t, id, true, true) && t.users == s.users
                else
                  && r == Ok(User(s.asked[id].data, id, otp, false))
                  && Leaves(s, t, id, !cleanupWorks, !cleanupWorks)
                  && t.users == s.users[s.asked[id].data.email := r.value]))
  }

  /**
   * Every verification is answered by the first of these that applies: no live OTP, five wrong guesses before, wrong
   * OTP, no live registration data, email taken; otherwise it registers the user of that session.
   */
  lemma VerifyAnswers(ttl: int, events: seq<Event>, id: string, otp: string, cleanupWorks: bool)
    requires ttl > 0 && CanRun(ttl, events)
    ensures var s := Run(ttl, events);
      VerifyAnswer(s, id, otp, cleanupWorks, Step(s, ttl, Verify(id, otp, cleanupWorks)),
        VerifyStep(s.st, s.users, ttl, id, otp, cleanupWorks, s.now).2)
  {
    var s := Run(ttl, events);
    RunKeepsSession(ttl, events, id);
    if Has(s.st.otp, id, s.now) {
      VerifyCounts(s, ttl, id, otp, cleanupWorks);
    }
  }
}
