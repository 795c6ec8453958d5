/** Sessions over their whole life: an ended one stays ended, and a refreshed one can outlive its index. */
module SessionLifetimes {
  import opened Common
  import opened Redis
  import opened Sessions
  import opened SessionRuns
  import opened SessionTheorems

  // ---------------------------------------------------------------- ended for good

  /** Only a login starts a session, and its id is new. */
  lemma StepRevivesNothing(s: System, e: Event, id: string)
    requires Owned(s) && Enabled(s, e) && id in s.owner && !Live(s, id)
    ensures id in Step(s, e).owner && !Live(Step(s, e), id)
  {
    if e.Refreshing? {
      RefreshOutcome(s, e.token, e.fingerprint, e.userExists, e.stamp);
    }
  }

  /**
   * However a session ended (expired, revoked, logged out, reuse), it never comes back: every later refresh and every
   * later session check is refused.
   */
  lemma {:induction false} EndedSessionStaysEnded(events: seq<Event>, k: nat, id: string, token: Token,
                                                  fingerprint: string, userExists: bool, stamp: nat)
    requires CanRun(events) && k <= |events| && CanRun(events[..k]) && token.sessionId == id
    requires id in Run(events[..k]).owner && !Live(Run(events[..k]), id)
    ensures var s := Run(events);
      && id in s.owner && !Live(s, id)
      && RefreshStep(s.st, Some(token), fingerprint, userExists, stamp, s.now) ==
           (s.st, Err(if token.kind == Refresh then SessionExpiredOrRevoked else InvalidTokenType))
      && TouchStep(s.st, id, token.sub, s.now) == (s.st, Err(SessionExpiredOrRevoked))
    decreases |events|
  {
    if k < |events| {
      var init := events[..|events| - 1];
      assert init[..k] == events[..k];
      EndedSessionStaysEnded(init, k, id, token, fingerprint, userExists, stamp);
      RunKeepsOwned(init);
      StepRevivesNothing(Run(init), events[|events| - 1], id);
    } else {
      assert events[..k] == events;
    }
  }

  // ---------------------------------------------------------------- outliving the index

  /** The token a call presents has not passed the lifetime that its signer gave it, in seconds. */
  predicate InTime(s: System, e: Event, accessSeconds: nat, refreshSeconds: nat) {
    match e
    case Refreshing(token, _, _, _) => s.now / 1000 < token.iat + refreshSeconds
    case Check(token) => s.now / 1000 < token.iat + accessSeconds
    case Logout(token) => s.now / 1000 < token.iat + refreshSeconds
    case _ => true
  }

  predicate AllInTime(events: seq<Event>, accessSeconds: nat, refreshSeconds: nat)
    requires CanRun(events)
    decreases |events|
  {
    events == [] ||
    (&& AllInTime(events[..|events| - 1], accessSeconds, refreshSeconds)
     && InTime(Run(events[..|events| - 1]), events[|events| - 1], accessSeconds, refreshSeconds))
  }

  const DAY: int := 24 * 60 * 60

  /** The default lifetimes of access and refresh tokens. */
  const ACCESS_SECONDS: int := 15 * 60
  const REFRESH_SECONDS: int := 7 * DAY

  /** Who logs in, on which session and device, and the stamp of every signing. */
  datatype Client = Client(userId: string, sessionId: string, fingerprint: string, stamp: nat)

  /** The refresh token that the client holds after its `n`-th refresh. */
  function Held(c: Client, n: nat): Token {
    Sign(c.userId, c.sessionId, c.stamp, 6000 * DAY * n).refresh
  }

  /** A login, and `n` refreshes six days apart: no token presented is older than six days. */
  function EverySixDays(c: Client, n: nat): seq<Event> {
    if n == 0 then [] + [Login(c.userId, c.sessionId, c.fingerprint, c.stamp)]
    else
      var present := Refreshing(Held(c, n - 1), c.fingerprint, true, c.stamp);
      EverySixDays(c, n - 1) + [Tick(6000 * DAY)] + [present]
  }

  /** After the `n`-th refresh: the session as that refresh left it, the index as the login left it. */
  ghost predicate Refreshed(s: System, c: Client, n: nat) {
    && s.now == 6000 * DAY * n && s.owner == map[c.sessionId := c.userId] && s.born == map[c.sessionId := 0]
    && s.renewals == [Renewal(c.userId, 0)] && Held(c, n) in s.issued
    && s.st.index == map[c.userId := Entry({c.sessionId}, At(SESSION_TTL_MS))]
    && c.sessionId in s.st.sessions && s.st.sessions[c.sessionId].expiry == At(s.now + SESSION_TTL_MS)
    && var session := s.st.sessions[c.sessionId].value;
      session.userId == c.userId && session.fingerprint == c.fingerprint
      && session.refreshTokenHash == Sha256(Held(c, n))
  }

  lemma RefreshedNext(s: System, c: Client, n: nat)
    requires Refreshed(s, c, n)
    ensures var t := s.(now := s.now + 6000 * DAY);
      && Refreshed(RefreshNext(t, Held(c, n), c.fingerprint, true, c.stamp), c, n + 1)
      && Enabled(t, Refreshing(Held(c, n), c.fingerprint, true, c.stamp))
      && InTime(t, Refreshing(Held(c, n), c.fingerprint, true, c.stamp), ACCESS_SECONDS, REFRESH_SECONDS)
  {
    var t := s.(now := s.now + 6000 * DAY);
    assert t.now / 1000 == Held(c, n).iat + 6 * DAY;
  }

  lemma ExtendInTime(events: seq<Event>, e: Event)
    requires CanRun(events) && AllInTime(events, ACCESS_SECONDS, REFRESH_SECONDS) && Enabled(Run(events), e)
    requires InTime(Run(events), e, ACCESS_SECONDS, REFRESH_SECONDS)
    ensures CanRun(events + [e]) && Run(events + [e]) == Step(Run(events), e)
    ensures AllInTime(events + [e], ACCESS_SECONDS, REFRESH_SECONDS)
  {
    hide Step, Enabled, InTime;
    assert (events + [e])[..|events + [e]| - 1] == events;
  }

  lemma FirstRefreshed(c: Client)
    ensures Refreshed(LoginNext(INITIAL, c.userId, c.sessionId, c.fingerprint, c.stamp), c, 0)
  {
    assert SMembers(INITIAL.st.index, c.userId, 0) + {c.sessionId} == {c.sessionId};
  }

  lemma RefreshAgain(c: Client, events: seq<Event>, n: nat)
    requires CanRun(events) && AllInTime(events, ACCESS_SECONDS, REFRESH_SECONDS) && Refreshed(Run(events), c, n)
    ensures var more := events + [Tick(6000 * DAY)] + [Refreshing(Held(c, n), c.fingerprint, true, c.stamp)];
      CanRun(more) && AllInTime(more, ACCESS_SECONDS, REFRESH_SECONDS) && Refreshed(Run(more), c, n + 1)
  {
    RefreshedNext(Run(events), c, n);
    hide Run, CanRun, AllInTime, RefreshNext, Refreshed, Held;
    ExtendInTime(events, Tick(6000 * DAY));
    ExtendInTime(events + [Tick(6000 * DAY)], Refreshing(Held(c, n), c.fingerprint, true, c.stamp));
  }

  lemma LogsIn(c: Client)
    ensures var events := [] + [Login(c.userId, c.sessionId, c.fingerprint, c.stamp)];
      CanRun(events) && AllInTime(events, ACCESS_SECONDS, REFRESH_SECONDS) && Refreshed(Run(events), c, 0)
  {
    hide LoginNext, Refreshed;
    assert Run([]) == INITIAL;
    ExtendInTime([], Login(c.userId, c.sessionId, c.fingerprint, c.stamp));
    FirstRefreshed(c);
  }

  lemma {:induction false} KeepsRefreshing(c: Client, n: nat)
    ensures CanRun(EverySixDays(c, n)) && AllInTime(EverySixDays(c, n), ACCESS_SECONDS, REFRESH_SECONDS)
    ensures Refreshed(Run(EverySixDays(c, n)), c, n)
  {
    hide Run, CanRun, AllInTime, Refreshed, Held;
    if n == 0 {
      LogsIn(c);
    } else {
      KeepsRefreshing(c, n - 1);
      RefreshAgain(c, EverySixDays(c, n - 1), n - 1);
    }
  }

  /** Four refreshes, and then the login is longer ago than a session's time to live. */
  function PastTheIndex(c: Client): seq<Event> {
    EverySixDays(c, 4) + [Tick(6000 * DAY + 1)]
  }

  /**
   * A refresh renews the session and not the index, so a live session can be in no list: getSessions does not show it,
   * logoutAll does not end it, and after that its token, six days old, still refreshes. In this run the default token
   * lifetimes are kept: every refresh token presented is six days old, of seven.
   */
  lemma RefreshedSessionOutlivesIndex(c: Client, next: nat)
    ensures CanRun(PastTheIndex(c)) && AllInTime(PastTheIndex(c), ACCESS_SECONDS, REFRESH_SECONDS)
    ensures var s := Run(PastTheIndex(c));
      var st := LogoutAllStep(s.st, c.userId, s.now);
      && c.sessionId in LiveSessions(s, c.userId) && !Covered(s, c.sessionId)
      && Listed(s.st, c.userId, s.now) == {}
      && Has(st.sessions, c.sessionId, s.now)
      && RefreshStep(st, Some(Held(c, 4)), c.fingerprint, true, next, s.now).1.Ok?
      && s.now / 1000 < Held(c, 4).iat + REFRESH_SECONDS
  {
    hide EverySixDays;
    KeepsRefreshing(c, 4);
    ExtendInTime(EverySixDays(c, 4), Tick(6000 * DAY + 1));
    PastIsUnlisted(Run(PastTheIndex(c)), Run(EverySixDays(c, 4)), c, next);
  }

  lemma PastIsUnlisted(s: System, before: System, c: Client, next: nat)
    requires Refreshed(before, c, 4) && s == before.(now := before.now + 6000 * DAY + 1)
    ensures var st := LogoutAllStep(s.st, c.userId, s.now);
      && c.sessionId in LiveSessions(s, c.userId) && !Covered(s, c.sessionId)
      && Listed(s.st, c.userId, s.now) == {}
      && Has(st.sessions, c.sessionId, s.now)
      && RefreshStep(st, Some(Held(c, 4)), c.fingerprint, true, next, s.now).1.Ok?
      && s.now / 1000 < Held(c, 4).iat + REFRESH_SECONDS
  {
    assert [] + [Renewal(c.userId, 0)] == s.renewals;
    AppendRenewal([], Renewal(c.userId, 0), c.userId, 0);
  }
}
