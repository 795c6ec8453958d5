/** When the index of a user's sessions agrees with the live sessions, and what calls for one user do to others. */
module SessionTheorems {
  import opened Common
  import opened Redis
  import opened Sessions
  import opened SessionRuns

  // ---------------------------------------------------------------- gaps between renewals

  function LastRenewal(log: seq<Renewal>, userId: string): Option<int> {
    if log == [] then None
    else if log[|log| - 1].userId == userId then Some(log[|log| - 1].at)
    else LastRenewal(log[..|log| - 1], userId)
  }

  /** From entry `from` on, the user's renewals follow one another within a session's time to live. */
  function Unbroken(log: seq<Renewal>, userId: string, from: nat): bool {
    if |log| <= from + 1 then true
    else if log[|log| - 1].userId != userId then Unbroken(log[..|log| - 1], userId, from)
    else
      (&& Unbroken(log[..|log| - 1], userId, from)
       && LastRenewal(log[..|log| - 1], userId).Some?
       && log[|log| - 1].at <= LastRenewal(log[..|log| - 1], userId).value + SESSION_TTL_MS)
  }

  /** The user has renewed within the last time to live. */
  predicate Recent(s: System, userId: string) {
    LastRenewal(s.renewals, userId).Some? && s.now <= LastRenewal(s.renewals, userId).value + SESSION_TTL_MS
  }

  /** Since this session's login its owner has never gone longer than a time to live without a renewal. */
  predicate Covered(s: System, id: string) {
    id in s.owner && id in s.born && Unbroken(s.renewals, s.owner[id], s.born[id]) && Recent(s, s.owner[id])
  }

  lemma AppendRenewal(log: seq<Renewal>, r: Renewal, userId: string, from: nat)
    ensures LastRenewal(log + [r], userId) == if r.userId == userId then Some(r.at) else LastRenewal(log, userId)
    ensures from < |log| ==> (
      Unbroken(log + [r], userId, from) <==>
      && Unbroken(log, userId, from)
      && (r.userId == userId ==>
            LastRenewal(log, userId).Some? && r.at <= LastRenewal(log, userId).value + SESSION_TTL_MS))
  {
    assert (log + [r])[..|log + [r]| - 1] == log;
  }

  // ---------------------------------------------------------------- index agreement

  ghost predicate BornOk(s: System) {
    forall id | id in s.born ::
      s.born[id] < |s.renewals| && id in s.owner && s.renewals[s.born[id]].userId == s.owner[id]
  }

  /** A live index expires one time to live after its user's last renewal. */
  ghost predicate ExpiryOk(s: System, userId: string) {
    Has(s.st.index, userId, s.now) ==>
      && LastRenewal(s.renewals, userId).Some?
      && s.st.index[userId].expiry == At(LastRenewal(s.renewals, userId).value + SESSION_TTL_MS)
  }

  predicate Live(s: System, id: string) {
    Has(s.st.sessions, id, s.now)
  }

  predicate Indexed(s: System, userId: string, id: string) {
    id in SMembers(s.st.index, userId, s.now)
  }

  ghost predicate Agrees(s: System, id: string) {
    Live(s, id) && id in s.owner ==> (Indexed(s, s.owner[id], id) <==> Covered(s, id))
  }

  ghost predicate IndexInv(s: System, id: string) {
    Owned(s) && BornOk(s) && Agrees(s, id) && (id in s.owner ==> ExpiryOk(s, s.owner[id]))
  }

  /** The state after a login, as far as indexes go. */
  lemma LoginAgrees(s: System, t: System, userId: string, sessionId: string, id: string)
    requires BornOk(s) && Agrees(s, id) && (id in s.owner ==> ExpiryOk(s, s.owner[id])) && ExpiryOk(s, userId)
    requires Unused(s, sessionId) && t.now == s.now && (Live(t, id) ==> id == sessionId || Live(s, id))
    requires s.owner.Keys == s.born.Keys
    requires t.owner == s.owner[sessionId := userId] && t.born == s.born[sessionId := |s.renewals|]
    requires t.renewals == s.renewals + [Renewal(userId, s.now)]
    requires t.st.index ==
      s.st.index[userId := Entry(SMembers(s.st.index, userId, s.now) + {sessionId}, Ttl(s.now, SESSION_TTL_SECONDS))]
    requires sessionId !in SMembers(s.st.index, userId, s.now)
    ensures Agrees(t, id)
  {
    hide LastRenewal;
    AppendRenewal(s.renewals, Renewal(userId, s.now), userId, |s.renewals|);
    if id in s.owner {
      AppendRenewal(s.renewals, Renewal(userId, s.now), s.owner[id], s.born[id]);
    }
  }

  lemma LoginKeepsIndex(s: System, userId: string, sessionId: string, fingerprint: string, stamp: nat, id: string)
    requires IndexInv(s, id) && Unused(s, sessionId)
    requires ExpiryOk(s, userId)
    ensures Agrees(LoginNext(s, userId, sessionId, fingerprint, stamp), id)
  {
    hide Agrees, ExpiryOk, BornOk, SessionsOwned;
    LoginAgrees(s, LoginNext(s, userId, sessionId, fingerprint, stamp), userId, sessionId, id);
  }

  lemma LoginKeepsBorn(s: System, userId: string, sessionId: string, fingerprint: string, stamp: nat)
    requires BornOk(s) && Unused(s, sessionId)
    ensures BornOk(LoginNext(s, userId, sessionId, fingerprint, stamp))
  {
    hide LoginStep;
  }

  /** The state after a passed session check, as far as indexes go. */
  lemma CheckAgrees(s: System, t: System, userId: string, id: string)
    requires BornOk(s) && Agrees(s, id) && (id in s.owner ==> ExpiryOk(s, s.owner[id]))
    requires t.owner == s.owner && t.born == s.born && t.now == s.now && (Live(t, id) ==> Live(s, id))
    requires s.owner.Keys == s.born.Keys
    requires t.renewals == s.renewals + [Renewal(userId, s.now)]
    requires t.st.index == Expire(s.st.index, userId, SESSION_TTL_SECONDS, s.now)
    ensures Agrees(t, id) && BornOk(t)
  {
    hide LastRenewal, Unbroken;
    if id in s.owner {
      AppendRenewal(s.renewals, Renewal(userId, s.now), s.owner[id], s.born[id]);
    }
  }

  lemma CheckKeepsIndex(s: System, token: Token, id: string)
    requires IndexInv(s, id) && token in s.issued
    ensures BornOk(CheckNext(s, token)) && Agrees(CheckNext(s, token), id)
  {
    hide Agrees, ExpiryOk, BornOk, SessionsOwned, IndexOwned;
    if Live(s, token.sessionId) {
      CheckAgrees(s, CheckNext(s, token), token.sub, id);
    }
  }

  lemma SameCover(s: System, t: System, id: string)
    requires t.owner == s.owner && t.born == s.born && t.renewals == s.renewals && t.now == s.now
    ensures Covered(t, id) <==> Covered(s, id)
  {
  }

  lemma LogoutKeepsIndex(s: System, sessionId: string, userId: string, id: string)
    requires IndexInv(s, id)
    ensures var t := s.(st := LogoutStep(s.st, sessionId, userId, s.now));
      Agrees(t, id) && (id in s.owner ==> ExpiryOk(t, s.owner[id]))
  {
    hide Owned, BornOk, Covered, LastRenewal, Unbroken;
    var t := s.(st := LogoutStep(s.st, sessionId, userId, s.now));
    SameCover(s, t, id);
  }

  lemma LogoutAllKeepsIndex(s: System, userId: string, id: string)
    requires IndexInv(s, id)
    ensures var t := s.(st := LogoutAllStep(s.st, userId, s.now));
      Agrees(t, id) && (id in s.owner ==> ExpiryOk(t, s.owner[id]))
  {
  }

  /** A step that leaves indexes, logins and renewals alone, and revives no session. */
  lemma SameIndexAgrees(s: System, t: System, id: string)
    requires BornOk(s) && Agrees(s, id)
    requires t.st.index == s.st.index && t.owner == s.owner && t.born == s.born
    requires t.renewals == s.renewals && t.now == s.now
    requires Live(t, id) ==> Live(s, id)
    ensures BornOk(t) && Agrees(t, id)
    ensures id in s.owner && ExpiryOk(s, s.owner[id]) ==> ExpiryOk(t, s.owner[id])
  {
  }

  lemma RefusalKeepsIndex(s: System, st: Store, token: Token, id: string)
    requires IndexInv(s, id)
    requires st in {s.st, LogoutStep(s.st, token.sessionId, token.sub, s.now), LogoutAllStep(s.st, token.sub, s.now)}
    ensures var t := s.(st := st); BornOk(t) && Agrees(t, id) && (id in s.owner ==> ExpiryOk(t, s.owner[id]))
  {
    hide Owned, Agrees, ExpiryOk, LogoutStep, LogoutAllStep;
    LogoutKeepsIndex(s, token.sessionId, token.sub, id);
    LogoutAllKeepsIndex(s, token.sub, id);
    assert s.(st := s.st) == s;
  }

  lemma RefreshKeepsIndex(s: System, token: Token, fingerprint: string, userExists: bool, stamp: nat, id: string)
    requires IndexInv(s, id)
    ensures var t := RefreshNext(s, token, fingerprint, userExists, stamp);
      BornOk(t) && Agrees(t, id) && (id in s.owner ==> ExpiryOk(t, s.owner[id]))
  {
    hide Agrees, ExpiryOk, BornOk, RefreshStep, LogoutStep, LogoutAllStep, Owned;
    RefreshOutcome(s, token, fingerprint, userExists, stamp);
    if Accepts(s, token, fingerprint, userExists) {
      SameIndexAgrees(s, Rotated(s, token, stamp), id);
    } else {
      RefusalKeepsIndex(s, RefreshStep(s.st, Some(token), fingerprint, userExists, stamp, s.now).0, token, id);
    }
  }

  lemma LoginKeepsExpiry(s: System, u: string, sessionId: string, fingerprint: string, stamp: nat, userId: string)
    requires ExpiryOk(s, userId)
    ensures ExpiryOk(LoginNext(s, u, sessionId, fingerprint, stamp), userId)
  {
    AppendRenewal(s.renewals, Renewal(u, s.now), userId, |s.renewals|);
  }

  lemma CheckKeepsExpiry(s: System, token: Token, userId: string)
    requires ExpiryOk(s, userId)
    ensures ExpiryOk(CheckNext(s, token), userId)
  {
    AppendRenewal(s.renewals, Renewal(token.sub, s.now), userId, |s.renewals|);
  }

  lemma RefreshKeepsExpiry(s: System, e: Event, userId: string)
    requires ExpiryOk(s, userId) && Enabled(s, e) && e.Refreshing?
    ensures ExpiryOk(Step(s, e), userId)
  {
    var t := Step(s, e);
    assert t.st.index in
      {s.st.index, SRem(s.st.index, e.token.sub, e.token.sessionId, s.now), s.st.index - {e.token.sub}};
  }

  lemma ExpiryStep(s: System, e: Event, userId: string)
    requires ExpiryOk(s, userId) && Enabled(s, e)
    ensures ExpiryOk(Step(s, e), userId)
  {
    match e
    case Login(u, sessionId, fingerprint, stamp) => LoginKeepsExpiry(s, u, sessionId, fingerprint, stamp, userId);
    case Check(token) => CheckKeepsExpiry(s, token, userId);
    case Refreshing(_, _, _, _) => RefreshKeepsExpiry(s, e, userId);
    case Tick(_) =>
    case Register(_, _, _) =>
    case Revoke(_, _) =>
    case Logout(_) =>
    case LogoutAll(_) =>
  }

  lemma {:induction false} ExpiryInRun(events: seq<Event>, userId: string)
    requires CanRun(events)
    ensures ExpiryOk(Run(events), userId)
    decreases |events|
  {
    if events != [] {
      ExpiryInRun(events[..|events| - 1], userId);
      ExpiryStep(Run(events[..|events| - 1]), events[|events| - 1], userId);
    }
  }

  lemma TickKeepsIndex(s: System, ms: nat, id: string)
    requires IndexInv(s, id)
    ensures BornOk(s.(now := s.now + ms)) && Agrees(s.(now := s.now + ms), id)
  {
  }

  lemma StepKeepsIndex(s: System, e: Event, id: string)
    requires IndexInv(s, id) && Enabled(s, e) && (e.Login? ==> ExpiryOk(s, e.userId))
    ensures BornOk(Step(s, e)) && Agrees(Step(s, e), id)
  {
    hide Owned, ExpiryOk, LoginNext, RefreshNext, CheckNext, LogoutStep, LogoutAllStep;
    match e
    case Tick(ms) => TickKeepsIndex(s, ms, id);
    case Register(_, _, _) =>
    case Login(userId, sessionId, fingerprint, stamp) =>
      LoginKeepsBorn(s, userId, sessionId, fingerprint, stamp);
      LoginKeepsIndex(s, userId, sessionId, fingerprint, stamp, id);
    case Refreshing(token, fingerprint, userExists, stamp) =>
      RefreshKeepsIndex(s, token, fingerprint, userExists, stamp, id);
    case Check(token) => CheckKeepsIndex(s, token, id);
    case Revoke(sessionId, userId) => LogoutKeepsIndex(s, sessionId, userId, id);
    case Logout(token) => LogoutKeepsIndex(s, token.sessionId, token.sub, id);
    case LogoutAll(userId) => LogoutAllKeepsIndex(s, userId, id);
  }

  /**
   * A live session is in its owner's live index exactly if, since its login, the owner has never gone longer
   * than a time to live between logins and passed session checks. (A refresh renews only the session record.)
   */
  lemma {:induction false} IndexedIffCovered(events: seq<Event>, id: string)
    requires CanRun(events)
    ensures Owned(Run(events)) && BornOk(Run(events)) && Agrees(Run(events), id)
    decreases |events|
  {
    RunKeepsOwned(events);
    if events != [] {
      var init, e := events[..|events| - 1], events[|events| - 1];
      var s := Run(init);
      IndexedIffCovered(init, id);
      if id in s.owner {
        ExpiryInRun(init, s.owner[id]);
      }
      if e.Login? {
        ExpiryInRun(init, e.userId);
      }
      StepKeepsIndex(s, e, id);
    }
  }

  /** The user's live sessions. */
  function LiveSessions(s: System, userId: string): set<string> {
    set id | id in s.st.sessions && Live(s, id) && s.st.sessions[id].value.userId == userId
  }

  /** getSessions returns exactly the user's live, covered sessions; nobody else's. */
  lemma SessionsListed(events: seq<Event>, userId: string)
    requires CanRun(events)
    ensures var s := Run(events);
      Listed(s.st, userId, s.now) ==
      set id | id in LiveSessions(s, userId) && Covered(s, id) ::
        var v := s.st.sessions[id].value;
        SafeSession(id, v.userId, v.fingerprint, v.createdAt, v.lastUsedAt, v.expiresAt)
  {
    var s := Run(events);
    RunKeepsOwned(events);
    forall id
      ensures id in SMembers(s.st.index, userId, s.now) && Live(s, id) <==>
        id in LiveSessions(s, userId) && Covered(s, id)
    {
      IndexedIffCovered(events, id);
    }
  }

  /**
   * After logoutAll the user's live sessions are exactly those that had dropped out of the index; others keep theirs.
   */
  lemma LogoutAllLeavesOnlyUncovered(events: seq<Event>, userId: string, other: string)
    requires CanRun(events) && other != userId
    ensures var s := Run(events);
      var t := s.(st := LogoutAllStep(s.st, userId, s.now));
      && LiveSessions(t, userId) == (set id | id in LiveSessions(s, userId) && !Covered(s, id))
      && LiveSessions(t, other) == LiveSessions(s, other)
      && Listed(t.st, other, t.now) == Listed(s.st, other, s.now)
  {
    hide Run, CanRun, Covered;
    var s := Run(events);
    RunKeepsOwned(events);
    forall id
      ensures Live(s, id) ==>
        (id in SMembers(s.st.index, userId, s.now) <==> id in LiveSessions(s, userId) && Covered(s, id))
    {
      IndexedIffCovered(events, id);
    }
    var t := s.(st := LogoutAllStep(s.st, userId, s.now));
    LogoutAllKeepsOwned(s, userId);
    LogoutAllLeavesAlone(s, userId, other);
    LeftAloneLooksSame(s, t, other);
  }

  /** The user has never gone longer than a time to live without a login or a passed session check. */
  predicate NeverLapsed(s: System, userId: string) {
    && (LastRenewal(s.renewals, userId).Some? ==> Recent(s, userId))
    && forall from: nat | from < |s.renewals| && s.renewals[from].userId == userId :: Unbroken(s.renewals, userId, from)
  }

  lemma {:induction false} HasLastRenewal(log: seq<Renewal>, userId: string, i: nat)
    requires i < |log| && log[i].userId == userId
    ensures LastRenewal(log, userId).Some?
    decreases |log|
  {
    if i < |log| - 1 {
      HasLastRenewal(log[..|log| - 1], userId, i);
    }
  }

  /** For such a user the index is exact: getSessions returns exactly the live sessions and logoutAll leaves none. */
  lemma IndexIsExactUnlessLapsed(events: seq<Event>, userId: string)
    requires CanRun(events) && NeverLapsed(Run(events), userId)
    ensures var s := Run(events);
      && Listed(s.st, userId, s.now) == (set id | id in LiveSessions(s, userId) :: Safe(id, s.st.sessions[id].value))
      && LiveSessions(s.(st := LogoutAllStep(s.st, userId, s.now)), userId) == {}
  {
    var s := Run(events);
    RunKeepsOwned(events);
    forall id | id in LiveSessions(s, userId)
      ensures Covered(s, id)
    {
      IndexedIffCovered(events, id);
      HasLastRenewal(s.renewals, userId, s.born[id]);
    }
    SessionsListed(events, userId);
    LogoutAllLeavesOnlyUncovered(events, userId, userId + "'");
  }

  /** The user a call acts for. */
  function Actor(e: Event): string {
    match e
    case Login(userId, _, _, _) => userId
    case Register(userId, _, _) => userId
    case Refreshing(token, _, _, _) => token.sub
    case Check(token) => token.sub
    case Revoke(_, userId) => userId
    case Logout(token) => token.sub
    case LogoutAll(userId) => userId
    case Tick(_) => ""
  }

  /** No call made for one user starts, ends or changes another user's sessions. */
  lemma UsersAreIsolated(events: seq<Event>, e: Event, other: string)
    requires CanRun(events) && Enabled(Run(events), e) && !e.Tick? && Actor(e) != other
    ensures var s, t := Run(events), Step(Run(events), e);
      && LiveSessions(t, other) == LiveSessions(s, other)
      && (forall id | id in LiveSessions(s, other) :: t.st.sessions[id] == s.st.sessions[id])
      && Listed(t.st, other, t.now) == Listed(s.st, other, s.now)
  {
    var s := Run(events);
    RunKeepsOwned(events);
    StepKeepsOwned(s, e);
    StepLeavesAlone(s, e, other);
    StepKeepsOwners(s, e, other);
    LeftAloneLooksSame(s, Step(s, e), other);
  }

  lemma LeftAloneLooksSame(s: System, t: System, other: string)
    requires Owned(s) && Owned(t) && t.now == s.now && LeftAlone(s, t.st, other)
    requires forall id | id in t.owner && t.owner[id] == other :: id in s.owner && s.owner[id] == other
    ensures LiveSessions(t, other) == LiveSessions(s, other)
    ensures forall id | id in LiveSessions(s, other) :: t.st.sessions[id] == s.st.sessions[id]
    ensures Listed(t.st, other, t.now) == Listed(s.st, other, s.now)
  {
    LeftAloneListsSame(s, t.st, other);
  }

  lemma LeftAloneListsSame(s: System, st: Store, other: string)
    requires Owned(s) && LeftAlone(s, st, other)
    ensures Listed(st, other, s.now) == Listed(s.st, other, s.now)
  {
    hide TokensOwned, SessionsOwned;
    assert SMembers(st.index, other, s.now) == SMembers(s.st.index, other, s.now);
    assert forall id | id in SMembers(s.st.index, other, s.now) :: id in s.owner && s.owner[id] == other;
  }

  /** A store that is the same as far as `other`'s index and sessions go. */
  ghost predicate LeftAlone(s: System, st: Store, other: string) {
    && (other in st.index <==> other in s.st.index) && (other in st.index ==> st.index[other] == s.st.index[other])
    && (forall id | id in s.owner && s.owner[id] == other ::
          (id in st.sessions <==> id in s.st.sessions) && (id in st.sessions ==> st.sessions[id] == s.st.sessions[id]))
  }

  lemma LogoutLeavesAlone(s: System, sessionId: string, userId: string, other: string)
    requires Owned(s) && userId != other && (sessionId in s.owner ==> s.owner[sessionId] == userId)
    ensures LeftAlone(s, LogoutStep(s.st, sessionId, userId, s.now), other)
  {
  }

  lemma LogoutAllLeavesAlone(s: System, userId: string, other: string)
    requires Owned(s) && userId != other
    ensures LeftAlone(s, LogoutAllStep(s.st, userId, s.now), other)
  {
  }

  lemma LoginLeavesAlone(s: System, userId: string, sessionId: string, fingerprint: string, stamp: nat, other: string)
    requires Unused(s, sessionId) && userId != other
    ensures LeftAlone(s, LoginNext(s, userId, sessionId, fingerprint, stamp).st, other)
  {
  }

  lemma CheckLeavesAlone(s: System, token: Token, other: string)
    requires Owned(s) && token in s.issued && token.sub != other
    ensures LeftAlone(s, CheckNext(s, token).st, other)
  {
  }

  lemma RefreshLeavesAlone(s: System, token: Token, fingerprint: string, userExists: bool, stamp: nat, other: string)
    requires Owned(s) && token in s.issued && token.sub != other
    ensures LeftAlone(s, RefreshNext(s, token, fingerprint, userExists, stamp).st, other)
  {
    RefreshOutcome(s, token, fingerprint, userExists, stamp);
    LogoutLeavesAlone(s, token.sessionId, token.sub, other);
    LogoutAllLeavesAlone(s, token.sub, other);
  }

  lemma StepLeavesAlone(s: System, e: Event, other: string)
    requires Owned(s) && Enabled(s, e) && !e.Tick? && Actor(e) != other
    ensures LeftAlone(s, Step(s, e).st, other)
  {
    match e
    case Login(userId, sessionId, fingerprint, stamp) =>
      LoginLeavesAlone(s, userId, sessionId, fingerprint, stamp, other);
    case Register(_, _, _) =>
    case Check(token) => CheckLeavesAlone(s, token, other);
    case Refreshing(token, fingerprint, userExists, stamp) =>
      RefreshLeavesAlone(s, token, fingerprint, userExists, stamp, other);
    case Revoke(sessionId, userId) =>
      if Live(s, sessionId) && s.st.sessions[sessionId].value.userId == userId {
        LogoutLeavesAlone(s, sessionId, userId, other);
      }
    case Logout(token) => LogoutLeavesAlone(s, token.sessionId, token.sub, other);
    case LogoutAll(userId) => LogoutAllLeavesAlone(s, userId, other);
  }

  /** A call adds no session to anyone but its own user, and takes no time. */
  lemma StepKeepsOwners(s: System, e: Event, other: string)
    requires Owned(s) && Enabled(s, e) && !e.Tick? && Actor(e) != other
    ensures Step(s, e).now == s.now
    ensures forall id | id in Step(s, e).owner && Step(s, e).owner[id] == other :: id in s.owner && s.owner[id] == other
  {
    hide Owned, LoginStep, RefreshStep, TouchStep, RevokeStep, LogoutStep, LogoutAllStep;
  }

  // ---------------------------------------------------------------- expiry

  /**
   * A session record is alive for exactly one time to live after its last use (login, check or refresh). The
   * expiry date it lists is never moved, so it is right only while the last use is at the time of the login.
   */
  lemma ListedExpiryIsRightIffUnused(events: seq<Event>, id: string)
    requires CanRun(events) && id in Run(events).st.sessions
    ensures var s := Run(events);
      var session := s.st.sessions[id].value;
      && (Live(s, id) <==> s.now <= session.lastUsedAt + SESSION_TTL_MS)
      && (At(session.expiresAt) == s.st.sessions[id].expiry <==> session.lastUsedAt == session.createdAt)
  {
    hide Run, CanRun;
    RunKeepsDates(events);
  }
}
