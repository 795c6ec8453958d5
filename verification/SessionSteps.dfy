/** What each call does in every state that a run can reach: the answer, the records and the index after it. */
module SessionSteps {
  import opened Common
  import opened Redis
  import opened Sessions
  import opened SessionRuns
  import opened SessionTheorems

  /** Thirty days. */
  const THIRTY_DAYS_MS: int := 2592000000

  /** A login starts a live session with these fields, lists it, and issues its first pair of tokens. */
  lemma LoginStarts(events: seq<Event>, userId: string, id: string, fingerprint: string, stamp: nat)
    requires CanRun(events) && Unused(Run(events), id)
    ensures var s, t := Run(events), Step(Run(events), Login(userId, id, fingerprint, stamp));
      var refresh := Token(userId, id, Refresh, s.now / 1000, stamp);
      var end := s.now + THIRTY_DAYS_MS;
      && !Live(s, id) && Live(t, id)
      && t.st.sessions ==
           s.st.sessions[id := Entry(Session(userId, fingerprint, Sha256(refresh), s.now, s.now, end), At(end))]
      && SMembers(t.st.index, userId, t.now) == SMembers(s.st.index, userId, s.now) + {id}
      && Listed(t.st, userId, t.now) ==
           Listed(s.st, userId, s.now) + {SafeSession(id, userId, fingerprint, s.now, s.now, end)}
      && t.issued == s.issued + {refresh, Token(userId, id, Access, s.now / 1000, stamp)}
  {
    hide Run, CanRun;
    var s := Run(events);
    RunKeepsOwned(events);
    LoginIsNew(s, id);
    LoginLists(s, userId, id, fingerprint, stamp);
    hide Listed, Owned;
  }

  lemma LoginIsNew(s: System, id: string)
    requires Owned(s) && Unused(s, id)
    ensures id !in s.st.sessions && forall u :: id !in SMembers(s.st.index, u, s.now)
  {
  }

  lemma LoginLists(s: System, userId: string, id: string, fingerprint: string, stamp: nat)
    requires id !in s.st.sessions && id !in SMembers(s.st.index, userId, s.now)
    ensures var st := LoginStep(s.st, userId, id, fingerprint, stamp, s.now);
      Listed(st, userId, s.now) ==
        Listed(s.st, userId, s.now) + {SafeSession(id, userId, fingerprint, s.now, s.now, s.now + THIRTY_DAYS_MS)}
  {
    var st := LoginStep(s.st, userId, id, fingerprint, stamp, s.now);
    assert SMembers(st.index, userId, s.now) == SMembers(s.st.index, userId, s.now) + {id};
    assert Has(st.sessions, id, s.now);
    forall other | other != id
      ensures Has(st.sessions, other, s.now) == Has(s.st.sessions, other, s.now)
      ensures other in st.sessions ==> st.sessions[other] == s.st.sessions[other]
    {
    }
    hide LoginStep, SMembers;
  }

  /**
   * A session check passes exactly for a live session. It moves the record's last use and expiry and the expiry of the
   * owner's live index, and nothing else; a refused check changes nothing.
   */
  lemma CheckPassesIffLive(events: seq<Event>, token: Token)
    requires CanRun(events) && Enabled(Run(events), Check(token))
    ensures var s := Run(events);
      CheckAnswer(s, token, Step(s, Check(token)), TouchStep(s.st, token.sessionId, token.sub, s.now).1)
  {
    hide Run, CanRun;
    RunKeepsOwned(events);
    CheckAnswersAt(Run(events), token);
  }

  /** The answer to a session check with an access token that was issued. */
  ghost predicate CheckAnswer(s: System, token: Token, t: System, r: Result<(), AuthError>) {
    var id := token.sessionId;
    if !Live(s, id) then r == Err(SessionExpiredOrRevoked) && t == s
    else
      && r == Ok(()) && id in s.owner && s.owner[id] == token.sub
      && t.renewals == s.renewals + [Renewal(token.sub, s.now)]
      && t.st.sessions == s.st.sessions[id := Renewed(s, id, s.st.sessions[id].value.refreshTokenHash)]
      && t.st.index ==
           if Has(s.st.index, token.sub, s.now)
           then s.st.index[token.sub := Entry(s.st.index[token.sub].value, At(s.now + THIRTY_DAYS_MS))]
           else s.st.index
  }

  lemma CheckAnswersAt(s: System, token: Token)
    requires Owned(s) && token in s.issued
    ensures CheckAnswer(s, token, CheckNext(s, token), TouchStep(s.st, token.sessionId, token.sub, s.now).1)
  {
    if Live(s, token.sessionId) {
      assert token.sessionId in s.owner && s.owner[token.sessionId] == token.sub;
    }
    hide Owned;
  }

  /** The session's record, used now and holding the hash of this token, for another thirty days. */
  function Renewed(s: System, id: string, hash: Digest): Entry<Session>
    requires id in s.st.sessions
  {
    var was := s.st.sessions[id].value;
    Entry(Session(was.userId, was.fingerprint, hash, was.createdAt, s.now, was.expiresAt), At(s.now + THIRTY_DAYS_MS))
  }

  /** The session is over and off its owner's list, and everything else of the owner is as it was. */
  ghost predicate Ended(s: System, t: System, id: string, userId: string) {
    && !Live(t, id) && t.now == s.now
    && LiveSessions(t, userId) == LiveSessions(s, userId) - {id}
    && (forall other | other in LiveSessions(t, userId) :: t.st.sessions[other] == s.st.sessions[other])
    && SMembers(t.st.index, userId, t.now) == SMembers(s.st.index, userId, s.now) - {id}
    && Listed(t.st, userId, t.now) == (set x | x in Listed(s.st, userId, s.now) && x.sessionId != id)
  }

  /** Once a session has ended, its tokens pass neither a refresh nor a check. */
  lemma EndedIsRefused(t: System, token: Token, fingerprint: string, userExists: bool, stamp: nat)
    requires !Live(t, token.sessionId)
    ensures RefreshStep(t.st, Some(token), fingerprint, userExists, stamp, t.now) ==
      (t.st, Err(if token.kind == Refresh then SessionExpiredOrRevoked else InvalidTokenType))
    ensures TouchStep(t.st, token.sessionId, token.sub, t.now) == (t.st, Err(SessionExpiredOrRevoked))
  {
  }

  lemma LogoutStepEnds(s: System, t: System, id: string, userId: string)
    requires Owned(s) && t.st == LogoutStep(s.st, id, userId, s.now) && t.now == s.now
    ensures Ended(s, t, id, userId)
  {
    hide Owned;
    assert t.st.sessions == s.st.sessions - {id};
    assert SMembers(t.st.index, userId, t.now) == SMembers(s.st.index, userId, s.now) - {id};
    hide LogoutStep, SMembers;
  }

  /** A revoke ends a live session for its owner, refuses it for anyone else, and ignores one that is gone. */
  lemma RevokeEndsForOwner(events: seq<Event>, id: string, userId: string)
    requires CanRun(events)
    ensures var s, t := Run(events), Step(Run(events), Revoke(id, userId));
      var r := RevokeStep(s.st, id, userId, s.now).1;
      && (Live(s, id) ==> id in s.owner)
      && (Live(s, id) && s.owner[id] == userId ==> r == Ok(()) && Ended(s, t, id, userId))
      && (Live(s, id) && s.owner[id] != userId ==> r == Err(SessionOwnershipInvalid) && t == s)
      && (!Live(s, id) ==> r == Ok(()) && t == s)
  {
    hide Ended;
    var s := Run(events);
    RunKeepsOwned(events);
    if Live(s, id) && s.owner[id] == userId {
      LogoutStepEnds(s, Step(s, Revoke(id, userId)), id, userId);
    }
  }

  /** A logout ends the session its token names. */
  lemma LogoutEnds(events: seq<Event>, token: Token)
    requires CanRun(events) && Enabled(Run(events), Logout(token))
    ensures Ended(Run(events), Step(Run(events), Logout(token)), token.sessionId, token.sub)
  {
    hide Ended;
    RunKeepsOwned(events);
    LogoutStepEnds(Run(events), Step(Run(events), Logout(token)), token.sessionId, token.sub);
  }

  /** What `logoutAll` and a detected reuse leave of the user's list and of the sessions on it. */
  ghost predicate AllEnded(s: System, t: System, userId: string) {
    && t.now == s.now && t.st.index == s.st.index - {userId}
    && t.st.sessions == s.st.sessions - SMembers(s.st.index, userId, s.now)
  }

  lemma LogoutAllEnds(events: seq<Event>, userId: string)
    requires CanRun(events)
    ensures AllEnded(Run(events), Step(Run(events), LogoutAll(userId)), userId)
  {
  }

  /** The answer to a refresh of a token that was issued, case by case. */
  ghost predicate RefreshAnswer(s: System, token: Token, fingerprint: string, userExists: bool, stamp: nat,
                                t: System, r: Result<TokenPair, AuthError>) {
    var id := token.sessionId;
    if token.kind == Access then r == Err(InvalidTokenType) && t == s
    else if !Live(s, id) then r == Err(SessionExpiredOrRevoked) && t == s
    else
      && id in s.device && id in s.current
      && (if s.device[id] != fingerprint then r == Err(DeviceFingerprintMismatch) && Ended(s, t, id, token.sub)
          else if s.current[id] != token then r == Err(RefreshTokenInvalid) && AllEnded(s, t, token.sub)
          else if !userExists then r == Err(UserNotFound) && t == s
          else
            var pair := TokenPair(Token(token.sub, id, Access, s.now / 1000, stamp),
                                  Token(token.sub, id, Refresh, s.now / 1000, stamp));
            && r == Ok(pair)
            && t.st == Store(s.st.sessions[id := Renewed(s, id, Sha256(pair.refresh))], s.st.index)
            && t.issued == s.issued + {pair.access, pair.refresh} && t.current == s.current[id := pair.refresh])
  }

  /**
   * Every refresh is answered by the first of these that applies: not a refresh token, session gone, another device
   * (which ends the session), not the current token (which ends all listed sessions), no such user; otherwise it
   * rotates the token and renews the record.
   */
  lemma RefreshAnswers(events: seq<Event>, token: Token, fingerprint: string, userExists: bool, stamp: nat)
    requires CanRun(events) && token in Run(events).issued
    ensures var s := Run(events);
      RefreshAnswer(s, token, fingerprint, userExists, stamp,
        Step(s, Refreshing(token, fingerprint, userExists, stamp)),
        RefreshStep(s.st, Some(token), fingerprint, userExists, stamp, s.now).1)
  {
    var s := Run(events);
    RunKeepsOwned(events);
    RunKeepsDates(events);
    RefreshAnswersAt(s, token, fingerprint, userExists, stamp);
  }

  lemma RefreshAnswersAt(s: System, token: Token, fingerprint: string, userExists: bool, stamp: nat)
    requires Owned(s) && SessionsDated(s) && token in s.issued
    ensures RefreshAnswer(s, token, fingerprint, userExists, stamp,
      RefreshNext(s, token, fingerprint, userExists, stamp),
      RefreshStep(s.st, Some(token), fingerprint, userExists, stamp, s.now).1)
  {
    var id, t := token.sessionId, RefreshNext(s, token, fingerprint, userExists, stamp);
    if token.kind == Refresh && Live(s, id) && s.st.sessions[id].value.fingerprint != fingerprint {
      LogoutStepEnds(s, t, id, token.sub);
    }
    hide Ended;
  }
}
