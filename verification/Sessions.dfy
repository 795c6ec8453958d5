/** Sessions in Redis: one record per session, one index of session ids per user, each with its own time to live. */
module Sessions {
  import opened Common
  import opened Redis

  const SESSION_TTL_SECONDS: int := 30 * 24 * 60 * 60
  const SESSION_TTL_MS: int := 1000 * SESSION_TTL_SECONDS

  datatype Kind = Access | Refresh

  /**
   * A signed token: its claims, with the second it was issued in, and the signer's stamp. Signing is deterministic in
   * these five. The service adds nothing to the claims, so its own stamp is always the same.
   */
  datatype Token = Token(sub: string, sessionId: string, kind: Kind, iat: int, stamp: nat)

  /** SHA-256, taken to be injective. */
  datatype Digest = Sha256(of: Token)

  datatype Session = Session(
    userId: string,
    fingerprint: string,
    refreshTokenHash: Digest,
    createdAt: int,
    lastUsedAt: int,
    expiresAt: int)

  /** What a client may see of a session: everything but the token hash. */
  datatype SafeSession = SafeSession(
    sessionId: string,
    userId: string,
    fingerprint: string,
    createdAt: int,
    lastUsedAt: int,
    expiresAt: int)

  datatype TokenPair = TokenPair(access: Token, refresh: Token)

  datatype AuthError =
    | InvalidCredentials
    | InvalidRefreshToken
    | InvalidTokenType
    | SessionExpiredOrRevoked
    | DeviceFingerprintMismatch
    | RefreshTokenInvalid
    | UserNotFound
    | SessionOwnershipInvalid
    | SessionContextMissing

  datatype Store = Store(sessions: map<string, Entry<Session>>, index: map<string, Entry<set<string>>>)

  function Sign(userId: string, sessionId: string, stamp: nat, now: int): TokenPair {
    TokenPair(
      Token(userId, sessionId, Access, now / 1000, stamp), Token(userId, sessionId, Refresh, now / 1000, stamp))
  }

  function Safe(sessionId: string, s: Session): SafeSession {
    SafeSession(sessionId, s.userId, s.fingerprint, s.createdAt, s.lastUsedAt, s.expiresAt)
  }

  function PutSession(st: Store, sessionId: string, s: Session, now: int): Store {
    st.(sessions := st.sessions[sessionId := Entry(s, Ttl(now, SESSION_TTL_SECONDS))])
  }

  function LoginStep(st: Store, userId: string, sessionId: string, fingerprint: string, stamp: nat, now: int): Store {
    var hash := Sha256(Sign(userId, sessionId, stamp, now).refresh);
    var session := Session(userId, fingerprint, hash, now, now, now + SESSION_TTL_MS);
    PutSession(st, sessionId, session, now).(
      index := st.index[userId := Entry(SMembers(st.index, userId, now) + {sessionId}, Ttl(now, SESSION_TTL_SECONDS))])
  }

  function LogoutStep(st: Store, sessionId: string, userId: string, now: int): Store {
    Store(st.sessions - {sessionId}, SRem(st.index, userId, sessionId, now))
  }

  function LogoutAllStep(st: Store, userId: string, now: int): Store {
    Store(st.sessions - SMembers(st.index, userId, now), st.index - {userId})
  }

  /** `token` is what signature and expiry checks let through; `userExists` is the repository's answer. */
  function RefreshStep(st: Store, token: Option<Token>, fingerprint: string, userExists: bool, stamp: nat, now: int)
    : (Store, Result<TokenPair, AuthError>)
  {
    if token.None? then (st, Err(InvalidRefreshToken))
    else
      var t := token.value;
      if t.kind != Refresh then (st, Err(InvalidTokenType))
      else if !Has(st.sessions, t.sessionId, now) then (st, Err(SessionExpiredOrRevoked))
      else
        var session := st.sessions[t.sessionId].value;
        if session.fingerprint != fingerprint then
          (LogoutStep(st, t.sessionId, t.sub, now), Err(DeviceFingerprintMismatch))
        else if session.refreshTokenHash != Sha256(t) then (LogoutAllStep(st, t.sub, now), Err(RefreshTokenInvalid))
        else if !userExists then (st, Err(UserNotFound))
        else
          var pair := Sign(t.sub, t.sessionId, stamp, now);
          var renewed := session.(refreshTokenHash := Sha256(pair.refresh), lastUsedAt := now);
          (PutSession(st, t.sessionId, renewed, now), Ok(pair))
  }

  /** The session check in front of every protected route. */
  function TouchStep(st: Store, sessionId: string, userId: string, now: int): (Store, Result<(), AuthError>) {
    if !Has(st.sessions, sessionId, now) then (st, Err(SessionExpiredOrRevoked))
    else
      var session := st.sessions[sessionId].value.(lastUsedAt := now);
      (PutSession(st, sessionId, session, now).(index := Expire(st.index, userId, SESSION_TTL_SECONDS, now)), Ok(()))
  }

  function RevokeStep(st: Store, sessionId: string, userId: string, now: int): (Store, Result<(), AuthError>) {
    if !Has(st.sessions, sessionId, now) then (st, Ok(()))
    else if st.sessions[sessionId].value.userId != userId then (st, Err(SessionOwnershipInvalid))
    else (LogoutStep(st, sessionId, userId, now), Ok(()))
  }

  /** What getSessions lists: the indexed sessions that are still alive. */
  function Listed(st: Store, userId: string, now: int): set<SafeSession> {
    set id | id in SMembers(st.index, userId, now) && Has(st.sessions, id, now) :: Safe(id, st.sessions[id].value)
  }

  class AuthService {
    var sessions: map<string, Entry<Session>>
    var index: map<string, Entry<set<string>>>

    ghost function Snapshot(): Store
      reads this
    {
      Store(sessions, index)
    }

    constructor ()
      ensures Snapshot() == Store(map[], map[])
    {
      sessions, index := map[], map[];
    }

    /** `userId` is the user whose email and password matched, if any; `sessionId` is the new UUID. */
    method Login(userId: Option<string>, sessionId: string, fingerprint: string, stamp: nat, now: int)
      returns (r: Result<TokenPair, AuthError>)
      modifies this
      ensures userId.None? ==> r == Err(InvalidCredentials) && Snapshot() == old(Snapshot())
      ensures userId.Some? ==>
        && r == Ok(Sign(userId.value, sessionId, stamp, now))
        && Snapshot() == LoginStep(old(Snapshot()), userId.value, sessionId, fingerprint, stamp, now)
    {
      if userId.None? {
        return Err(InvalidCredentials);
      }
      var pair := Sign(userId.value, sessionId, stamp, now);
      var session := Session(userId.value, fingerprint, Sha256(pair.refresh), now, now, now + SESSION_TTL_MS);
      sessions := sessions[sessionId := Entry(session, Ttl(now, SESSION_TTL_SECONDS))];
      index := SAdd(index, userId.value, sessionId, now);
      index := Expire(index, userId.value, SESSION_TTL_SECONDS, now);
      assert {} + {sessionId} == {sessionId};
      assert index == old(index)[userId.value :=
          Entry(SMembers(old(index), userId.value, now) + {sessionId}, Ttl(now, SESSION_TTL_SECONDS))];
      r := Ok(pair);
    }

    method RefreshTokens(token: Option<Token>, fingerprint: string, userExists: bool, stamp: nat, now: int)
      returns (r: Result<TokenPair, AuthError>)
      modifies this
      ensures (Snapshot(), r) == RefreshStep(old(Snapshot()), token, fingerprint, userExists, stamp, now)
    {
      if token.None? {
        return Err(InvalidRefreshToken);
      }
      var t := token.value;
      if t.kind != Refresh {
        return Err(InvalidTokenType);
      }
      if !Has(sessions, t.sessionId, now) {
        return Err(SessionExpiredOrRevoked);
      }
      var session := sessions[t.sessionId].value;
      if session.fingerprint != fingerprint {
        Logout(t.sessionId, t.sub, now);
        return Err(DeviceFingerprintMismatch);
      }
      if session.refreshTokenHash != Sha256(t) {
        LogoutAll(t.sub, now);
        return Err(RefreshTokenInvalid);
      }
      if !userExists {
        return Err(UserNotFound);
      }
      var pair := Sign(t.sub, t.sessionId, stamp, now);
      session := session.(refreshTokenHash := Sha256(pair.refresh));
      session := session.(lastUsedAt := now);
      sessions := sessions[t.sessionId := Entry(session, Ttl(now, SESSION_TTL_SECONDS))];
      r := Ok(pair);
    }

    /** Walks the index and keeps the sessions that are still there. */
    method GetSessions(userId: string, now: int) returns (r: set<SafeSession>)
      ensures r == Listed(Snapshot(), userId, now)
      ensures forall x | x in r ::
        && x.sessionId in SMembers(index, userId, now) && Has(sessions, x.sessionId, now)
        && var session := sessions[x.sessionId].value;
          x.userId == session.userId && x.fingerprint == session.fingerprint && x.createdAt == session.createdAt
          && x.lastUsedAt == session.lastUsedAt && x.expiresAt == session.expiresAt
      ensures forall id | id in SMembers(index, userId, now) && Has(sessions, id, now) ::
        exists x :: x in r && x.sessionId == id
    {
      var ids := SMembers(index, userId, now);
      r := {};
      var rest := ids;
      while rest != {}
        invariant rest <= ids
        invariant r == set id | id in ids - rest && Has(sessions, id, now) :: Safe(id, sessions[id].value)
        decreases rest
      {
        var id :| id in rest;
        rest := rest - {id};
        if Has(sessions, id, now) {
          r := r + {Safe(id, sessions[id].value)};
        }
      }
      forall id | id in ids && Has(sessions, id, now)
        ensures exists x :: x in r && x.sessionId == id
      {
        assert Safe(id, sessions[id].value) in r;
      }
    }

    method RevokeSession(sessionId: string, userId: string, now: int) returns (r: Result<(), AuthError>)
      modifies this
      ensures (Snapshot(), r) == RevokeStep(old(Snapshot()), sessionId, userId, now)
    {
      if !Has(sessions, sessionId, now) {
        return Ok(());
      }
      if sessions[sessionId].value.userId != userId {
        return Err(SessionOwnershipInvalid);
      }
      sessions := sessions - {sessionId};
      index := SRem(index, userId, sessionId, now);
      r := Ok(());
    }

    method Logout(sessionId: string, userId: string, now: int)
      modifies this
      ensures Snapshot() == LogoutStep(old(Snapshot()), sessionId, userId, now)
    {
      sessions := sessions - {sessionId};
      index := SRem(index, userId, sessionId, now);
    }

    method LogoutAll(userId: string, now: int)
      modifies this
      ensures Snapshot() == LogoutAllStep(old(Snapshot()), userId, now)
    {
      var ids := SMembers(index, userId, now);
      if |ids| > 0 {
        sessions := sessions - ids;
      }
      index := index - {userId};
    }

    /** The middleware; `context` is the session and user id the gateway read from the access token. */
    method CheckSession(context: Option<(string, string)>, now: int) returns (r: Result<(), AuthError>)
      modifies this
      ensures context.None? ==> r == Err(SessionContextMissing) && Snapshot() == old(Snapshot())
      ensures context.Some? ==> (Snapshot(), r) == TouchStep(old(Snapshot()), context.value.0, context.value.1, now)
    {
      if context.None? {
        return Err(SessionContextMissing);
      }
      var (sessionId, userId) := context.value;
      if !Has(sessions, sessionId, now) {
        return Err(SessionExpiredOrRevoked);
      }
      var session := sessions[sessionId].value;
      session := session.(lastUsedAt := now);
      sessions := sessions[sessionId := Entry(session, Ttl(now, SESSION_TTL_SECONDS))];
      index := Expire(index, userId, SESSION_TTL_SECONDS, now);
      r := Ok(());
    }
  }
}
