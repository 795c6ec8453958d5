/**
 * Whole runs of the session service, one call a step. Session ids are fresh; tokens reach the service
 * only if it signed them; the clock never goes back.
 */
module SessionRuns {
  import opened Common
  import opened Redis
  import opened Sessions

  /** A login, or a session check that passed. */
  datatype Renewal = Renewal(userId: string, at: int)

  /**
   * `owner`, `device` and `born` record each login (user, fingerprint, position in `renewals`), `current` the refresh
   * token last issued for a session, `accepted` the refresh tokens that were rotated, in order.
   */
  datatype System = System(
    st: Store,
    now: int,
    owner: map<string, string>,
    device: map<string, string>,
    born: map<string, nat>,
    registered: set<string>,
    issued: set<Token>,
    current: map<string, Token>,
    accepted: seq<Token>,
    renewals: seq<Renewal>)

  datatype Event =
    | Tick(ms: nat)
    | Login(userId: string, sessionId: string, fingerprint: string, stamp: nat)
    | Register(userId: string, sessionId: string, stamp: nat)
    | Refreshing(token: Token, fingerprint: string, userExists: bool, stamp: nat)
    | Check(token: Token)
    | Revoke(sessionId: string, userId: string)
    | Logout(token: Token)
    | LogoutAll(userId: string)

  const INITIAL := System(Store(map[], map[]), 0, map[], map[], map[], {}, {}, map[], [], [])

  predicate Unused(s: System, sessionId: string) {
    sessionId !in s.owner && sessionId !in s.registered
  }

  predicate Enabled(s: System, e: Event) {
    match e
    case Login(_, sessionId, _, _) => Unused(s, sessionId)
    case Register(_, sessionId, _) => Unused(s, sessionId)
    case Refreshing(token, _, _, _) => token in s.issued
    case Check(token) => token in s.issued && token.kind == Access
    case Logout(token) => token in s.issued && token.kind == Refresh
    case _ => true
  }

  function Issue(s: System, pair: TokenPair): System {
    s.(issued := s.issued + {pair.access, pair.refresh})
  }

  function LoginNext(s: System, userId: string, sessionId: string, fingerprint: string, stamp: nat): System {
    var pair := Sign(userId, sessionId, stamp, s.now);
    Issue(s, pair).(
      st := LoginStep(s.st, userId, sessionId, fingerprint, stamp, s.now),
      owner := s.owner[sessionId := userId],
      device := s.device[sessionId := fingerprint],
      born := s.born[sessionId := |s.renewals|],
      current := s.current[sessionId := pair.refresh],
      renewals := s.renewals + [Renewal(userId, s.now)])
  }

  /** Registration signs tokens for the OTP session's id; it writes no session. */
  function RegisterNext(s: System, userId: string, sessionId: string, stamp: nat): System {
    Issue(s, Sign(userId, sessionId, stamp, s.now)).(registered := s.registered + {sessionId})
  }

  function RefreshNext(s: System, token: Token, fingerprint: string, userExists: bool, stamp: nat): System {
    var (st, r) := RefreshStep(s.st, Some(token), fingerprint, userExists, stamp, s.now);
    if r.Err? then s.(st := st)
    else Issue(s, r.value).(
      st := st,
      current := s.current[token.sessionId := r.value.refresh],
      accepted := s.accepted + [token])
  }

  function CheckNext(s: System, token: Token): System {
    var (st, r) := TouchStep(s.st, token.sessionId, token.sub, s.now);
    if r.Err? then s else s.(st := st, renewals := s.renewals + [Renewal(token.sub, s.now)])
  }

  function Step(s: System, e: Event): System
    requires Enabled(s, e)
  {
    match e
    case Tick(ms) => s.(now := s.now + ms)
    case Login(userId, sessionId, fingerprint, stamp) => LoginNext(s, userId, sessionId, fingerprint, stamp)
    case Register(userId, sessionId, stamp) => RegisterNext(s, userId, sessionId, stamp)
    case Refreshing(token, fingerprint, userExists, stamp) => RefreshNext(s, token, fingerprint, userExists, stamp)
    case Check(token) => CheckNext(s, token)
    case Revoke(sessionId, userId) => s.(st := RevokeStep(s.st, sessionId, userId, s.now).0)
    case Logout(token) => s.(st := LogoutStep(s.st, token.sessionId, token.sub, s.now))
    case LogoutAll(userId) => s.(st := LogoutAllStep(s.st, userId, s.now))
  }

  predicate CanRun(events: seq<Event>)
    decreases |events|, 0
  {
    events == [] ||
    (CanRun(events[..|events| - 1]) && Enabled(Run(events[..|events| - 1]), events[|events| - 1]))
  }

  function Run(events: seq<Event>): System
    requires CanRun(events)
    decreases |events|, 1
  {
    if events == [] then INITIAL
    else Step(Run(events[..|events| - 1]), events[|events| - 1])
  }

  // ---------------------------------------------------------------- who owns what

  ghost predicate TokensOwned(s: System) {
    && s.current.Keys == s.owner.Keys == s.born.Keys && s.owner.Keys !! s.registered
    && (forall t | t in s.issued :: t.sessionId in s.owner || t.sessionId in s.registered)
    && (forall t | t in s.issued && t.sessionId in s.owner :: t.sub == s.owner[t.sessionId])
    && (forall id | id in s.current ::
          s.current[id] in s.issued && s.current[id].sessionId == id && s.current[id].kind == Refresh)
  }

  ghost predicate SessionsOwned(s: System) {
    forall id | id in s.st.sessions ::
      && id in s.owner && id in s.current
      && s.st.sessions[id].value.userId == s.owner[id]
      && s.st.sessions[id].value.refreshTokenHash == Sha256(s.current[id])
  }

  /** A record keeps its device and birth, and lives one time to live from its last use. */
  ghost predicate SessionsDated(s: System) {
    forall id | id in s.st.sessions ::
      var session := s.st.sessions[id].value;
      && id in s.device && session.fingerprint == s.device[id]
      && session.createdAt <= session.lastUsedAt <= s.now
      && session.expiresAt == session.createdAt + SESSION_TTL_MS
      && s.st.sessions[id].expiry == At(session.lastUsedAt + SESSION_TTL_MS)
  }

  ghost predicate IndexOwned(s: System) {
    forall u, id | u in s.st.index && id in s.st.index[u].value :: id in s.owner && s.owner[id] == u
  }

  ghost predicate Owned(s: System) {
    TokensOwned(s) && SessionsOwned(s) && IndexOwned(s)
  }

  lemma LoginKeepsOwned(s: System, userId: string, sessionId: string, fingerprint: string, stamp: nat)
    requires Owned(s) && Unused(s, sessionId)
    ensures Owned(LoginNext(s, userId, sessionId, fingerprint, stamp))
  {
    LoginKeepsTokens(s, userId, sessionId, fingerprint, stamp);
    LoginKeepsSessions(s, userId, sessionId, fingerprint, stamp);
    LoginKeepsIndexOwned(s, userId, sessionId, fingerprint, stamp);
  }

  lemma LoginKeepsSessions(s: System, userId: string, sessionId: string, fingerprint: string, stamp: nat)
    requires Owned(s) && Unused(s, sessionId)
    ensures SessionsOwned(LoginNext(s, userId, sessionId, fingerprint, stamp))
  {
    hide IndexOwned;
    var pair := Sign(userId, sessionId, stamp, s.now);
    NewSessionOwned(s, LoginNext(s, userId, sessionId, fingerprint, stamp), sessionId,
      Session(userId, fingerprint, Sha256(pair.refresh), s.now, s.now, s.now + SESSION_TTL_MS));
  }

  lemma LoginKeepsIndexOwned(s: System, userId: string, sessionId: string, fingerprint: string, stamp: nat)
    requires Owned(s) && Unused(s, sessionId)
    ensures IndexOwned(LoginNext(s, userId, sessionId, fingerprint, stamp))
  {
    hide SessionsOwned, TokensOwned;
    var t := LoginNext(s, userId, sessionId, fingerprint, stamp);
    assert t.st.index[userId].value == SMembers(s.st.index, userId, s.now) + {sessionId};
    assert t.owner == s.owner[sessionId := userId];
  }

  lemma LoginKeepsTokens(s: System, userId: string, sessionId: string, fingerprint: string, stamp: nat)
    requires Owned(s) && Unused(s, sessionId)
    ensures TokensOwned(LoginNext(s, userId, sessionId, fingerprint, stamp))
  {
    hide SessionsOwned, IndexOwned, LoginStep;
  }

  /** Writing one session record, with its owner and current token, keeps the records owned. */
  lemma NewSessionOwned(s: System, t: System, id: string, session: Session)
    requires SessionsOwned(s)
    requires t.st.sessions == s.st.sessions[id := Entry(session, Ttl(s.now, SESSION_TTL_SECONDS))]
    requires id in t.owner && id in t.current
    requires session.userId == t.owner[id] && session.refreshTokenHash == Sha256(t.current[id])
    requires forall other | other != id && other in s.owner && other in s.current ::
      other in t.owner && other in t.current && t.owner[other] == s.owner[other] && t.current[other] == s.current[other]
    ensures SessionsOwned(t)
  {
  }

  lemma RegisterKeepsOwned(s: System, userId: string, sessionId: string, stamp: nat)
    requires Owned(s) && Unused(s, sessionId)
    ensures Owned(RegisterNext(s, userId, sessionId, stamp))
  {
  }

  /** Records and index entries may go; what stays is as it was. */
  lemma RemovalKeepsOwned(s: System, st: Store)
    requires Owned(s)
    requires forall id | id in st.sessions :: id in s.st.sessions && st.sessions[id].value == s.st.sessions[id].value
    requires forall u | u in st.index :: u in s.st.index && st.index[u].value <= s.st.index[u].value
    ensures Owned(s.(st := st))
  {
    var t := s.(st := st);
    assert TokensOwned(t);
    assert SessionsOwned(t);
    assert IndexOwned(t);
  }

  lemma LogoutKeepsOwned(s: System, sessionId: string, userId: string)
    requires Owned(s)
    ensures Owned(s.(st := LogoutStep(s.st, sessionId, userId, s.now)))
  {
    hide Owned;
    RemovalKeepsOwned(s, LogoutStep(s.st, sessionId, userId, s.now));
  }

  lemma LogoutAllKeepsOwned(s: System, userId: string)
    requires Owned(s)
    ensures Owned(s.(st := LogoutAllStep(s.st, userId, s.now)))
  {
    hide Owned;
    RemovalKeepsOwned(s, LogoutAllStep(s.st, userId, s.now));
  }

  /** A refresh goes through exactly for the session's current token, from its own device. */
  predicate Accepts(s: System, token: Token, fingerprint: string, userExists: bool) {
    && token.kind == Refresh && userExists
    && Has(s.st.sessions, token.sessionId, s.now)
    && s.st.sessions[token.sessionId].value.fingerprint == fingerprint
    && token.sessionId in s.current && s.current[token.sessionId] == token
  }

  function Rotated(s: System, token: Token, stamp: nat): System
    requires token.sessionId in s.st.sessions
  {
    var pair := Sign(token.sub, token.sessionId, stamp, s.now);
    var session := s.st.sessions[token.sessionId].value.(refreshTokenHash := Sha256(pair.refresh), lastUsedAt := s.now);
    Issue(s, pair).(
      st := PutSession(s.st, token.sessionId, session, s.now),
      current := s.current[token.sessionId := pair.refresh],
      accepted := s.accepted + [token])
  }

  lemma RefreshOutcome(s: System, token: Token, fingerprint: string, userExists: bool, stamp: nat)
    requires Owned(s)
    ensures var (st, r) := RefreshStep(s.st, Some(token), fingerprint, userExists, stamp, s.now);
      && (r.Ok? <==> Accepts(s, token, fingerprint, userExists))
      && (r.Ok? ==> r.value == Sign(token.sub, token.sessionId, stamp, s.now))
      && (r.Err? ==>
            st in {s.st, LogoutStep(s.st, token.sessionId, token.sub, s.now), LogoutAllStep(s.st, token.sub, s.now)})
    ensures Accepts(s, token, fingerprint, userExists) ==>
      RefreshNext(s, token, fingerprint, userExists, stamp) == Rotated(s, token, stamp)
  {
  }

  lemma RotationKeepsOwned(s: System, token: Token, stamp: nat)
    requires Owned(s) && token in s.issued && token.sessionId in s.st.sessions
    ensures Owned(Rotated(s, token, stamp))
  {
    hide TokensOwned, SessionsOwned, PutSession;
    RotationKeepsTokens(s, token, stamp);
    RotationKeepsSessions(s, token, stamp);
    RotationKeepsIndexOwned(s, token, stamp);
  }

  lemma RotationKeepsTokens(s: System, token: Token, stamp: nat)
    requires Owned(s) && token in s.issued && token.sessionId in s.st.sessions
    ensures TokensOwned(Rotated(s, token, stamp))
  {
    var id, pair := token.sessionId, Sign(token.sub, token.sessionId, stamp, s.now);
    assert s.owner[id] == token.sub;
    assert s.current[id := pair.refresh].Keys == s.current.Keys;
  }

  lemma RotationKeepsSessions(s: System, token: Token, stamp: nat)
    requires Owned(s) && token in s.issued && token.sessionId in s.st.sessions
    ensures SessionsOwned(Rotated(s, token, stamp))
  {
    var id, pair := token.sessionId, Sign(token.sub, token.sessionId, stamp, s.now);
    var session := s.st.sessions[id].value.(refreshTokenHash := Sha256(pair.refresh), lastUsedAt := s.now);
    RotationWrites(s, token, stamp);
    assert session.userId == s.owner[id];
    hide *;
    NewSessionOwned(s, Rotated(s, token, stamp), id, session);
  }

  /** What a rotation writes, field by field. */
  lemma RotationWrites(s: System, token: Token, stamp: nat)
    requires token.sessionId in s.st.sessions
    ensures var t, pair := Rotated(s, token, stamp), Sign(token.sub, token.sessionId, stamp, s.now);
      var was := s.st.sessions[token.sessionId].value;
      var session := was.(refreshTokenHash := Sha256(pair.refresh), lastUsedAt := s.now);
      && t.st.sessions == s.st.sessions[token.sessionId := Entry(session, Ttl(s.now, SESSION_TTL_SECONDS))]
      && t.st.index == s.st.index && t.owner == s.owner && t.current == s.current[token.sessionId := pair.refresh]
  {
  }

  lemma RotationKeepsIndexOwned(s: System, token: Token, stamp: nat)
    requires IndexOwned(s) && token.sessionId in s.st.sessions
    ensures IndexOwned(Rotated(s, token, stamp))
  {
    RotationWrites(s, token, stamp);
    hide Rotated;
  }

  lemma RefreshKeepsOwned(s: System, token: Token, fingerprint: string, userExists: bool, stamp: nat)
    requires Owned(s) && token in s.issued
    ensures Owned(RefreshNext(s, token, fingerprint, userExists, stamp))
  {
    var (st, r) := RefreshStep(s.st, Some(token), fingerprint, userExists, stamp, s.now);
    assert Accepts(s, token, fingerprint, userExists) ==> token.sessionId in s.st.sessions;
    hide Owned, RefreshStep, Rotated, LogoutStep, LogoutAllStep, Accepts;
    assert s.(st := s.st) == s;
    RefreshOutcome(s, token, fingerprint, userExists, stamp);
    if Accepts(s, token, fingerprint, userExists) {
      RotationKeepsOwned(s, token, stamp);
    } else {
      LogoutKeepsOwned(s, token.sessionId, token.sub);
      LogoutAllKeepsOwned(s, token.sub);
    }
  }

  lemma CheckKeepsOwned(s: System, token: Token)
    requires Owned(s)
    ensures Owned(CheckNext(s, token))
  {
    if Has(s.st.sessions, token.sessionId, s.now) {
      CheckKeepsSessions(s, token);
      CheckKeepsIndexOwned(s, token);
    }
  }

  lemma CheckKeepsSessions(s: System, token: Token)
    requires Owned(s) && Has(s.st.sessions, token.sessionId, s.now)
    ensures SessionsOwned(CheckNext(s, token))
  {
    hide TokensOwned, IndexOwned;
    var session := s.st.sessions[token.sessionId].value.(lastUsedAt := s.now);
    NewSessionOwned(s, CheckNext(s, token), token.sessionId, session);
  }

  lemma CheckKeepsIndexOwned(s: System, token: Token)
    requires Owned(s) && Has(s.st.sessions, token.sessionId, s.now)
    ensures IndexOwned(CheckNext(s, token)) && TokensOwned(CheckNext(s, token))
  {
    hide SessionsOwned;
    var t := CheckNext(s, token);
    assert t.st.index == Expire(s.st.index, token.sub, SESSION_TTL_SECONDS, s.now);
    assert TokensOwned(t);
  }

  lemma StepKeepsOwned(s: System, e: Event)
    requires Owned(s) && Enabled(s, e)
    ensures Owned(Step(s, e))
  {
    match e
    case Tick(_) =>
    case Login(userId, sessionId, fingerprint, stamp) => LoginKeepsOwned(s, userId, sessionId, fingerprint, stamp);
    case Register(userId, sessionId, stamp) => RegisterKeepsOwned(s, userId, sessionId, stamp);
    case Refreshing(token, fingerprint, userExists, stamp) =>
      RefreshKeepsOwned(s, token, fingerprint, userExists, stamp);
    case Check(token) => CheckKeepsOwned(s, token);
    case Revoke(sessionId, userId) => LogoutKeepsOwned(s, sessionId, userId);
    case Logout(token) => LogoutKeepsOwned(s, token.sessionId, token.sub);
    case LogoutAll(userId) => LogoutAllKeepsOwned(s, userId);
  }

  lemma {:induction false} RunKeepsOwned(events: seq<Event>)
    requires CanRun(events)
    ensures Owned(Run(events))
    decreases |events|
  {
    if events != [] {
      RunKeepsOwned(events[..|events| - 1]);
      StepKeepsOwned(Run(events[..|events| - 1]), events[|events| - 1]);
    }
  }

  lemma PutKeepsDates(s: System, t: System, id: string, session: Session)
    requires SessionsDated(s) && t.now == s.now
    requires t.st.sessions == s.st.sessions[id := Entry(session, Ttl(s.now, SESSION_TTL_SECONDS))]
    requires id in t.device && session.fingerprint == t.device[id]
    requires session.createdAt <= session.lastUsedAt == s.now && session.expiresAt == session.createdAt + SESSION_TTL_MS
    requires forall other | other != id && other in s.device :: other in t.device && t.device[other] == s.device[other]
    ensures SessionsDated(t)
  {
  }

  lemma RemovalKeepsDates(s: System, t: System)
    requires SessionsDated(s) && t.now >= s.now && t.device == s.device
    requires forall id | id in t.st.sessions :: id in s.st.sessions && t.st.sessions[id] == s.st.sessions[id]
    ensures SessionsDated(t)
  {
  }

  lemma RefreshKeepsDates(s: System, token: Token, fingerprint: string, userExists: bool, stamp: nat)
    requires Owned(s) && SessionsDated(s)
    ensures SessionsDated(RefreshNext(s, token, fingerprint, userExists, stamp))
  {
    hide SessionsDated;
    var t := RefreshNext(s, token, fingerprint, userExists, stamp);
    RefreshOutcome(s, token, fingerprint, userExists, stamp);
    if Accepts(s, token, fingerprint, userExists) {
      RotationKeepsDates(s, token, stamp);
    } else {
      RemovalKeepsDates(s, t);
    }
  }

  lemma RotationKeepsDates(s: System, token: Token, stamp: nat)
    requires SessionsDated(s) && token.sessionId in s.st.sessions
    ensures SessionsDated(Rotated(s, token, stamp))
  {
    var pair := Sign(token.sub, token.sessionId, stamp, s.now);
    PutKeepsDates(s, Rotated(s, token, stamp), token.sessionId,
      s.st.sessions[token.sessionId].value.(refreshTokenHash := Sha256(pair.refresh), lastUsedAt := s.now));
  }

  lemma CheckKeepsDates(s: System, token: Token)
    requires SessionsDated(s)
    ensures SessionsDated(CheckNext(s, token))
  {
    if Has(s.st.sessions, token.sessionId, s.now) {
      var session := s.st.sessions[token.sessionId].value.(lastUsedAt := s.now);
      PutKeepsDates(s, CheckNext(s, token), token.sessionId, session);
    }
  }

  lemma LoginKeepsDates(s: System, userId: string, sessionId: string, fingerprint: string, stamp: nat)
    requires SessionsDated(s)
    ensures SessionsDated(LoginNext(s, userId, sessionId, fingerprint, stamp))
  {
    var pair := Sign(userId, sessionId, stamp, s.now);
    PutKeepsDates(s, LoginNext(s, userId, sessionId, fingerprint, stamp), sessionId,
      Session(userId, fingerprint, Sha256(pair.refresh), s.now, s.now, s.now + SESSION_TTL_MS));
  }

  lemma StepKeepsDates(s: System, e: Event)
    requires Owned(s) && SessionsDated(s) && Enabled(s, e)
    ensures SessionsDated(Step(s, e))
  {
    hide SessionsDated, Owned, LoginNext, CheckNext, RefreshNext, LogoutStep, LogoutAllStep;
    match e
    case Login(userId, sessionId, fingerprint, stamp) => LoginKeepsDates(s, userId, sessionId, fingerprint, stamp);
    case Refreshing(token, fingerprint, userExists, stamp) =>
      RefreshKeepsDates(s, token, fingerprint, userExists, stamp);
    case Check(token) => CheckKeepsDates(s, token);
    case Revoke(sessionId, userId) => LogoutKeepsDates(s, sessionId, userId);
    case Logout(token) => LogoutKeepsDates(s, token.sessionId, token.sub);
    case LogoutAll(userId) => LogoutKeepsDates(s, "", userId);
    case Register(_, _, _) => RemovalKeepsDates(s, Step(s, e));
    case Tick(_) => RemovalKeepsDates(s, Step(s, e));
  }

  lemma LogoutKeepsDates(s: System, sessionId: string, userId: string)
    requires SessionsDated(s)
    ensures SessionsDated(s.(st := LogoutStep(s.st, sessionId, userId, s.now)))
    ensures SessionsDated(s.(st := LogoutAllStep(s.st, userId, s.now)))
  {
  }

  lemma {:induction false} RunKeepsDates(events: seq<Event>)
    requires CanRun(events)
    ensures SessionsDated(Run(events))
    decreases |events|
  {
    if events != [] {
      RunKeepsOwned(events[..|events| - 1]);
      RunKeepsDates(events[..|events| - 1]);
      StepKeepsDates(Run(events[..|events| - 1]), events[|events| - 1]);
    }
  }
}
