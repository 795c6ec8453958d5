/**
 * Refresh rotation: which token a session accepts, when each is accepted only once, and what an old one does.
 */
module TokenRotation {
  import opened Common
  import opened Sessions
  import opened SessionRuns
  import opened SessionTheorems

  /** A rotation signs a token that was not signed before. (A refusal signs nothing.) */
  predicate RotatesAfresh(s: System, e: Event) {
    e.Refreshing? && Accepts(s, e.token, e.fingerprint, e.userExists) ==>
      Sign(e.token.sub, e.token.sessionId, e.stamp, s.now).refresh !in s.issued
  }

  predicate AllRotateAfresh(events: seq<Event>)
    requires CanRun(events)
    decreases |events|
  {
    events == [] ||
    (AllRotateAfresh(events[..|events| - 1]) && RotatesAfresh(Run(events[..|events| - 1]), events[|events| - 1]))
  }

  /** A refresh is accepted exactly when it presents the token last issued for a live session, from its device. */
  lemma AcceptsOnlyCurrentToken(events: seq<Event>, token: Token, fingerprint: string, userExists: bool, stamp: nat)
    requires CanRun(events)
    ensures var s := Run(events);
      RefreshStep(s.st, Some(token), fingerprint, userExists, stamp, s.now).1.Ok? <==>
      && userExists && Live(s, token.sessionId)
      && token.sessionId in s.device && s.device[token.sessionId] == fingerprint
      && token.sessionId in s.current && s.current[token.sessionId] == token
  {
    RunKeepsOwned(events);
    RunKeepsDates(events);
    RefreshOutcome(Run(events), token, fingerprint, userExists, stamp);
  }

  ghost predicate ChainOk(s: System) {
    && (forall i | 0 <= i < |s.accepted| :: s.accepted[i] in s.issued)
    && (forall i, j | 0 <= i < j < |s.accepted| :: s.accepted[i] != s.accepted[j])
    && (forall id | id in s.current :: s.current[id] !in s.accepted)
  }

  lemma ChainStep(s: System, e: Event)
    requires Owned(s) && ChainOk(s) && Enabled(s, e) && RotatesAfresh(s, e)
    ensures ChainOk(Step(s, e))
  {
    if e.Refreshing? {
      RefreshOutcome(s, e.token, e.fingerprint, e.userExists, e.stamp);
      if Accepts(s, e.token, e.fingerprint, e.userExists) {
        ChainRotation(s, e.token, e.stamp);
      }
    }
  }

  lemma ChainRotation(s: System, token: Token, stamp: nat)
    requires Owned(s) && ChainOk(s) && token.sessionId in s.st.sessions
    requires token.sessionId in s.current && s.current[token.sessionId] == token
    requires Sign(token.sub, token.sessionId, stamp, s.now).refresh !in s.issued
    ensures ChainOk(Rotated(s, token, stamp))
  {
    var t := Rotated(s, token, stamp);
    forall id | id in t.current
      ensures t.current[id] !in t.accepted
    {
      if id != token.sessionId {
        assert t.current[id].sessionId == id;
      }
    }
  }

  /** When every rotation signs a fresh token, no refresh token is ever accepted twice. */
  lemma {:induction false} TokensAreAcceptedOnce(events: seq<Event>)
    requires CanRun(events) && AllRotateAfresh(events)
    ensures ChainOk(Run(events))
    decreases |events|
  {
    if events != [] {
      RunKeepsOwned(events[..|events| - 1]);
      TokensAreAcceptedOnce(events[..|events| - 1]);
      ChainStep(Run(events[..|events| - 1]), events[|events| - 1]);
    }
  }

  /** Right after a rotation the presented token is good again exactly if the signer produced the same token. */
  lemma ReplayWorksIffSameSigning(events: seq<Event>, token: Token, fingerprint: string, stamp: nat, next: nat)
    requires CanRun(events) && token in Run(events).issued
    requires Accepts(Run(events), token, fingerprint, true)
    ensures var t := RefreshNext(Run(events), token, fingerprint, true, stamp);
      RefreshStep(t.st, Some(token), fingerprint, true, next, t.now).1.Ok? <==>
      stamp == token.stamp && Run(events).now / 1000 == token.iat
  {
    RunKeepsOwned(events);
    RefreshOutcome(Run(events), token, fingerprint, true, stamp);
  }

  // ---------------------------------------------------------------- single use is exactly fresh signing

  /** In every run, each refresh token of a logged-in session has been accepted or is the one to accept next. */
  ghost predicate SpentOrCurrent(s: System) {
    && (forall t | t in s.accepted :: t in s.issued)
    && (forall t | t in s.issued && t.kind == Refresh && t.sessionId in s.current ::
          t in s.accepted || s.current[t.sessionId] == t)
  }

  lemma SpentStep(s: System, e: Event)
    requires Owned(s) && SpentOrCurrent(s) && Enabled(s, e)
    ensures SpentOrCurrent(Step(s, e))
  {
    hide SpentOrCurrent, SessionsOwned, IndexOwned, LoginNext, CheckNext, RefreshNext, RegisterNext;
    match e
    case Refreshing(token, fingerprint, userExists, stamp) => SpentRefresh(s, token, fingerprint, userExists, stamp);
    case Login(userId, sessionId, fingerprint, stamp) => SpentLogin(s, userId, sessionId, fingerprint, stamp);
    case Register(userId, sessionId, stamp) => SpentRegister(s, userId, sessionId, stamp);
    case Check(token) => SpentCheck(s, token);
    case Tick(_) => SpentElsewhere(s, Step(s, e));
    case Revoke(_, _) => SpentElsewhere(s, Step(s, e));
    case Logout(_) => SpentElsewhere(s, Step(s, e));
    case LogoutAll(_) => SpentElsewhere(s, Step(s, e));
  }

  lemma SpentElsewhere(s: System, t: System)
    requires SpentOrCurrent(s) && t.issued == s.issued && t.current == s.current && t.accepted == s.accepted
    ensures SpentOrCurrent(t)
  {
  }

  lemma SpentCheck(s: System, token: Token)
    requires SpentOrCurrent(s)
    ensures SpentOrCurrent(CheckNext(s, token))
  {
    hide SpentOrCurrent, TouchStep;
    SpentElsewhere(s, CheckNext(s, token));
  }

  lemma SpentRegister(s: System, userId: string, sessionId: string, stamp: nat)
    requires TokensOwned(s) && SpentOrCurrent(s) && Unused(s, sessionId)
    ensures SpentOrCurrent(RegisterNext(s, userId, sessionId, stamp))
  {
  }

  lemma SpentRefresh(s: System, token: Token, fingerprint: string, userExists: bool, stamp: nat)
    requires Owned(s) && SpentOrCurrent(s) && token in s.issued
    ensures SpentOrCurrent(RefreshNext(s, token, fingerprint, userExists, stamp))
  {
    hide SpentOrCurrent, RefreshStep;
    var (st, r) := RefreshStep(s.st, Some(token), fingerprint, userExists, stamp, s.now);
    RefreshOutcome(s, token, fingerprint, userExists, stamp);
    if Accepts(s, token, fingerprint, userExists) {
      SpentRotation(s, token, stamp);
    } else {
      SpentElsewhere(s, RefreshNext(s, token, fingerprint, userExists, stamp));
    }
  }

  lemma SpentLogin(s: System, userId: string, sessionId: string, fingerprint: string, stamp: nat)
    requires TokensOwned(s) && SpentOrCurrent(s) && Unused(s, sessionId)
    ensures SpentOrCurrent(LoginNext(s, userId, sessionId, fingerprint, stamp))
  {
    hide LoginStep;
  }

  lemma SpentRotation(s: System, token: Token, stamp: nat)
    requires SpentOrCurrent(s) && token in s.issued && token.sessionId in s.st.sessions
    requires token.sessionId in s.current && s.current[token.sessionId] == token
    ensures SpentOrCurrent(Rotated(s, token, stamp))
  {
    hide PutSession;
  }

  lemma {:induction false} SpentInRun(events: seq<Event>)
    requires CanRun(events)
    ensures SpentOrCurrent(Run(events))
    decreases |events|
  {
    if events != [] {
      RunKeepsOwned(events[..|events| - 1]);
      SpentInRun(events[..|events| - 1]);
      SpentStep(Run(events[..|events| - 1]), events[|events| - 1]);
    }
  }

  /** A state after a rotation accepts the newly signed token. */
  lemma RotationIsAccepted(s: System, token: Token, fingerprint: string, stamp: nat)
    requires Accepts(s, token, fingerprint, true)
    ensures Accepts(Rotated(s, token, stamp), Sign(token.sub, token.sessionId, stamp, s.now).refresh, fingerprint, true)
  {
  }

  /**
   * In any run, the token a rotation signs is the one accepted next, and that is a second acceptance exactly if it had
   * been signed before, by whichever earlier rotation or login.
   */
  lemma SecondAcceptanceIffSignedBefore(events: seq<Event>, token: Token, fingerprint: string, stamp: nat, next: nat)
    requires CanRun(events) && token in Run(events).issued
    requires Accepts(Run(events), token, fingerprint, true)
    ensures var s, t := Run(events), RefreshNext(Run(events), token, fingerprint, true, stamp);
      var signed := Sign(token.sub, token.sessionId, stamp, s.now).refresh;
      && RefreshStep(t.st, Some(signed), fingerprint, true, next, t.now).1.Ok?
      && (signed in t.accepted <==> signed in s.issued)
  {
    hide Run, CanRun, RefreshStep, RefreshNext, Rotated, Owned, SpentOrCurrent;
    var s := Run(events);
    var t, signed := Rotated(s, token, stamp), Sign(token.sub, token.sessionId, stamp, s.now).refresh;
    RunKeepsOwned(events);
    SpentInRun(events);
    RefreshOutcome(s, token, fingerprint, true, stamp);
    RotationIsAccepted(s, token, fingerprint, stamp);
    RotationKeepsOwned(s, token, stamp);
    RefreshOutcome(t, signed, fingerprint, true, next);
    SpentBySigning(s, token, stamp);
  }

  lemma SpentBySigning(s: System, token: Token, stamp: nat)
    requires TokensOwned(s) && SpentOrCurrent(s) && token in s.issued && token.sessionId in s.st.sessions
    requires token.sessionId in s.current && s.current[token.sessionId] == token
    ensures var signed := Sign(token.sub, token.sessionId, stamp, s.now).refresh;
      signed in Rotated(s, token, stamp).accepted <==> signed in s.issued
  {
  }

  /** No token that was accepted would be accepted again. */
  ghost predicate ReplayProof(s: System) {
    forall token, fingerprint | token in s.accepted :: !Accepts(s, token, fingerprint, true)
  }

  ghost predicate AlwaysReplayProof(events: seq<Event>)
    requires CanRun(events)
    decreases |events|
  {
    ReplayProof(Run(events)) && (events == [] || AlwaysReplayProof(events[..|events| - 1]))
  }

  lemma StepReplayProof(s: System, e: Event)
    requires Owned(s) && SpentOrCurrent(s) && ChainOk(s) && Enabled(s, e)
    ensures ReplayProof(Step(s, e)) <==> RotatesAfresh(s, e)
  {
    if RotatesAfresh(s, e) {
      ChainStep(s, e);
    } else {
      RefreshOutcome(s, e.token, e.fingerprint, e.userExists, e.stamp);
      RotationIsAccepted(s, e.token, e.fingerprint, e.stamp);
    }
  }

  /** A run never leaves a spent refresh token open to a second acceptance exactly if all its rotations sign afresh. */
  lemma {:induction false} SingleUseIffFresh(events: seq<Event>)
    requires CanRun(events)
    ensures AlwaysReplayProof(events) <==> AllRotateAfresh(events)
    decreases |events|
  {
    if events != [] {
      var init := events[..|events| - 1];
      SingleUseIffFresh(init);
      if AllRotateAfresh(init) {
        RunKeepsOwned(init);
        SpentInRun(init);
        TokensAreAcceptedOnce(init);
        StepReplayProof(Run(init), events[|events| - 1]);
      }
    }
  }

  // ---------------------------------------------------------------- a signer without a nonce

  /** The signer adds nothing of its own, as in the source: two tokens with the same claims are the same token. */
  predicate NoNonce(events: seq<Event>) {
    forall i | 0 <= i < |events| ::
      (events[i].Login? || events[i].Register? || events[i].Refreshing?) ==> events[i].stamp == 0
  }

  /** A rotation happens in a later second than the one its token was issued in. */
  predicate RotatesLater(s: System, e: Event) {
    e.Refreshing? && Accepts(s, e.token, e.fingerprint, e.userExists) ==> e.token.iat < s.now / 1000
  }

  predicate AllRotateLater(events: seq<Event>)
    requires CanRun(events)
    decreases |events|
  {
    events == [] ||
    (AllRotateLater(events[..|events| - 1]) && RotatesLater(Run(events[..|events| - 1]), events[|events| - 1]))
  }

  /** A session's current refresh token is its latest, and nothing is issued ahead of time. */
  ghost predicate CurrentIsLatest(s: System) {
    && (forall t | t in s.issued :: t.iat <= s.now / 1000)
    && (forall t | t in s.issued && t.kind == Refresh && t.sessionId in s.current ::
          t.iat <= s.current[t.sessionId].iat)
  }

  lemma LatestElsewhere(s: System, t: System)
    requires CurrentIsLatest(s) && t.issued == s.issued && t.current == s.current && t.now >= s.now
    ensures CurrentIsLatest(t)
  {
  }

  lemma LatestAfterLogin(s: System, userId: string, sessionId: string, fingerprint: string, stamp: nat)
    requires TokensOwned(s) && CurrentIsLatest(s) && Unused(s, sessionId)
    ensures CurrentIsLatest(LoginNext(s, userId, sessionId, fingerprint, stamp))
  {
    hide LoginStep;
  }

  lemma LatestAfterRegister(s: System, userId: string, sessionId: string, stamp: nat)
    requires TokensOwned(s) && CurrentIsLatest(s) && Unused(s, sessionId)
    ensures CurrentIsLatest(RegisterNext(s, userId, sessionId, stamp))
  {
  }

  lemma LatestAfterRotation(s: System, token: Token, stamp: nat)
    requires CurrentIsLatest(s) && token.sessionId in s.st.sessions
    ensures CurrentIsLatest(Rotated(s, token, stamp))
  {
    hide PutSession;
  }

  lemma LatestAfterRefresh(s: System, token: Token, fingerprint: string, userExists: bool, stamp: nat)
    requires Owned(s) && CurrentIsLatest(s) && token in s.issued
    ensures CurrentIsLatest(RefreshNext(s, token, fingerprint, userExists, stamp))
  {
    hide CurrentIsLatest, RefreshStep;
    var (st, r) := RefreshStep(s.st, Some(token), fingerprint, userExists, stamp, s.now);
    RefreshOutcome(s, token, fingerprint, userExists, stamp);
    if Accepts(s, token, fingerprint, userExists) {
      LatestAfterRotation(s, token, stamp);
    } else {
      LatestElsewhere(s, RefreshNext(s, token, fingerprint, userExists, stamp));
    }
  }

  lemma LatestStep(s: System, e: Event)
    requires Owned(s) && CurrentIsLatest(s) && Enabled(s, e)
    ensures CurrentIsLatest(Step(s, e))
  {
    hide CurrentIsLatest, SessionsOwned, IndexOwned, LoginNext, RefreshNext, RegisterNext;
    match e
    case Login(userId, sessionId, fingerprint, stamp) => LatestAfterLogin(s, userId, sessionId, fingerprint, stamp);
    case Register(userId, sessionId, stamp) => LatestAfterRegister(s, userId, sessionId, stamp);
    case Refreshing(token, fingerprint, userExists, stamp) =>
      LatestAfterRefresh(s, token, fingerprint, userExists, stamp);
    case Tick(_) => LatestElsewhere(s, Step(s, e));
    case Check(_) => LatestElsewhere(s, Step(s, e));
    case Revoke(_, _) => LatestElsewhere(s, Step(s, e));
    case Logout(_) => LatestElsewhere(s, Step(s, e));
    case LogoutAll(_) => LatestElsewhere(s, Step(s, e));
  }

  ghost predicate AllUnstamped(s: System) {
    forall t | t in s.issued :: t.stamp == 0
  }

  lemma UnstampedStep(s: System, e: Event)
    requires Owned(s) && AllUnstamped(s) && Enabled(s, e)
    requires (e.Login? || e.Register? || e.Refreshing?) ==> e.stamp == 0
    ensures AllUnstamped(Step(s, e))
  {
    hide Owned, LoginStep, PutSession, LogoutStep, LogoutAllStep, TouchStep, RevokeStep;
    if e.Refreshing? {
      RefreshOutcome(s, e.token, e.fingerprint, e.userExists, e.stamp);
    }
  }

  lemma {:induction false} LatestInRun(events: seq<Event>)
    requires CanRun(events)
    ensures CurrentIsLatest(Run(events))
    ensures NoNonce(events) ==> AllUnstamped(Run(events))
    decreases |events|
  {
    if events != [] {
      var init, e := events[..|events| - 1], events[|events| - 1];
      RunKeepsOwned(init);
      LatestInRun(init);
      LatestStep(Run(init), e);
      if NoNonce(events) {
        assert events[|events| - 1] == e;
        UnstampedStep(Run(init), e);
      }
    }
  }

  lemma LaterIsFresh(s: System, e: Event)
    requires TokensOwned(s) && CurrentIsLatest(s) && AllUnstamped(s) && Enabled(s, e)
    requires e.Refreshing? ==> e.stamp == 0
    ensures RotatesAfresh(s, e) <==> RotatesLater(s, e)
  {
    if e.Refreshing? && Accepts(s, e.token, e.fingerprint, e.userExists) {
      var signed := Sign(e.token.sub, e.token.sessionId, e.stamp, s.now).refresh;
      assert e.token.stamp == 0 && e.token.iat <= s.now / 1000;
      assert e.token.iat == s.now / 1000 ==> signed == e.token;
    }
  }

  /**
   * With the source's signer, refresh tokens are single-use in a run exactly if no session is refreshed in the very
   * second its token was issued in.
   */
  lemma {:induction false} SingleUseIffLaterSeconds(events: seq<Event>)
    requires CanRun(events) && NoNonce(events)
    ensures AllRotateAfresh(events) <==> AllRotateLater(events)
    ensures AlwaysReplayProof(events) <==> AllRotateLater(events)
    decreases |events|
  {
    SingleUseIffFresh(events);
    if events != [] {
      var init, e := events[..|events| - 1], events[|events| - 1];
      SingleUseIffLaterSeconds(init);
      RunKeepsOwned(init);
      LatestInRun(init);
      LaterIsFresh(Run(init), e);
    }
  }

  // ---------------------------------------------------------------- reuse

  /**
   * Presenting an earlier refresh token of a live session, from its own device, is refused, ends every covered
   * session of that user and leaves every other user's sessions as they were.
   */
  lemma ReuseEndsCoveredSessions(events: seq<Event>, token: Token, fingerprint: string, userExists: bool, stamp: nat,
                                 other: string)
    requires CanRun(events) && token in Run(events).issued && token.kind == Refresh
    requires Live(Run(events), token.sessionId) && other != token.sub
    requires token.sessionId in Run(events).device && Run(events).device[token.sessionId] == fingerprint
    requires token.sessionId in Run(events).current && Run(events).current[token.sessionId] != token
    ensures var s := Run(events);
      var t := RefreshNext(s, token, fingerprint, userExists, stamp);
      && RefreshStep(s.st, Some(token), fingerprint, userExists, stamp, s.now).1 == Err(RefreshTokenInvalid)
      && LiveSessions(t, token.sub) == (set id | id in LiveSessions(s, token.sub) && !Covered(s, id))
      && LiveSessions(t, other) == LiveSessions(s, other)
  {
    RunKeepsOwned(events);
    RunKeepsDates(events);
    LogoutAllLeavesOnlyUncovered(events, token.sub, other);
  }

  /** Tokens issued at registration name the OTP session's id, which never has a session: no refresh accepts them. */
  lemma RegistrationTokensNeverRefresh(events: seq<Event>, token: Token, fingerprint: string, userExists: bool,
                                       stamp: nat)
    requires CanRun(events) && token.sessionId in Run(events).registered
    ensures RefreshStep(Run(events).st, Some(token), fingerprint, userExists, stamp, Run(events).now).1.Err?
    ensures TouchStep(Run(events).st, token.sessionId, token.sub, Run(events).now).1 == Err(SessionExpiredOrRevoked)
  {
    RunKeepsOwned(events);
  }
}
