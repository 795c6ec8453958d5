# Verified model of the platform's stateful protocols

The project models six protocols of the train-booking platform and proves what they promise over whole runs:
every sequence of calls, every interleaving, every clock that does not go back.

| protocol | object | runs and theorems |
|---|---|---|
| token-bucket rate limiter | `TokenBucket.dfy` | `BucketRuns.dfy`, `MixedPresets.dfy` |
| circuit breaker and call timeout | `CircuitBreaker.dfy`, `Timeout.dfy` | `BreakerRuns.dfy`, `BreakerSteps.dfy`, `BreakerTheorems.dfy`, `BreakerLoad.dfy` |
| idempotent notification workers | `Idempotency.dfy` | `IdempotencyRuns.dfy`, `IdempotencyOverlaps.dfy` |
| sessions and refresh tokens | `Sessions.dfy` | `SessionRuns.dfy`, `SessionSteps.dfy`, `SessionTheorems.dfy`, `SessionLifetimes.dfy`, `TokenRotation.dfy` |
| OTP counters and registration | `Registration.dfy` | `RegistrationRuns.dfy`, `RegistrationSteps.dfy`, `RegistrationTheorems.dfy`, `RegistrationLimits.dfy` |
| exponential backoff | `Backoff.dfy` | the same file |

`Redis.dfy` is the key space they share: entries with an expiry, and the commands the services use. `Common.dfy`,
`FiniteSets.dfy` and `Periods.dfy` hold helpers. `dafny verify dfyconfig.toml` checks everything.

Each object is a class whose methods take the source's branches in the source's order. Every method is proved
equal to a function on the old state, and the run modules use those same functions as the steps of a state
machine: an event sequence is legal when every event is enabled where it happens, and each theorem is about every
legal sequence.

## Conventions and assumptions

- Time is a whole number of milliseconds and never goes back. A key with a time to live of n ms is there for n ms, the
  last one included, and gone in the next. Tokens in a bucket, and the breaker's two timeouts, are exact reals.
- The breaker's clock cannot pass the deadline of an unsettled call when `timeoutMs` is positive. That is what
  `WithTimeout` gives (`ClockRuleIsTimeout`). A timer truncates its delay to whole milliseconds and takes 1 ms for a
  delay below 1 or above 2147483647 (`Timeout.TimerMs`). `Config.RecoveryMs` rounds the recovery timeout up to the
  next whole millisecond, which is when a whole-millisecond clock can first see it elapsed. Bounds are stated with both.
- Each Redis command of the notification workers is a step of its own, and so is the send; a worker may stop
  anywhere. `sendOtp` is three steps. The other calls of the user service are one step each.
- bcrypt comparison succeeds exactly on the stored value, SHA-256 is injective, UUIDs are fresh. A signed token is
  determined by its claims, which hold the second it was issued in, and a stamp the signer supplies; the source's
  signer adds nothing, which is a constant stamp (`NoNonce`). Theorems about all runs allow tokens of any age; the run
  of `RefreshedSessionOutlivesIndex` keeps the default token lifetimes (`AllInTime`).
- Promise results, Kafka answers, the user lookup and the password check are parameters.

## Where the code and its documentation differ, and properties that hold only under a condition

- A HALF_OPEN visit can be ended by a probe left over from an earlier visit. It cannot exactly when
  `halfOpenMaxTrials` is 1, or calls time out before the breaker can try again (`VisitsEndByOwnProbesIff`). A timeout
  of at least 1 ms that is shorter than the recovery timeout is enough (`ShortTimeoutTimesOutFirst`).
- Mixed presets on one key keep the window bound of the largest capacity and rate exactly when every key that is gone
  could have refilled the largest capacity at the largest rate (`WindowsHoldIffTtlsCoverRefill`, for a whole-number
  capacity, which is all the gateway's settings allow; `RateTimesTtlCovers` gives it from rate times time to live). For
  any capacity and a rate of whole tokens per millisecond, only the whole part of the capacity must be covered
  (`WholeRateWindowsHoldIff`), so a shortage may be harmless (`FractionCanSpareCover`). The gateway's defaults satisfy
  the condition.
- `refresh` renews the session record but not the user's index, so a session can outlive its index entry: it is
  then missing from `getSessions` and survives `logoutAll` and reuse detection. `RefreshedSessionOutlivesIndex` is
  such a run, and `IndexedIffCovered` says exactly which sessions it happens to.
- A rotated refresh token is dead only if the signer does not produce it again: no spent token can be accepted again at
  any point of a run iff every rotation in it signed a token that was not signed before (`SingleUseIffFresh`). The
  claims hold no nonce, so with the source's signer that is iff no session is refreshed in the very second its token
  was issued in (`SingleUseIffLaterSeconds`).
- The listed `expiresAt` is never moved when a session is renewed: it is right iff the last use is at the login's own
  time (`ListedExpiryIsRightIffUnused`).
- Tokens returned by registration name a session id that never has a session record, so no refresh and no session
  check accepts them (`RegistrationTokensNeverRefresh`).
- `verifyAndRegister` asks for `emailVerified: true`, and the repository does not pass it on; the model writes users
  as the repository does.
- The service's README promises at most 5 OTPs per hour and email, with a sliding hour (apps/user-service/README.md:327
  and 494). The code counts per fixed window, so the promise fails: nine can be stored, even within two milliseconds,
  and nine is the least limit that holds over an hour (`HourlyLimitIsExact`).
- A worker that outlives its lease makes room for a second one on the same event: some point of a run lets a second
  worker in iff a live worker on the event outlives its lease in it (`NeverOverlapsIffTimely`). Then, and only then, the
  event can be sent twice although no worker was lost (`SentTwiceIffOverdue`). A late release can even delete the
  second worker's reservation (`LateReleaseFreesTheHolder`).

## Model

| member | source | states |
|---|---|---|
| TokenBucket.TokenBucketRateLimiter.Consume | packages/ratelimit/src/token-bucket/TokenBucketRateLimiter.ts:92-119 | rejects exactly the capacities below 1, rates not above 0 and non-finite values, leaving Redis alone; otherwise answers from the tokens found under this key (an expired one reads as full), stores what is left with a fresh time to live, and touches no other key |
| TokenBucket.AccruedIsRateTimesTime | packages/ratelimit/src/token-bucket/TokenBucketRateLimiter.ts:38-40 | the script's elapsedSec * refillPerSec is what tokens earned millisecond by millisecond add up to |
| BucketRuns.LevelIsTightestWindow | packages/ratelimit/src/token-bucket/TokenBucketRateLimiter.ts:38-55 | the lazily refilled counter is the minimum, over every earlier call, of the room left in the window that opens with it |
| BucketRuns.AllowedIffEveryWindowHasRoom | packages/ratelimit/src/token-bucket/TokenBucketRateLimiter.ts:38-55 | a call passes iff, counting it, no window over the earlier calls exceeds capacity + rate * elapsed |
| BucketRuns.BucketRespectsWindows | packages/ratelimit/src/token-bucket/TokenBucketRateLimiter.ts:33-57 | every window holds at most capacity + rate * elapsed allowed calls |
| BucketRuns.DecisionsRespectWindows | packages/ratelimit/src/token-bucket/TokenBucketRateLimiter.ts:33-57 | the bucket's own decisions are one of the choices the optimality theorem ranges over |
| BucketRuns.BucketIsOptimal | packages/ratelimit/src/token-bucket/TokenBucketRateLimiter.ts:33-57 | no choice of calls that respects every window admits more calls than the bucket after any prefix |
| BucketRuns.ExpiryIsInvisible | packages/ratelimit/src/token-bucket/TokenBucketRateLimiter.ts:30-41 | dropping the key after its time to live and re-creating it full changes no stored bucket and no reply of any run |
| BucketRuns.TtlRefills | packages/ratelimit/src/token-bucket/TokenBucketRateLimiter.ts:59-60 | the key's time to live is long enough to refill an empty bucket |
| BucketRuns.TtlIsLeastRefillPlusOne | packages/ratelimit/src/token-bucket/TokenBucketRateLimiter.ts:59-60 | it is one second more than the least whole number of seconds that refills an empty bucket |
| BucketRuns.DenialKeepsLevel | packages/ratelimit/src/token-bucket/TokenBucketRateLimiter.ts:52-57 | storing a denial leaves the level at every later time as if the call had not happened |
| BucketRuns.DroppingDeniedCallsChangesNothing | packages/ratelimit/src/token-bucket/TokenBucketRateLimiter.ts:48-57 | deleting any denied calls from a run changes no reply to the remaining calls, expiry included |
| BucketRuns.ResetMsIsLeastWait | packages/ratelimit/src/token-bucket/TokenBucketRateLimiter.ts:52-55 | after a denial, with nothing allowed in between, a later call passes iff it waits at least resetMs |
| BucketRuns.RemainingIsExact | packages/ratelimit/src/token-bucket/TokenBucketRateLimiter.ts:45-51 | after any call exactly `remaining` more calls pass at the same instant |
| BucketRuns.RepliesAreConsistent | packages/ratelimit/src/token-bucket/TokenBucketRateLimiter.ts:43-63 | for any mix of presets, an allowed call is told no wait and a denied one that nothing remains and a positive wait |
| MixedPresets.MixedRunsKeepWindows | apps/api-gateway/src/ratelimit/rateLimitMiddleware.ts:18-31 | any interleaving of presets on one key, expiry included, allows at most maxCapacity + maxRate * W in a window W, if every time to live covers the refill |
| MixedPresets.RateTimesTtlCovers | packages/ratelimit/src/token-bucket/TokenBucketRateLimiter.ts:59-60 | every time to live covers the refill if maxRate times it reaches maxCapacity |
| MixedPresets.ShortTtlBreaksWindow | packages/ratelimit/src/token-bucket/TokenBucketRateLimiter.ts:59-60 | a preset whose time to live is too short, by more than two drains leave unused, gives a run that exceeds the window bound |
| MixedPresets.FractionCanSpareCover | packages/ratelimit/src/token-bucket/TokenBucketRateLimiter.ts:33-60 | two presets, the larger with a fractional capacity, whose times to live do not cover the refill and which still never exceed a window in any run |
| MixedPresets.WindowsHoldIffTtlsCoverRefill | packages/ratelimit/src/token-bucket/TokenBucketRateLimiter.ts:33-60 | for a whole-number largest capacity, all runs keep all windows iff every preset's time to live covers the refill |
| MixedPresets.WholeRateWindowsHoldIff | packages/ratelimit/src/token-bucket/TokenBucketRateLimiter.ts:33-60 | for any largest capacity, and a largest rate of whole tokens per millisecond, all runs keep all windows iff the times to live cover the capacity's whole part |
| MixedPresets.GatewayDefaultsKeepWindows | apps/api-gateway/src/ratelimit/presets.ts:3-12 | the gateway's two default presets on one key never exceed 100 + 1.6667 * W |
| CircuitBreaker.Configure | packages/resilience/src/circuit-breaker/CircuitBreaker.ts:35-68 | accepts exactly the finite options in range, with the defaults 5, 30000, 1 and 5000, and floors the two counts; the error names the first option out of range |
| CircuitBreaker.CircuitBreaker.Begin | packages/resilience/src/circuit-breaker/CircuitBreaker.ts:76-95 | the new state and the admission are those of `Admit` on the old state |
| CircuitBreaker.CircuitBreaker.HandleSuccess | packages/resilience/src/circuit-breaker/CircuitBreaker.ts:135-144 | the new state is `Succeed` of the old one |
| CircuitBreaker.CircuitBreaker.HandleFailure | packages/resilience/src/circuit-breaker/CircuitBreaker.ts:149-169 | the new state is `Fail` of the old one |
| CircuitBreaker.CircuitBreaker.TransitionTo | packages/resilience/src/circuit-breaker/CircuitBreaker.ts:174-189 | which fields each transition resets |
| BreakerSteps.ExecuteAdmits | packages/resilience/src/circuit-breaker/CircuitBreaker.ts:76-130 | in every reachable state: CLOSED lets every call through; OPEN lets one through iff the recovery timeout has elapsed since the last opening; HALF_OPEN iff this visit has room; a refused call starts nothing |
| BreakerSteps.PollRecovers | packages/resilience/src/circuit-breaker/CircuitBreaker.ts:118-130 | getState moves OPEN to HALF_OPEN iff the recovery timeout has elapsed, and changes nothing else |
| BreakerSteps.SettleMoves | packages/resilience/src/circuit-breaker/CircuitBreaker.ts:135-169 | which settled call moves which state where, and the failure count after it |
| BreakerRuns.StepKeepsInv | packages/resilience/src/circuit-breaker/CircuitBreaker.ts:76-190 | every step of every interleaving keeps the counters tied to the history, the openings spaced and the probes counted |
| BreakerTheorems.FailureCountIsHistory | packages/resilience/src/circuit-breaker/CircuitBreaker.ts:135-190 | failureCount is the failures settled since the later of the last transition and the last ordinary success while CLOSED and 0 otherwise; openedAt is null iff CLOSED and else the last opening |
| BreakerTheorems.OpensExactlyAtThreshold | packages/resilience/src/circuit-breaker/CircuitBreaker.ts:154-168 | from CLOSED only a failure opens the breaker, and exactly the failureThreshold-th |
| BreakerTheorems.OpeningsAreSpaced | packages/resilience/src/circuit-breaker/CircuitBreaker.ts:123-130 | any two openings are at least recoveryTimeoutMs apart |
| BreakerTheorems.HalfOpenCountsItsOwnProbes | packages/resilience/src/circuit-breaker/CircuitBreaker.ts:85-95 | in HALF_OPEN inFlightProbes is the unsettled probes of this visit and the calls it started, at most halfOpenMaxTrials; a full HALF_OPEN has a live probe |
| BreakerTheorems.VisitEndsWithinTimeout | packages/resilience/src/circuit-breaker/CircuitBreaker.ts:97-109 | while a visit lasts its probes stay unsettled, so with a timeout it ends within the timer's time of any of them, at most timeoutMs from 1 ms on |
| BreakerTheorems.SafeConfigsEndOwnVisits | packages/resilience/src/circuit-breaker/CircuitBreaker.ts:76-199 | with one trial or a timeout that fires before the recovery, every visit is ended by its own probe and no earlier probe is unsettled in it; with the short timeout nothing older is |
| BreakerTheorems.LeftoverEndsVisit | packages/resilience/src/circuit-breaker/CircuitBreaker.ts:135-162 | every other configuration has a run in which an earlier visit's probe ends a visit |
| BreakerTheorems.VisitsEndByOwnProbesIff | packages/resilience/src/circuit-breaker/CircuitBreaker.ts:76-199 | visits end by their own probes on every interleaving iff halfOpenMaxTrials is 1 or calls have a timeout that fires before the recovery |
| BreakerTheorems.ShortTimeoutTimesOutFirst | packages/resilience/src/circuit-breaker/CircuitBreaker.ts:97-130 | that is so for every timeoutMs from 1 ms up to, but not reaching, recoveryTimeoutMs |
| BreakerTheorems.LongTimeoutTimesOutLast | packages/resilience/src/circuit-breaker/CircuitBreaker.ts:97-130 | for any timeoutMs that a timer can hold, that is so iff it is shorter than the recovery timeout, rounded up |
| BreakerTheorems.GatewayBreakersAreSafe | apps/api-gateway/src/resilience/breakerRegistry.ts:25-30 | the gateway's settings never let an older call settle in a HALF_OPEN visit |
| BreakerTheorems.DeadUpstreamLoad | packages/resilience/src/circuit-breaker/CircuitBreaker.ts:76-190 | once open, and while every settled call fails, at most halfOpenMaxTrials calls start per full recovery timeout since the opening |
| BreakerLoad.LoadBoundIsReached | packages/resilience/src/circuit-breaker/CircuitBreaker.ts:76-190 | for every configuration and number of recovery timeouts, a run with a dead upstream in which exactly that many calls start |
| BreakerRuns.ClockRuleIsTimeout | packages/resilience/src/circuit-breaker/CircuitBreaker.ts:97-109 | the breaker's clock rule allows a time iff every unsettled call can still be in its race with the timer then |
| Timeout.WithTimeout | packages/resilience/src/timeout/withTimeout.ts:12-31 | when the race is over (when the promise settles or the timer fires, with setTimeout's conversion of the delay), a promise that settles in time keeps its outcome, a timeout comes exactly when the timer fires, and no timer stays armed |
| Idempotency.KeysAreDistinct | apps/notification-service/src/constants/idempotency.constants.ts:5-8 | two events share a key iff they have the same keyspace and id |
| Idempotency.KeysAreSpelled | apps/notification-service/src/constants/idempotency.constants.ts:5-8 | the exact keys of both keyspaces |
| Idempotency.IdempotencyRepository.ReserveIfNew | apps/notification-service/src/repositories/idempotency.repository.ts:51-60 | wins iff no unexpired key is there, and then holds PROCESSING for the lease |
| Idempotency.IdempotencyRepository.MarkProcessed | apps/notification-service/src/repositories/idempotency.repository.ts:62-69 | overwrites the key with PROCESSED and the full time to live |
| Idempotency.IdempotencyRepository.ReleaseReservation | apps/notification-service/src/repositories/idempotency.repository.ts:71-78 | deletes the key only while it reads PROCESSING |
| Idempotency.NotificationService.Process | apps/notification-service/src/services/otp-notification.service.ts:40-79 | which status comes back exactly when (duplicate iff an unexpired key exists), and the exact key space left behind on every path |
| IdempotencyRuns.SendsAreConserved | apps/notification-service/src/services/otp-notification.service.ts:61-78 | with no timing assumption, sends of an event = marks + workers lost after sending + workers about to mark |
| IdempotencyRuns.ProcessedIsSticky | apps/notification-service/src/repositories/idempotency.repository.ts:8-14 | from a mark until its time to live ends, under every interleaving, reserves fail and releases change nothing |
| IdempotencyRuns.TimedRun | apps/notification-service/src/repositories/idempotency.repository.ts:51-78 | while the live workers on an event finish within their lease, each holds its own unexpired reservation and work starts only after the last mark has run out |
| IdempotencyRuns.OneWorkerPerEvent | apps/notification-service/src/repositories/idempotency.repository.ts:51-78 | under the same condition at most one worker per event is between reserve and mark or release, and none while the marker runs |
| IdempotencyRuns.SendsAreBounded | apps/notification-service/src/services/welcome-notification.service.ts:39-79 | under the same condition an event is sent at most once beyond the lost workers until its first marker runs out, and once more per full time to live after that |
| IdempotencyOverlaps.OverlapIffOverdue | apps/notification-service/src/repositories/idempotency.repository.ts:20-25 | while the workers on an event are on time, letting time pass leaves room for a second worker on it iff it takes a live one past its lease |
| IdempotencyOverlaps.NeverOverlapsIffTimely | apps/notification-service/src/repositories/idempotency.repository.ts:20-25 | a run never lets a second worker in on an event, at any point, iff the live workers on it finish within their lease |
| IdempotencyOverlaps.SentTwiceIffOverdue | apps/notification-service/src/services/otp-notification.service.ts:44-75 | while the workers on a never-marked event are on time, a wait makes more sends possible at once than one plus the lost ones, iff it takes a live worker on the event past its lease |
| IdempotencyOverlaps.LateReleaseFreesTheHolder | apps/notification-service/src/repositories/idempotency.repository.ts:71-78 | for every lease, a run in which a late release deletes the next worker's reservation, a third gets in beside it, and the event is sent twice with no worker lost |
| IdempotencyOverlaps.OnlySentEventsAreSuppressed | apps/notification-service/src/services/otp-notification.service.ts:44-78 | with no timing assumption, a delivery is turned away only while a reservation is there or after the event was sent |
| Sessions.AuthService.Login | apps/user-service/src/services/auth.service.ts:103-165 | writes the session and indexes it with a renewed time to live; bad credentials change nothing |
| Sessions.AuthService.RefreshTokens | apps/user-service/src/services/auth.service.ts:217-313 | each outcome and the state it leaves, in the order of the source's checks |
| Sessions.AuthService.GetSessions | apps/user-service/src/services/auth.service.ts:324-339 | the loop returns exactly the indexed sessions that are still alive, without their token hashes |
| Sessions.AuthService.RevokeSession | apps/user-service/src/services/auth.service.ts:353-374 | ends a session only for its owner |
| Sessions.AuthService.LogoutAll | apps/user-service/src/services/auth.service.ts:404-421 | deletes every indexed session and the index |
| Sessions.AuthService.CheckSession | apps/user-service/src/middleware/session.middleware.ts:9-50 | renews a live session and its owner's live index, or refuses |
| SessionSteps.LoginStarts | apps/user-service/src/services/auth.service.ts:128-165 | in every run a login starts a live session with these fields and a time to live of 30 days, lists it, and issues its two tokens |
| SessionSteps.CheckPassesIffLive | apps/user-service/src/middleware/session.middleware.ts:21-49 | in every run a session check passes iff the session is live; it moves the last use and both expiries and nothing else |
| SessionSteps.RevokeEndsForOwner | apps/user-service/src/services/auth.service.ts:353-374 | in every run a revoke ends and unlists exactly that session for its owner, is refused for anyone else, and ignores a session that is gone |
| SessionSteps.LogoutEnds | apps/user-service/src/services/auth.service.ts:386-392 | in every run a logout ends and unlists exactly the session its token names |
| SessionSteps.LogoutAllEnds | apps/user-service/src/services/auth.service.ts:404-421 | deletes exactly the listed records and the list |
| SessionSteps.RefreshAnswers | apps/user-service/src/services/auth.service.ts:235-305 | in every run the answer to a refresh and what it leaves, case by case: wrong kind, session gone, other device (which ends the session), old token (which ends all listed ones), no user, or the rotated token and renewed record |
| SessionRuns.RefreshOutcome | apps/user-service/src/services/auth.service.ts:235-305 | a refresh goes through iff it presents the session's current token from its own device; every refusal is one of no change, logout, logout of all |
| SessionRuns.RunKeepsOwned | apps/user-service/src/services/auth.service.ts:128-165 | in every run tokens, records and indexes agree on who owns a session and which token is current |
| SessionTheorems.IndexedIffCovered | apps/user-service/src/services/auth.service.ts:153-165 | a live session is in its owner's live index iff since its login the owner never went a full time to live between logins and passed checks |
| SessionTheorems.SessionsListed | apps/user-service/src/services/auth.service.ts:324-339 | getSessions returns exactly the user's live sessions of that kind |
| SessionTheorems.LogoutAllLeavesOnlyUncovered | apps/user-service/src/services/auth.service.ts:404-421 | logoutAll leaves exactly the user's live sessions that had dropped out of the index, and every other user's |
| SessionTheorems.IndexIsExactUnlessLapsed | apps/user-service/src/middleware/session.middleware.ts:23-47 | for a user who never lapsed, getSessions returns exactly the live sessions and logoutAll leaves none |
| SessionTheorems.UsersAreIsolated | apps/user-service/src/services/auth.service.ts:353-421 | no call for one user starts, ends or changes another user's sessions or list |
| SessionTheorems.ListedExpiryIsRightIffUnused | apps/user-service/src/services/auth.service.ts:142-158 | a record lives one time to live from its last use; the expiry it lists is right iff the last use is at the time of the login |
| SessionLifetimes.EndedSessionStaysEnded | apps/user-service/src/services/auth.service.ts:243-276 | a session that expired, was revoked or logged out never comes back: in every continuation refreshes and session checks are refused |
| SessionLifetimes.RefreshedSessionOutlivesIndex | apps/user-service/src/services/auth.service.ts:297-302 | a run, within the default token lifetimes, that ends with a live session which getSessions does not list and logoutAll does not end, and whose token still refreshes afterwards |
| TokenRotation.AcceptsOnlyCurrentToken | apps/user-service/src/services/auth.service.ts:246-302 | in every run a refresh is accepted iff it presents the token last issued for a live session, with the login's fingerprint |
| TokenRotation.TokensAreAcceptedOnce | apps/user-service/src/services/auth.service.ts:278-302 | when every rotation signs a token not signed before, no refresh token is accepted twice in any run |
| TokenRotation.SecondAcceptanceIffSignedBefore | apps/user-service/src/services/auth.service.ts:278-302 | in every run the token a rotation signs is accepted next, and was accepted before iff it was signed before |
| TokenRotation.SingleUseIffFresh | apps/user-service/src/services/auth.service.ts:261-302 | at no point of a run would a spent token be accepted again, iff all rotations of the run signed afresh |
| TokenRotation.SingleUseIffLaterSeconds | apps/user-service/src/services/auth.service.ts:73-81 | with a signer that adds no nonce, that is iff no session is refreshed in the second its token was issued in |
| TokenRotation.ReplayWorksIffSameSigning | apps/user-service/src/services/auth.service.ts:73-81 | after a rotation the old token is accepted again iff the signer produced the same token |
| TokenRotation.ReuseEndsCoveredSessions | apps/user-service/src/services/auth.service.ts:261-276 | presenting an earlier token from its own device ends every indexed session of that user and no other user's |
| TokenRotation.RegistrationTokensNeverRefresh | apps/user-service/src/services/auth.service.ts:592-604 | no refresh or session check ever accepts a token issued at registration |
| Registration.OtpService.StoreOtp | apps/user-service/src/services/otp.service.ts:27-52 | counts the request, refuses beyond the limit, else stores the OTP |
| Registration.OtpService.VerifyOtp | apps/user-service/src/services/otp.service.ts:93-133 | each outcome and the keys it leaves |
| Registration.RegistrationService.SendOtp | apps/user-service/src/services/auth.service.ts:458-509 | succeeds iff the OTP was stored and published; a failed publish removes both keys |
| Registration.RegistrationService.VerifyAndRegister | apps/user-service/src/services/auth.service.ts:531-562 | the outcome, the keys and the user table after it |
| RegistrationSteps.RequestGrantedIff | apps/user-service/src/services/otp.service.ts:27-52 | in every run a request is granted iff the email is not registered and fewer than five OTPs were stored in the running window; it stores that OTP for the time to live |
| RegistrationSteps.SendOtpFinishes | apps/user-service/src/services/auth.service.ts:478-508 | the data is kept for the time to live; a failed publish removes both keys and a good one none |
| RegistrationSteps.VerifyAnswers | apps/user-service/src/services/auth.service.ts:531-562 | in every run the answer to a verification and what it leaves, case by case |
| RegistrationRuns.VerifyCounts | apps/user-service/src/services/otp.service.ts:101-132 | the attempts key holds the current run of wrong guesses and outlives the OTP; the outcome as a function of that run |
| RegistrationTheorems.FiveWrongGuessesLock | apps/user-service/src/services/otp.service.ts:93-133 | in every run at most five consecutive wrong comparisons; the sixth attempt is refused unseen and deletes the OTP |
| RegistrationTheorems.GoneOtpStaysGone | apps/user-service/src/services/otp.service.ts:94-99 | an expired, locked, used or rolled-back OTP never comes back |
| RegistrationTheorems.FiveOtpsPerWindow | apps/user-service/src/services/otp.service.ts:28-44 | at most five OTPs per email in one counter window |
| RegistrationTheorems.NineOtpsPerHour | apps/user-service/src/services/otp.service.ts:20-44 | at most nine OTPs per email in any 3600 s, both ends counted |
| RegistrationLimits.NineAreReached | apps/user-service/src/services/otp.service.ts:27-52 | a run that stores nine OTPs for one email within two milliseconds |
| RegistrationLimits.HourlyLimitIsExact | apps/user-service/src/services/otp.service.ts:20-44 | for every length from 2 ms to 3600 s with both ends counted, a limit holds in every stretch of that length of every run iff it is at least nine |
| RegistrationTheorems.UsersComeFromSendOtp | apps/user-service/src/services/auth.service.ts:531-590 | every user was created from the data sendOtp stored under that session id, on that session's OTP |
| RegistrationTheorems.ReturnedSessionsAreComplete | apps/user-service/src/services/auth.service.ts:469-508 | for a returned session id a live OTP implies its live registration data; after a failed publish neither key is left |
| RegistrationTheorems.RightOtpRegisters | apps/user-service/src/services/auth.service.ts:535-561 | a returned session registers its user iff the OTP is alive, not locked and right and the email is free |
| Backoff.WithExponentialBackoff | packages/resilience/src/retry/ExponentialBackoff.ts:10-57 | returns the first success, or the last error after min(floor(retries), 50) + 1 calls, 4 by default; the delays start at the clamped initial one and double up to the cap; rejects exactly the options out of range, naming the first |
| Backoff.DelaysNeverDecrease | packages/resilience/src/retry/ExponentialBackoff.ts:54-54 | delays are positive, never decrease and never exceed maxMs |
| Backoff.SleptTotal | packages/resilience/src/retry/ExponentialBackoff.ts:31-57 | the time slept is a doubling sum cut off at maxMs, at most 50 * 60000 ms |

## Left out

- Redis, Kafka, Prisma, SendGrid, bcrypt, JWT and SHA-256 internals, EVALSHA with its NOSCRIPT fallback and the cached
  script hash, and connection handling.
- Floating-point and string rounding of tokens in Lua, and clocks that go back.
- `packages/ratelimit/src/token-bucket/lua/increment-token.lua` is the embedded script again and is modelled once.
- `onStateChange` callbacks, `CircuitBreakerRegistry`, routing, health checks, environment parsing, loggers, telemetry,
  mappers, templates and error-code tables: thin code with only easy claims.
- Express plumbing, cookies and graceful shutdown.
- Command-level interleaving inside `login`, `refresh`, `logoutAll`, the session check and the verification of an OTP:
  the code takes no lock there, and the model treats each of these calls as one step.
- MixedPresets.WindowsHoldIffTtlsCoverRefill: the converse is stated for whole-number capacities, and
  `WholeRateWindowsHoldIff` gives the condition for every capacity at whole tokens per millisecond. For a fractional
  capacity at other rates the condition is only shown sufficient, and necessary up to what two drains leave unused
  (`ShortTtlBreaksWindow`); the exact one would depend on the fractions that a rate adds per millisecond.
- Sessions.AuthService.GetSessions: returns a set, so the order in which Redis lists the ids is not modelled.
- Deleting users: users are only ever added, and a refresh for a missing user is a parameter.
