# Verified model of the auth gateway, its reconciliation queue and two text algorithms

This project models the stateful parts of a writing-assistant back end: a Rust auth
gateway (refresh-token rotation, sessions, token blacklist, request admission, rate
limiting, key cache, risk scoring, the in-memory Redis), the retry queue that the gateway
and the Next.js application share, the application's own rate limiter, and two pieces of
TypeScript text handling (the grammar overlay and the stream reader of smart compose).
Every property below is a statement for all inputs or all runs.

Three shapes recur.

* **Protocols.** Where several callers, workers or requests share Redis keys and database
  rows, a `World` holds the stores and a program counter per caller, `Step` performs one
  atomic command, and `Run` any sequence of them. Callers stop anywhere (a crash), commands
  fail or take effect and lose their reply, cache entries and locks vanish, time passes. An action that is not enabled changes
  nothing, so theorems over all action sequences are theorems over all interleavings.
* **Objects.** Where one call at a time changes a store, a class carries the source's
  fields and methods. Each method is proved to do what a function on the store's value
  says, and the theorems are about those functions.
* **Algorithms.** Loops are methods with invariants, proved against a specification that
  does not mention the loop.

Identifiers that are only compared (token hashes, session ids, addresses) are integers.
A failing or forgetful store is a Boolean or an action chosen by the environment.

| files | part of the system |
|---|---|
| `RefreshTable`, `RefreshChains`, `RefreshRotation`, `RefreshTheorems`, `RefreshCascade`, `RefreshLocks` | rotation of refresh tokens over lock, database transaction and cache |
| `RefreshRedisOnly` | rotation without a database |
| `ReconQueue`, `ReconTheorems`, `ReconUniqueness`, `ReconEnqueue`, `ReconLocks`, `ReconProgress` | the reconciliation queue |
| `ReconExecute`, `ReconEffects`, `SessionVersions` | what its operations do, and session versions |
| `Sessions`, `SessionTheorems`, `SessionRows`, `SessionLookup` | the session store with and without a database |
| `Blacklist`, `Admission`, `AdmissionTheorems`, `AdmissionAnswers` | token revocation and `require_auth` |
| `TokenBucket`, `FixedWindow` | the two rate limiters |
| `MemoryRedis`, `Decimal` | the in-memory Redis and its counters |
| `Jwks` | the signing-key cache |
| `Risk` | the risk engine |
| `Grammar`, `Overlay`, `OverlayTheorems`, `LineBuffer` | issue collection, highlighting, stream lines |

What the proofs found, where code and comments differ or a claim needs a condition:

* Operations on the queue are called idempotent. Executing one twice leaves the same state,
  but the session limit makes the second report of a `session_sync` fail exactly when the
  first took the user's last place (`ReconExecute.SecondReportFailsExactlyWhen`). And a retry
  repairs a failed attempt exactly when the attempt did not stop between writing a session
  key and counting it, in the middle of a rollback or of a logout, or after a commit that
  took the last place (`ReconExecute.RetryRepairsExactlyWhen`).
* A script that has executed an operation and deleted its key, but fails to delete its lock,
  queues the operation again; in between the gateway may have accepted another of the same
  id (`ReconUniqueness.FailedUnlockAdmitsTwo`). Uniqueness holds through a run if and only if
  no such step and no late acceptance occurs (`ReconUniqueness.UniqueExactlyWhen`). The
  application's check-then-set guard is as good as the gateway's as long as nobody looks for
  the key in between (`ReconUniqueness.OneInFlightPerId`, `ReconUniqueness.SplitGuardAdmitsTwo`).
* A revocation executed by the application's worker writes the Redis key only, so it does not
  survive the loss of that key (`ReconExecute.DurableExactlyWhen`).
* A logout stops a delayed sync exactly when the sync has not yet read its version
  (`SessionVersions.SyncCreatesExactlyWhen`); executed after it, the sync changes nothing
  (`ReconEffects.LogoutStopsExecution`).
* Without a database the session counter covers every live session, and stays within the
  limit, after exactly the failures listed in `SafeLower` and `SafeUpper`
  (`SessionTheorems.LowerKeptExactlyWhen`, `SessionTheorems.UpperKeptExactlyWhen`).
* A clock that steps back can exceed the token bucket's bound if and only if the burst is at
  least two (`TokenBucket.AnyClockExactlyWhen`).
* `ON CONFLICT DO NOTHING` keeps an earlier, even an expired, blacklist row, so a revocation
  holds until the time it asked for if and only if no shorter row was there
  (`AdmissionTheorems.HonouredExactlyWhen`). Revocations computed from a token's own expiry
  are never affected (`AdmissionTheorems.RevokedTokenStaysOut`).
* A replay refused by the pre-flight check revokes nothing; the cascade starts exactly when
  the cache still shows the token as usable (`RefreshTheorems.ReplayCascadesIffCacheIsStale`), and then it revokes every row of the user
  (`RefreshCascade.ReplayRevokesEverything`).
* Without a database the five-second lock is all that keeps two rotations apart
  (`RefreshRedisOnly.RotatedOnceUnderLock`); after one success another follows, in some
  continuation, if and only if a second caller has already read the token as usable
  (`RefreshRedisOnly.SecondSucceedsExactlyWhen`).
* A cached session can be accepted for a fraction of a second after its row expired, because
  the table compares whole seconds (`SessionTheorems.CacheOutlivesRow`).
* The fixed window admits at most 2 * max - 1 calls in sixty seconds, and does reach that
  (`FixedWindow.SpanBound`, `FixedWindow.BoundIsReached`).
* `failed_attempts` is commented as reset on successful authentication; it is reset by every
  evaluation (`Risk.SecondLookIsClean`).
* The overlay reproduces the text if and only if every issue it draws quotes its range
  exactly; two rules of the checker trim their quotation, and lose a leading space
  (`OverlayTheorems.TextKeptExactlyWhen`, `OverlayTheorems.RuleNineLosesTheSpace`).

## Model

| member | source | states |
|---|---|---|
| RefreshTable.RefreshTokens.RotateRefreshTokenTx | rust-auth-gateway/src/db.rs:439-528 | the transaction goes through exactly when the committed row is unrevoked and unexpired, then spends it, adds the successor and closes the gate; otherwise nothing changes |
| RefreshTable.RefreshTokens.InsertRefreshToken | rust-auth-gateway/src/db.rs:374-430 | adds a fresh row unless the hash is taken; no row moves back |
| RefreshTable.RefreshTokens.RevokeRefreshToken | rust-auth-gateway/src/db.rs:565-590 | revokes one row and leaves an already revoked one untouched |
| RefreshTable.RefreshTokens.RevokeAllForUser | rust-auth-gateway/src/db.rs:604-622 | revokes every row of the user and no other, and returns how many it changed |
| RefreshRotation.StepKeepsInv | rust-auth-gateway/src/refresh_store.rs:273-484 | every atomic step of issue, validate, rotate, cascade and revoke, every failed Redis write, expired lock, lost cache entry and crash keeps the protocol invariant and moves rows forward only |
| RefreshChains.RotateKeepsLinked | rust-auth-gateway/src/db.rs:449-527 | spending an unrevoked row and adding its successor keeps the pointers acyclic, unmerged and within one owner |
| RefreshChains.NoCycle | rust-auth-gateway/src/db.rs:449-527 | in a linked table following pointers never returns to the start |
| RefreshChains.ChainsDisjoint | rust-auth-gateway/src/db.rs:449-527 | in a linked table two chains that meet are one |
| RefreshChains.AtMostOneLive | rust-auth-gateway/src/db.rs:449-527 | in a linked table a chain has at most one unrevoked row |
| RefreshTheorems.RowsOnlyMoveForward | rust-auth-gateway/src/refresh_store.rs:273-484 | on every interleaving a row stays, keeps its owner and expiry, `revoked` never returns to false and `rotated_to` is written at most once |
| RefreshTheorems.RotatedAtMostOnce | rust-auth-gateway/src/refresh_store.rs:339-470 | two calls that committed a rotation of the same row, at whatever times, are one call: the database gate carries this although the lock may expire or be released by another |
| RefreshTheorems.ReportedRotationIsDurable | rust-auth-gateway/src/refresh_store.rs:398-470 | a rotation reported as successful is in the table in every later state |
| RefreshTheorems.ChainsAreSound | rust-auth-gateway/src/refresh_store.rs:352-418 | in every reachable table, following `rotated_to` reaches existing rows of the root's user and device, never comes back, and leaves only revoked rows behind |
| RefreshTheorems.PointersNeverDangle | rust-auth-gateway/src/db.rs:449-527 | a row with a successor is revoked and the successor exists, crashes inside the transaction included |
| RefreshTheorems.ChainsNeverMerge | rust-auth-gateway/src/db.rs:449-527 | two chains that meet are one chain |
| RefreshTheorems.OneLiveRowPerChain | rust-auth-gateway/src/db.rs:449-527 | a chain has at most one unrevoked row |
| RefreshTheorems.ValidateNamesTheOwner | rust-auth-gateway/src/refresh_store.rs:167-260 | a record accepted by validate, cached or not, carries the user and device of the committed row |
| RefreshTheorems.CascadeIsFinal | rust-auth-gateway/src/db.rs:604-622 | once a replay's cascade is done, every row its user had when it started is revoked and never changes again |
| RefreshTheorems.UndisturbedRotation | rust-auth-gateway/src/refresh_store.rs:273-484 | a rotation left alone with healthy stores spends the old row, adds the new one and updates the cache |
| RefreshTheorems.ReplayCascadesIffCacheIsStale | rust-auth-gateway/src/refresh_store.rs:352-460 | a token that can no longer rotate triggers the cascade if and only if the cache holds a usable record of it; otherwise the pre-flight check refuses and the table is left alone |
| RefreshCascade.CascadeCompletes | rust-auth-gateway/src/refresh_store.rs:420-439 | a cascade left alone with healthy stores, in whatever order it takes the rows, ends with every row of the user revoked and every other row as it was, reports exactly the rows of that user, and frees the lock |
| RefreshCascade.ReplayRevokesEverything | rust-auth-gateway/src/refresh_store.rs:352-439 | in every reachable state, a spent token presented again while the cache still shows it as usable ends so: all rows of the token's user are revoked |
| RefreshCascade.RevocationRevokes | rust-auth-gateway/src/refresh_store.rs:555-605 | a revocation left alone marks the row and the cached record, and nothing else |
| RefreshCascade.ValidationAccepts | rust-auth-gateway/src/refresh_store.rs:167-260 | a validation left alone accepts exactly an unrevoked and unexpired record, the cached one or else the row, answers it, and caches an accepted row |
| RefreshCascade.RevokedIsRefused | rust-auth-gateway/src/refresh_store.rs:555-605 | after a revocation left alone a validation left alone refuses the token |
| RefreshCascade.IssueStores | rust-auth-gateway/src/refresh_store.rs:106-160 | an issue left alone stores a fresh record in table and cache |
| RefreshLocks.OneRotationAtATime | rust-auth-gateway/src/refresh_store.rs:281-304 | on every interleaving in which the lock of a token does not expire, at most one rotation of it is under way, and the lock is there as long |
| RefreshLocks.TakenIsRefused | rust-auth-gateway/src/refresh_store.rs:284-295 | a token whose lock is taken is refused at once |
| RefreshRedisOnly.SpentIsFinal | rust-auth-gateway/src/refresh_store.rs:488-551 | without a database: once a record is spent or revoked, or lost after that, no rotation that had not read it before succeeds, whatever becomes of the locks |
| RefreshRedisOnly.RotatedOnceUnderLock | rust-auth-gateway/src/refresh_store.rs:273-304 | without a database a token is rotated at most once on every interleaving in which no lock expires under its holder |
| RefreshRedisOnly.SecondSucceedsExactlyWhen | rust-auth-gateway/src/refresh_store.rs:488-551 | in every reachable state in which one call has spent the record, another call on that token can still succeed in some continuation if and only if it has already read the record as usable |
| RefreshRedisOnly.RotatedAgainExactlyWhen | rust-auth-gateway/src/refresh_store.rs:273-304 | after a success a second one on the token can follow if and only if such a call is there, and that only when a lock expired under its holder |
| RefreshRedisOnly.ExpiredLockRotatesTwice | rust-auth-gateway/src/refresh_store.rs:488-551 | a run from the empty store in which a lock expires under its holder and two callers rotate one token |
| RefreshRedisOnly.RotatesExactlyWhen | rust-auth-gateway/src/refresh_store.rs:488-551 | without a database: a rotation left alone succeeds exactly if the record is there, unrevoked and unexpired, and then leaves it spent with its successor stored; otherwise the store is as it was |
| ReconQueue.StepKeepsInv | rust-auth-gateway/src/reconciliation.rs:151-376 | every queue step of the gateway's worker and of the application's, including lock expiry, failed commands, lost replies and crashes, keeps the account of attempts, delays and places |
| ReconTheorems.ExactlyOnePlace | rust-auth-gateway/src/reconciliation.rs:151-376 | at each moment an accepted operation is in exactly one place: enqueuer, pending set, one worker, dead-letter set, finished or lost |
| ReconTheorems.NothingIsLost | rust-auth-gateway/src/reconciliation.rs:252-376 | without crashes and failed commands no accepted operation is lost |
| ReconTheorems.ClaimedOnce | rust-auth-gateway/src/reconciliation.rs:272-302 | a queue member that has been claimed never returns, so it is executed by at most one worker whatever happens to the locks |
| ReconTheorems.RunLogGrows | lib/reconciliation-worker.ts:246-305 | on every run claims and runs of an operation are never uncounted and an ended operation stays ended; one that a script has executed ends only when its lock is deleted too |
| ReconTheorems.AttemptsAndDelays | rust-auth-gateway/src/reconciliation.rs:325-358 | an operation runs at most five times; a dead-lettered one ran exactly five times after delays of 1000 * (2^4 - 1) ms in all |
| ReconTheorems.ClaimedOnlyWhenDue | rust-auth-gateway/src/reconciliation.rs:252-300 | an entry is claimed only at or after its score, which leaves room for the whole backoff so far |
| ReconUniqueness.StepBreaksExactlyWhen | lib/reconciliation-worker.ts:153-165 | from a state with at most one operation of an id in flight, a step of any process of either language leads to two if and only if it accepts one, or a script puts one back, while another is in flight |
| ReconUniqueness.UniqueExactlyWhen | rust-auth-gateway/src/reconciliation.rs:151-204 | in every run at most one operation of an id is in flight throughout if and only if no step of the run is a breaking one |
| ReconUniqueness.AcceptanceBreaksExactlyWhen | rust-auth-gateway/src/reconciliation.rs:164-178 | the application's SETEX breaks uniqueness iff another operation of the id is in flight; the gateway's SET NX iff so and the key is no longer live or the command reported an error |
| ReconUniqueness.OneInFlightPerId | rust-auth-gateway/src/reconciliation.rs:151-204 | for one id, whatever happens to others and whichever language enqueues it: if nobody looks for its key between a script's check and its set, its keys are unexpired under its operations, and the clean-up deletions of scripts for it work, at most one operation of the id is in flight, under a live key |
| ReconUniqueness.FailedUnlockAdmitsTwo | lib/reconciliation-worker.ts:265-303 | a script that deletes its key but not its lock puts an executed operation back beside one the gateway accepted meanwhile |
| ReconUniqueness.UnlockIsReached | lib/reconciliation-worker.ts:216-266 | such a state is reached from the empty queue, for every id |
| ReconUniqueness.SplitGuardAdmitsTwo | lib/reconciliation-worker.ts:153-165 | for every id, a run in which the check-then-set guard admits two operations under one live key |
| ReconUniqueness.ExpiredKeyAdmitsTwo | rust-auth-gateway/src/reconciliation.rs:164-178 | for every id, a run in which a key that expires under an operation in flight admits a second one |
| ReconEnqueue.AcceptedExactlyWhen | lib/reconciliation-worker.ts:153-165 | an enqueue left alone, the application's or the gateway's, is accepted if and only if the id has no live key: a refusal leaves queue, keys and accounts as they were, an acceptance ends with the entry due at once under a key that lives for a day |
| ReconEnqueue.SecondIsRefused | rust-auth-gateway/src/reconciliation.rs:164-178 | so a second enqueue of the id within the day, through either guard, is refused |
| ReconLocks.OneWorkerPerId | rust-auth-gateway/src/reconciliation.rs:272-302 | on every run in which the lock of an id does not expire and no script loses the reply to its deletion, at most one worker of either language is at work on the id at a time, and its lock is there |
| ReconProgress.AlwaysFailingIsBuried | rust-auth-gateway/src/reconciliation.rs:252-376 | on an undisturbed worker an operation that fails every time is dead-lettered after exactly the remaining delays and one run per attempt left |
| ReconProgress.FifteenSeconds | rust-auth-gateway/src/reconciliation.rs:325-358 | a fresh operation that always fails is dead-lettered 15 s after it was due, having run five times |
| ReconProgress.FailureIsRetried | rust-auth-gateway/src/reconciliation.rs:350-374 | a failed attempt with tries left puts the entry back with its backoff as score |
| ReconProgress.LastFailureIsBuried | rust-auth-gateway/src/reconciliation.rs:325-349 | the fifth failure dead-letters the entry and frees its key and lock |
| ReconProgress.SuccessFinishes | rust-auth-gateway/src/reconciliation.rs:305-322 | a success ends the operation and frees its key and lock, with either worker |
| ReconExecute.Worker.Execute | rust-auth-gateway/src/reconciliation.rs:381-466 | the new state of both stores and the report for every operation, with each command failing or losing its reply on its own |
| ReconExecute.Worker.CurrentSessionVersion | rust-auth-gateway/src/reconciliation.rs:468-476 | the version of a session, zero without a key or with one that is no 64-bit number, or an error |
| ReconEffects.OtherVersionSkips | rust-auth-gateway/src/reconciliation.rs:394-402 | a sync that expects another version than the one that can be read changes nothing, whatever else would fail |
| ReconEffects.SyncCreatesExactlyWhen | rust-auth-gateway/src/reconciliation.rs:388-423 | with healthy stores and room for the session, the user's session is accepted afterwards if and only if the sync expects no version or the one that is there and has time left; otherwise nothing has changed |
| ReconEffects.LogoutStopsExecution | lib/reconciliation-worker.ts:347-375 | once a logout has written its target version, and after any calm run, executing a sync bound to a lower version changes nothing, whatever fails |
| ReconEffects.ExecutedExactlyAtItsVersion | rust-auth-gateway/src/reconciliation.rs:394-423 | a sync that has time and room left is carried out if and only if the run so far has reached exactly its version |
| ReconEffects.RevocationLists | rust-auth-gateway/src/reconciliation.rs:383-387 | an executed revocation lists the token in Redis for exactly its lifetime and in the table unless a row is there |
| ReconEffects.RevokeEndsSession | rust-auth-gateway/src/reconciliation.rs:424-452 | an executed session revocation leaves a session nobody is accepted for, and its unexpired token listed up to its expiry |
| ReconExecute.ExecuteTwiceIsOnce | rust-auth-gateway/src/reconciliation.rs:174-177 | executing any operation twice at one instant leaves sessions, counters and blacklist as executing it once, in both modes |
| ReconExecute.RetryRepairsExactlyWhen | rust-auth-gateway/src/reconciliation.rs:381-452 | after an attempt that failed, however far it got, one undisturbed retry ends where a single undisturbed execution would, with the same report, if and only if the attempt is none of the listed half-done ones |
| ReconExecute.RetryLogin | rust-auth-gateway/src/session_store.rs:174-226 | for a Redis-only login: not repaired iff the key was written but not counted, or it was over the limit and its rollback did not finish |
| ReconExecute.LostIncrement | rust-auth-gateway/src/session_store.rs:181-216 | a key written and an INCR that fails: the retry reports success and the session is never counted |
| ReconExecute.LostCommit | rust-auth-gateway/src/session_store.rs:133-172 | a commit that takes the user's last place and loses its reply: the retry is refused although the session exists |
| ReconExecute.DurableExactlyWhen | lib/reconciliation-worker.ts:338-345 | a finished revocation is still listed after its key is lost if and only if the table listed it before or the gateway's worker added a row that lasts; the application's worker adds none |
| ReconExecute.SecondReportFailsExactlyWhen | rust-auth-gateway/src/reconciliation.rs:388-431 | the second of two executions reports failure if and only if the first created the row that took the user's last place |
| SessionVersions.VersionsRise | lib/reconciliation-worker.ts:519-532 | with `setSessionVersion` as one step and unexpired keys, a version never decreases |
| SessionVersions.SyncCreatesExactlyWhen | lib/reconciliation-worker.ts:347-375 | when a logout with a higher target is enqueued, a sync that has not created its session yet still does so in some calm continuation if and only if it has already read its version and found it matching |
| SessionVersions.LogoutStopsSync | lib/reconciliation-worker.ts:347-351 | so a sync that has not read the version by then creates nothing in any run that follows |
| SessionVersions.LogoutStopsLaterSync | rust-auth-gateway/src/reconciliation.rs:388-402 | the same for a sync started after the logout |
| SessionVersions.FinishLowersExactlyWhen | lib/reconciliation-worker.ts:519-532 | a two-step set lowers the version if and only if a higher one was written since its read |
| SessionVersions.OverlappingSetsLower | lib/reconciliation-worker.ts:519-532 | two overlapping sets can end at the lower version |
| Sessions.SessionStore.CreateSession | rust-auth-gateway/src/session_store.rs:109-226 | new state and answer of a creation in both modes, with the limit, the ignored `inserted` flag, the rollback, and each command failing or losing its reply on its own |
| Sessions.SessionStore.CreateSessionGuarded | rust-auth-gateway/src/db.rs:147-216 | count and insert in one transaction, refused at the limit, with a commit that may lose its reply |
| Sessions.SessionStore.IncrementUserSessionCount | rust-auth-gateway/src/session_store.rs:73-83 | one more than the live count, expiry renewed |
| Sessions.SessionStore.DecrementUserSessionCount | rust-auth-gateway/src/session_store.rs:85-95 | one less, never below zero, expiry kept |
| Sessions.SessionStore.ValidateSession | rust-auth-gateway/src/session_store.rs:230-312 | new state and answer of a lookup in both modes: cache, table, rehydration |
| Sessions.SessionStore.RevokeSession | rust-auth-gateway/src/session_store.rs:340-400 | new state of a revocation: row, cache entry, counter, with a decrement whose failure is ignored |
| SessionTheorems.ValidateIsTheRow | rust-auth-gateway/src/session_store.rs:230-312 | with ids created once and no revocation that reaches the table but not the cache entry, validate accepts exactly an existing, unrevoked, unexpired row of the user and returns its data, whatever Redis lost or refused; the one difference is the second in which the row expires |
| SessionRows.TableLookup | rust-auth-gateway/src/session_store.rs:270-312 | whatever fails and whatever Redis loses, a lookup that goes to the table accepts exactly if the session was created for that user, no revocation reached the table since and its lifetime has not passed, and answers the data it was created with |
| SessionRows.AnyLookup | rust-auth-gateway/src/session_store.rs:230-312 | with cache and table in agreement the same holds of every lookup, but for the last second of the row |
| SessionRows.AcceptedSurvivesOutage | rust-auth-gateway/src/session_store.rs:285-312 | a session the table vouched for is accepted from Redis alone, with the database down, until its row expires |
| SessionRows.NewSessionSurvivesOutage | rust-auth-gateway/src/session_store.rs:118-172 | a new session is accepted so for the lifetime it was asked for |
| SessionLookup.LookupFindsTheLogin | rust-auth-gateway/src/session_store.rs:230-262 | without a database, on every run of logins with their own lifetimes and limits, logouts, lost entries and waits, whatever fails in them: a lookup accepts exactly if the session stands on a login of that very user, which found no other, was not taken back, logged out or lost, and has not expired; it answers that login's record |
| SessionLookup.LookupAfterRun | rust-auth-gateway/src/session_store.rs:230-262 | the same on the runs of one lifetime and limit |
| SessionLookup.OneStands | rust-auth-gateway/src/session_store.rs:181-203 | at most one login of an id stands at a time |
| SessionLookup.LogoutUndoesLogin | rust-auth-gateway/src/session_store.rs:174-226 | a logout undoes a login: no entry is left and every counter is where it was |
| SessionTheorems.RevokeExactly | rust-auth-gateway/src/session_store.rs:340-400 | a revocation keeps cache and table in agreement exactly if nothing was cached, the table was not reached, or the entry was taken away too |
| SessionTheorems.DbStepKeepsCoherent | rust-auth-gateway/src/session_store.rs:118-172 | every operation keeps each cached entry a copy of an unrevoked row that expires within the row's last second |
| SessionTheorems.CacheOutlivesRow | rust-auth-gateway/src/session_store.rs:245-312 | a run in which the cached entry outlives the row within the same second |
| SessionTheorems.RecreateExactly | rust-auth-gateway/src/session_store.rs:118-172 | creating an id again keeps cache and table in agreement exactly under the stated condition |
| SessionTheorems.ActiveSessionsWithinLimit | rust-auth-gateway/src/db.rs:147-216 | with count and insert as one transaction a user's active rows never exceed the limit |
| SessionTheorems.LogoutKeepsCounts | rust-auth-gateway/src/session_store.rs:340-400 | a logout, whatever of it fails, keeps every live session counted and the counter within the limit, and never decrements it at zero |
| SessionTheorems.CounterCoversSessions | rust-auth-gateway/src/session_store.rs:174-226 | without a database, with one TTL, every live session is counted at every moment of every run whose logins fail in the safe ways only, through rollbacks, logouts and expiries |
| SessionTheorems.CounterWithinLimit | rust-auth-gateway/src/session_store.rs:174-226 | ... and the counter never exceeds the limit |
| SessionTheorems.LowerKeptExactlyWhen | rust-auth-gateway/src/session_store.rs:181-226 | for every limit: a login keeps every session counted, from every state within the bounds, if and only if its failing commands are among the safe ones |
| SessionTheorems.UpperKeptExactlyWhen | rust-auth-gateway/src/session_store.rs:213-223 | ... and keeps the counter within the limit if and only if neither the reply of INCR nor the rollback's DECR is lost |
| SessionTheorems.SessionsWithinLimit | rust-auth-gateway/src/session_store.rs:174-226 | hence the live sessions of a user never exceed the limit in such runs |
| TokenBucket.RateLimiter.Check | rust-auth-gateway/src/rate_limiter.rs:16-38 | decision, advice and stored bucket of one call, other keys untouched |
| TokenBucket.RateLimiter.New | rust-auth-gateway/src/rate_limiter.rs:78-98 | a limiter with a zero limit is refused |
| TokenBucket.StepRepresents | rust-auth-gateway/src/rate_limiter.rs:20-38 | one call keeps the stored bucket standing for the level that is refilled all the time |
| TokenBucket.SameDecisions | rust-auth-gateway/src/rate_limiter.rs:20-38 | the stored bucket, not written on denial and dropped after its TTL, decides every trace as a level that is refilled all the time and kept forever |
| TokenBucket.TtlFillsBucket | rust-auth-gateway/src/rate_limiter.rs:33 | a bucket older than its TTL would be full |
| TokenBucket.WindowBound | rust-auth-gateway/src/rate_limiter.rs:16-38 | in every trace with a non-decreasing clock a window of length T has at most burst + T * rate accepted calls |
| TokenBucket.WaitIsLeast | rust-auth-gateway/src/rate_limiter.rs:34-37 | the advised wait is the least whole number of seconds after which a retry is accepted, and at least one |
| TokenBucket.AnyClockExactlyWhen | rust-auth-gateway/src/rate_limiter.rs:28-36 | every window keeps to burst + length * rate on every trace, whatever the clock does, if and only if the burst is less than two |
| TokenBucket.SteppingBackRefills | rust-auth-gateway/src/rate_limiter.rs:28-33 | for every rate and every burst of at least two, a trace that exceeds the burst within a window of length zero |
| Blacklist.TokenBlacklist.Revoke | rust-auth-gateway/src/blacklist.rs:61-92 | row first, key second; which failures are reported and what each leaves behind |
| Blacklist.TokenBlacklist.IsBlacklisted | rust-auth-gateway/src/blacklist.rs:112-180 | "not listed" is answered exactly when the authority was read and has no live entry; a hit in the table refills the cache |
| Blacklist.RevocationLasts | rust-auth-gateway/src/blacklist.rs:61-92 | without a database a reported revocation is listed for exactly its lifetime while Redis keeps the key, and no other token is touched |
| AdmissionTheorems.AdmittedExactlyWhen | rust-auth-gateway/src/auth.rs:89-305 | a finished request was admitted if and only if every gate passed: limits, token, claims, risk, blacklist, session or allowed degradation, user limit, nonce |
| AdmissionAnswers.AdmittedWasAnswered | rust-auth-gateway/src/auth.rs:89-305 | on every run a request is admitted only if all gates opened to it, one after the other, by answers given in the run: door with both limits, bearer token and no firewall block, claims, risk, both blacklist stores, session or allowed degradation, user limit, nonce |
| AdmissionAnswers.AdmittedExactlyWhenAnswered | rust-auth-gateway/src/auth.rs:89-305 | on every run in which each gate answers the request once at most: it is admitted if and only if they all opened so |
| AdmissionTheorems.NoAdmissionAfterRevoke | rust-auth-gateway/src/auth.rs:183-221 | a request whose lookup comes after a revocation's commit is admitted only once the stored expiry has passed, whatever caches, session store and Redis do |
| AdmissionTheorems.RevokedTokenStaysOut | rust-auth-gateway/src/auth.rs:531-580 | when revocations ask for at least the token's expiry, a revoked token is let in only after that expiry, never on cached claims of the time, and only within the ten seconds of leeway of its validation |
| AdmissionTheorems.ListedWasRevoked | rust-auth-gateway/src/blacklist.rs:112-180 | only tokens some call set out to revoke are ever reported as listed |
| AdmissionTheorems.CalledByAction | rust-auth-gateway/src/auth.rs:131-135 | such a call is a revocation that names the token or a block of a request whose claims carry it |
| AdmissionTheorems.ListedByAction | rust-auth-gateway/src/blacklist.rs:112-180 | so every `Listed` answer goes back to such an action of the run |
| AdmissionTheorems.BlockRevokes | rust-auth-gateway/src/auth.rs:130-135 | a high-risk request is rejected, and its token is listed in table and Redis up to its expiry once the block's commands have run |
| AdmissionTheorems.FoundRowIsCached | rust-auth-gateway/src/blacklist.rs:150-180 | a row found by a lookup is put back into Redis, which lists the token by itself until the row expires |
| AdmissionTheorems.HonouredExactlyWhen | rust-auth-gateway/src/db.rs:282-308 | a revocation is honoured until the time it asked for, on every continuation, if and only if no row for the token lasted less |
| Admission.StepKeepsInv | rust-auth-gateway/src/auth.rs:89-305 | every step of requests and revocations keeps: unexpired commits are in the table, lookups tell the truth, nothing unrevoked is listed |
| MemoryRedis.InMemoryRedis.PruneExpired | rust-auth-gateway/src/redis_client.rs:567-575 | drops the key's own entry if it has expired, nothing else |
| MemoryRedis.InMemoryRedis.GetString | rust-auth-gateway/src/redis_client.rs:441-446 | the live value, or nothing for an absent or expired key |
| MemoryRedis.InMemoryRedis.GetAndDelete | rust-auth-gateway/src/redis_client.rs:448-453 | the live value, and the key is gone |
| MemoryRedis.InMemoryRedis.SetStringEx | rust-auth-gateway/src/redis_client.rs:455-463 | overwrites whatever is there, with a new expiry |
| MemoryRedis.InMemoryRedis.KeyExists | rust-auth-gateway/src/redis_client.rs:508-513 | whether the key is live |
| MemoryRedis.InMemoryRedis.Remove | rust-auth-gateway/src/redis_client.rs:515-519 | removes the key and counts it even when it had expired |
| MemoryRedis.InMemoryRedis.AtomicIncrEx | rust-auth-gateway/src/redis_client.rs:465-478 | increments, stores and reports as the lazy store's function says |
| MemoryRedis.InMemoryRedis.AtomicDecr | rust-auth-gateway/src/redis_client.rs:480-492 | decrements without going below zero and keeps the expiry |
| MemoryRedis.InMemoryRedis.SetStringNxEx | rust-auth-gateway/src/redis_client.rs:494-506 | sets only an absent or expired key |
| MemoryRedis.StepRefines | rust-auth-gateway/src/redis_client.rs:441-513 | one command on the lazily pruned map answers, and leaves, what it does on a map that drops expired keys at once; the count of a deletion differs exactly when the key was present but expired |
| MemoryRedis.RunRefines | rust-auth-gateway/src/redis_client.rs:441-575 | no sequence of commands and pauses tells the two apart, deletion counts excepted |
| MemoryRedis.PrintedParses | rust-auth-gateway/src/redis_client.rs:472-475 | every 64-bit counter written as text reads back as itself |
| MemoryRedis.IncrCounts | rust-auth-gateway/src/redis_client.rs:465-478 | INCR adds one to the live counter and reports it |
| MemoryRedis.DecrCounts | rust-auth-gateway/src/redis_client.rs:480-492 | DECR takes one off a positive counter, stops at zero, and reports what is left |
| MemoryRedis.IncrThenDecr | rust-auth-gateway/src/redis_client.rs:465-492 | a decrement undoes an increment |
| MemoryRedis.SetLasts | rust-auth-gateway/src/redis_client.rs:455-463 | what SET writes is read for exactly its lifetime |
| MemoryRedis.SetNxWrites | rust-auth-gateway/src/redis_client.rs:494-506 | SET NX writes exactly where a reader would find nothing, and says so |
| MemoryRedis.GetDelTakes | rust-auth-gateway/src/redis_client.rs:448-453 | GETDEL answers what a reader would be told, once |
| MemoryRedis.OtherKeysStay | rust-auth-gateway/src/redis_client.rs:441-519 | no command changes what is read of another key |
| Jwks.StepKeepsSound | rust-auth-gateway/src/jwks_cache.rs:104-172 | every step keeps: what is cached, held or returned was fetched, and what is returned was within the hard age |
| Jwks.StepKeepsOneFetch | rust-auth-gateway/src/jwks_cache.rs:84-172 | every smooth step keeps: at most one fetch for the key is spent or decided, and then the cache has the key or its fetcher holds the lock |
| Jwks.KeysAreFresh | rust-auth-gateway/src/jwks_cache.rs:84-130 | on every interleaving a returned key is the one for its id in a set the endpoint served after the caller's last look into the cache or at most the hard age before |
| Jwks.OneFetchForAll | rust-auth-gateway/src/jwks_cache.rs:84-102 | any number of callers missing on a key the endpoint serves cause at most one fetch between them, whatever refreshes run beside them |
| Jwks.LookupAnswers | rust-auth-gateway/src/jwks_cache.rs:84-172 | a lookup left alone answers from a cached set within the hard age that has its key, starting a background refresh past the soft age; only without one does it fetch, answer from what it fetched, and cache that |
| Risk.RiskEngine.Evaluate | rust-auth-gateway/src/risk_engine.rs:137-318 | signals, capped score, level and action of a request, and the context stored for the next one |
| Risk.RiskEngine.UpdateSessionContext | rust-auth-gateway/src/risk_engine.rs:350-394 | the new context, with both lists extended and trimmed |
| Risk.RiskEngine.RecordFailedAttempt | rust-auth-gateway/src/risk_engine.rs:321-328 | counts a failure, saturating at 32 bits, for a known user only |
| Risk.SignalsExactly | rust-auth-gateway/src/risk_engine.rs:144-263 | the signals listed are exactly those whose condition holds, each once |
| Risk.RiskEngine.Collect | rust-auth-gateway/src/risk_engine.rs:144-278 | the signals in order and the sum of their weights |
| Risk.TotalOfSignals | rust-auth-gateway/src/risk_engine.rs:144-278 | the total is the sum of 30, 50, 15, 20, 25, 20, 15 and 10 points for the eight conditions that hold; without a context it is 10 |
| Risk.ActionsByTotal | rust-auth-gateway/src/risk_engine.rs:278-291 | up to 25 points a request is allowed, up to 50 monitored, up to 75 stepped up, beyond that blocked |
| Risk.RunsStaySane | rust-auth-gateway/src/risk_engine.rs:321-394 | however evaluations and counted failures overlap between read and write, every stored context has duplicate-free lists of at most 20 addresses and 10 devices containing the latest ones |
| Risk.ReachableScores | rust-auth-gateway/src/risk_engine.rs:137-291 | for every evaluation of every such run an unknown address is a changed one, a country change scores at least 60 and is never plainly allowed, and nothing is blocked without a changed address or impossible travel |
| Risk.OverlapForgets | rust-auth-gateway/src/risk_engine.rs:350-394 | of two evaluations that read the same context the one that writes last drops the other's new address |
| Risk.SecondLookIsClean | rust-auth-gateway/src/risk_engine.rs:380-393 | the context is replaced whatever the action, so the same request evaluated again from the same place raises nothing |
| Risk.JudgedByTheLast | rust-auth-gateway/src/risk_engine.rs:144-263 | after an evaluation the next request raises exactly the signals that its difference from that request, and distance and time since it, call for |
| Risk.ThirdFailureCounts | rust-auth-gateway/src/risk_engine.rs:321-328 | three failed attempts since the last evaluation raise the signal, fewer do not, and they change no other signal |
| FixedWindow.Limiter.CheckRateLimit | lib/writeright-queue.ts:345-368 | counter, decision and remaining calls, and the free pass of an open circuit |
| FixedWindow.SpanBound | lib/writeright-queue.ts:345-368 | in every trace at most 2 * max - 1 calls of a user are accepted in a half-open span of sixty seconds |
| FixedWindow.BoundIsReached | lib/writeright-queue.ts:356-364 | for every max there is a trace that reaches the bound within two milliseconds |
| Grammar.CheckGrammar | lib/grammar-checker.ts:11-231 | issues are the first matches of each range, sorted by start; blank text has none |
| Grammar.AddIssue | lib/grammar-checker.ts:18-26 | appends an issue unless its range is already there |
| Grammar.CollectsRanges | lib/grammar-checker.ts:18-26 | no range is reported twice, none is lost, and every issue is a match |
| Grammar.SortedOrders | lib/grammar-checker.ts:230-231 | the sort orders by start and keeps every issue |
| Grammar.SortIsStable | lib/grammar-checker.ts:230-231 | issues with one start keep their order |
| Grammar.ActiveIssuesStay | components/dashboard/writeright/GrammarOverlay.tsx:37-54 | the filtered list is in order and the overlay's own sort leaves it as it is |
| Overlay.EscapeIsPerCharacter | components/dashboard/writeright/GrammarOverlay.tsx:15-22 | the five replacements one after another are one escape per character |
| Overlay.GetHighlightedHtml | components/dashboard/writeright/GrammarOverlay.tsx:51-63 | an HTML reader sees the page laid out for the sorted issues: text, a mark around each issue drawn, text; also for issues found in an older text |
| Overlay.EscapedReads | components/dashboard/writeright/GrammarOverlay.tsx:15-22 | escaped text reads back as the text, whatever HTML follows |
| Overlay.AddMark | components/dashboard/writeright/GrammarOverlay.tsx:57-59 | one more issue drawn reads as gap, opening tag, quoted text and closing tag |
| OverlayTheorems.ShownExactlyWhen | components/dashboard/writeright/GrammarOverlay.tsx:51-63 | an issue is drawn if and only if it overlaps none drawn before it |
| OverlayTheorems.TextKeptExactlyWhen | components/dashboard/writeright/GrammarOverlay.tsx:51-63 | deleting the tags and undoing the escapes gives the text back if and only if every issue drawn quotes its range |
| OverlayTheorems.HtmlKeepsTextExactlyWhen | components/dashboard/writeright/GrammarOverlay.tsx:51-63 | the same of the string the component returns, over its own sorted issues |
| OverlayTheorems.TrimmedQuoteLosesText | lib/grammar-checker.ts:106-124 | an issue drawn whose range starts with a space and whose quotation does not loses the text |
| OverlayTheorems.RuleNineLosesTheSpace | lib/grammar-checker.ts:218-227 | on two short sentences starting with "I" the overlay drops the space between them |
| OverlayTheorems.MarksFindTheirIssues | components/dashboard/writeright/GrammarOverlay.tsx:65-75 | every mark's index attribute finds, in the list the click handler uses, the issue whose text it shows, and every issue drawn has a mark |
| LineBuffer.Consume | hooks/useGmailIntegration.ts:420-441 | for every chunking, what is handed on comes from the newline-terminated lines of the whole stream, and the unfinished line stays in the buffer |
| LineBuffer.HandleLines | hooks/useGmailIntegration.ts:429-441 | hands on the payloads of the data lines in order |
| LineBuffer.LinesConcat | hooks/useGmailIntegration.ts:425-427 | the lines of a longer text are those of its front and those of the front's rest with what follows |
| LineBuffer.SplitSpells | hooks/useGmailIntegration.ts:426-427 | terminated lines and rest spell the text and contain no newline |
| LineBuffer.SplitUnique | hooks/useGmailIntegration.ts:426-427 | there is no other way to read it so |

## Left out

- The refresh store, the queue, admission and the key cache are protocols on values, not classes: their point is interleaving inside a call, which a method body cannot show. Their tables and stores are still classes where one statement is one step.
- Fresh successor ids: rotation and issue are assumed to be given token ids not used before, because issue overwrites the cache unconditionally. Rows of refresh tokens and sessions are never deleted; the cleanup function's SQL is not part of this model. Blacklist cleanup is taken to delete expired rows only.
- Count and insert of a guarded session creation are one atomic transaction, as its comment intends; the default isolation level is not modelled.
- Counter decrement in database mode uses the in-memory rule (never below zero); on a real server DECR may go negative, and the limit of that mode does not depend on it.
- ReconTheorems.ExactlyOnePlace: assumes that no two enqueues of one id carry the same millisecond stamp, since equal members of a sorted set would merge. Malformed entries, the order within a batch, pruning of dead letters, the queue-size and per-second limits and the circuit breaker of the TypeScript worker are not modelled.
- ReconExecute.Worker.Execute: the periodic cleanup operation is not modelled. The TypeScript worker's session operations reach the gateway's store over HTTP; its `token_revocation` writes only the Redis key and is modelled as `ExecutedByScript`.
- SessionTheorems.SessionsWithinLimit: holds for logins whose commands fail in the safe ways only; `LowerKeptExactlyWhen` and `UpperKeptExactlyWhen` show that every other way breaks a bound.
- Jwks.OneFetchForAll: holds for less than the hard age, with successful writes and no lost entry or cancelled caller, as each of these rightly causes another fetch.
- Risk: haversine distance and country centroids are replaced by a distance that comes with the request; masking, metrics and logging are not modelled.
- TokenBucket: floating-point rounding and printing of the bucket are replaced by exact reals; SHA-256 of keys by equality.
- Admission: limiters, bearer parsing, WAF feedback, auth cache, JWT validation, risk engine, session store and nonce store answer arbitrarily there; only that cached claims are unexpired and decoded ones within the leeway is kept. The session and address blocks of a blocked request and audit events are not modelled.
- Grammar: the regular expressions are given lists of matches. The ignore key is a triple instead of its text form.
- LineBuffer: starts from decoded text; JSON parsing of a payload is not modelled.
- HTTP, axum, Clerk, Postgres and Redis wire protocols, cryptography, metrics, validators, OTP and nonce stores, the Python consumer and the React interface.
