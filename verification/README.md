# FastAuth storage and credential layer, verified in Dafny

FastAuth keeps refresh-token families, signing keys, one-time challenges, rate-limit buckets, API keys and plugin
migrations in three kinds of store: an in-memory one that holds a lock, PostgreSQL transactions, and MongoDB, which
has no transaction over several documents. This project models what those stores and the services above them do, and
proves what they promise in every interleaving or over every run.

Concurrent protocols are state machines. Each database call is one atomic step, a process remembers in its program
counter which call comes next, and a run is any sequence of events: starts, steps of any process, stops, faults and
what the environment does. An event that is not possible leaves the state alone, so every sequence is a run, and a
process that stops between two calls is one that takes no further step. History variables record what was published,
made or issued; no operation reads them. Objects that the source changes in place are classes whose methods are
proved against the same functions the state machines and lemmas use.

| part | files |
|---|---|
| Mongo refresh-token families, their revocation, and their refinement of the locked store | `MongoFamilies`, `MongoRevocation`, `MongoFinality`, `MongoAnswers`, `MongoRows`, `MongoRefinement`, `RefreshStore` |
| The refresh flow: many concurrent refreshes over the locked store | `RefreshFlow`, `RefreshQuiescence`, `RefreshLifetime`, `RefreshService`, `RefreshValidity` |
| JWKS rotation and signing by many workers | `Jwks`, `JwksSafety`, `JwksRegistry`, `JwksAnswers` |
| Verification challenges, and the Mongo pipeline that decides them | `Challenges`, `ChallengeRuns`, `MongoExpr`, `MongoChallenges` |
| Fixed windows, lockout, and the rekey of buckets | `RateLimits`, `WindowBounds`, `MongoRekey`, `MongoCounters` |
| API-key quota and refill | `ApiKeys` |
| Bounded cleanup and the removal of superseded challenges | `Cleanup` |
| Plugin schema planning and the migration ledgers | `SchemaPlan`, `SchemaPlanning`, `Ledger`, `LedgerRuns` |
| Password slots, and a user stored together with its account | `Cancellation` |
| Shared: options, string order, sorting, flattening | `Prelude`, `Ordering` |

`dafny verify dfyconfig.toml` checks all of it.

## What the proofs found

- A session lookup reads the session document and then asks for a revoked family that lists it. A rotation that won
  before the revocation goes on pulling old sessions from the list after it. So a lookup can read the session, the
  rotation can delete it and pull it, and the lookup then answers with a session of a revoked family.
  `MongoRevocation.StaleLookupHappens` is such a run; `StaleLookup` and `LookupAfterRevocation` say exactly when it can
  happen. What a caller can rely on: a lookup begun after the revocation has deleted the sessions never finds one
  (`MongoFinality.LookupAfterSweepFindsNothing`), and for one state of the database revocation is final as soon as the
  mark is written (`RevocationIsFinal`).
- A published token can lose its row while its family is not revoked, and then reads as absent although the locked
  store would show it. Two things cause it: a revocation that runs between the inserts of the token row and of the
  family document (`MissingRowHappens`), and a family insert that takes effect and still raises, so that the undo
  deletes the row (`LostReplyHappens`). `ReadAgreesExactly` gives the exact condition for a read to agree.
- The Mongo compare-and-set also refuses a family that has expired; the in-memory exchange never looks at expiry
  (`CasDecides`). `get_valid` has checked it just before in both.
- The branch of `get_valid` that revokes a family past its absolute deadline is never taken: `expiry_for` has already
  capped the row's own expiry there, and that is checked first (`DeadlineIsExpiry`).
- `record_failure` documents a wait for the attempt that crossed the limit only; the code answers with one on every
  failure past the limit. The contract of `RecordFailure` follows the code; `WaitIsRepeated` is an instance.
- The bound of twice the limit in any interval as long as a window is not reached: the request that opens a window is
  counted in it, so 2 * max_requests - 1 is the exact bound (`IntervalAdmitsUnderTwice`, `IntervalLimitIsReached`).
- Moving a Mongo bucket can lose strictness in one way only: an increment of the destination after its window closed
  restarts its count (`MongoRekey.WeakensExactly`). Every store restarts a closed window so.
- An API-key refill that is due is forgotten when the same call fails on permissions, because that path stores nothing;
  the next call refills. `RefillCount` counts stored refills.
- Only the latest recorded migration of each plugin is compared with the plan; a changed fingerprint of an older one is
  accepted (`Ledger.OlderChangeIsAccepted`).

## Assumptions

Token, session, key and document ids are fresh; a hash identifies what was hashed. Timestamps are integers at the
stores' own precision. JWKS theorems take one strictly increasing clock and keys that every worker can decrypt. Window
lengths are positive, clocks nondecreasing, stored counts at least one, and a rekey is between two different keys.
Reference: refresh-token rotation with reuse detection is section 4.14.2 of RFC 9700.

## Model

| member | source | states |
|---|---|---|
| `MongoFamilies.AddToSet` | src/fastauth/storage/beanie/adapter.py:467-468 | `$addToSet`: the result holds the old members and the new one |
| `MongoFamilies.Pull` | src/fastauth/storage/beanie/adapter.py:497-502 | `$pull`: the result holds the old members but the pulled one |
| `MongoFamilies.InsertPublishes` | src/fastauth/storage/beanie/adapter.py:382-398 | the family insert publishes the first token together with its session, active and unrevoked, or changes nothing when the family is there |
| `MongoFamilies.CasPublishesTogether` | src/fastauth/storage/beanie/adapter.py:457-471 | the compare-and-set publishes the successor and its session together exactly when its filter matches, unlists no session, and otherwise changes nothing |
| `MongoFamilies.MarkRevokes` | src/fastauth/storage/beanie/adapter.py:550-556 | the mark revokes the family and hands on its list if the document is there, and changes no family otherwise |
| `MongoFamilies.RotationNeverRevokes` | src/fastauth/storage/beanie/adapter.py:457-507 | no call of a rotation creates a session or changes a mark, and only its compare-and-set publishes |
| `MongoFamilies.RevocationOnlyRemoves` | src/fastauth/storage/beanie/adapter.py:546-578 | the calls of a revocation only remove rows and set the mark: lists, active tokens and publications stay |
| `MongoFamilies.ReadOnlyAnswers` | src/fastauth/storage/beanie/adapter.py:300-307 | the second call of a lookup changes nothing but its process, and shows no token of a revoked family |
| `MongoRevocation.NextKeeps` | src/fastauth/storage/beanie/adapter.py:363-578 | every event keeps the listing invariant: a published session that still exists is in its family's `session_ids` |
| `MongoRevocation.RevocationIsFinal` | src/fastauth/storage/beanie/adapter.py:546-556 | in every interleaving with stops and faults anywhere, once `revoked` is written the family stays revoked, publishes nothing more, and no session it published is visible in any later state to two reads of that one state |
| `MongoFinality.LookupAfterSweepFindsNothing` | src/fastauth/storage/beanie/adapter.py:546-578 | in every interleaving, once a revocation that found the family has deleted its sessions, the two-call lookup begun at any later time answers that there is none of the family's sessions |
| `MongoFinality.NextSweeps` | src/fastauth/storage/beanie/adapter.py:546-578 | every event keeps what a revocation in progress holds: all that still exists of the family's published sessions is on its list of sessions to delete |
| `MongoRevocation.CleaningRemoves` | src/fastauth/storage/beanie/adapter.py:494-502 | left alone, a rotation that still has to remove a session from the list does so |
| `MongoRevocation.StaleLookup` | src/fastauth/storage/beanie/adapter.py:300-307 | a lookup that has read the session document can still answer with a revoked family's session if and only if the session has left the list or a rotation still has it to pull |
| `MongoRevocation.LookupAfterRevocation` | src/fastauth/storage/beanie/adapter.py:300-307 | the same for a lookup begun after revocation: it can answer if and only if a rotation is still cleaning that session up |
| `MongoRevocation.StaleLookupHappens` | src/fastauth/storage/beanie/adapter.py:494-502 | a concrete run in which that happens, so finality fails for the two-call lookup |
| `MongoAnswers.SecondCallFindsExactly` | src/fastauth/storage/beanie/adapter.py:303-307 | in every run, the second call of a lookup finds the session if and only if every family that lists it is unrevoked |
| `MongoAnswers.PublishedIsFoundExactly` | src/fastauth/storage/beanie/adapter.py:300-307 | in every run, an undisturbed lookup finds a published session if and only if it exists and the family that published it is not revoked |
| `MongoAnswers.UnlistedIsFoundExactly` | src/fastauth/storage/beanie/adapter.py:300-307 | and a session no family lists if and only if it exists |
| `MongoAnswers.RotationAnswersExactly` | src/fastauth/storage/beanie/adapter.py:472-507 | in every run, a finished rotation returns its new token if and only if that token was published, as another's successor; otherwise it returns nothing, for good |
| `MongoAnswers.LoneRotation` | src/fastauth/storage/beanie/adapter.py:457-507 | a rotation whose compare-and-set matches, left alone, returns its token, consumes the old row in its favour, and leaves its session the only one listed and the others deleted |
| `MongoAnswers.LoneLoser` | src/fastauth/storage/beanie/adapter.py:472-481 | one that does not match, left alone, returns nothing, deletes its row, and deletes its session if and only if the family does not list it |
| `MongoAnswers.LoneRevocation` | src/fastauth/storage/beanie/adapter.py:546-578 | a revocation left alone revokes the family, leaves no token row of it, and deletes exactly the sessions its list and rows name |
| `MongoAnswers.FaultRevokes` | src/fastauth/storage/beanie/adapter.py:504-506 | a rotation that fails after publishing ends, left alone, in a revoked family without token rows |
| `MongoAnswers.FailedCreationUndoes` | src/fastauth/storage/beanie/adapter.py:382-395 | a creation that fails deletes its token row, whether or not the family insert took effect |
| `MongoRows.NextRows` | src/fastauth/storage/beanie/adapter.py:363-507 | every event keeps the rows' family, session and successor as published |
| `MongoRows.RowsTellTheTruth` | src/fastauth/storage/beanie/adapter.py:483-492 | in every run, a row names its token's family; it is consumed only if exchanged, and then names that successor; a published token's session is published for its family |
| `MongoRefinement.NextRefines` | src/fastauth/storage/beanie/adapter.py:363-507 | every event does to the visible tokens what one in-memory operation, or none, does |
| `MongoRefinement.RunsRefineMemory` | src/fastauth/storage/memory.py:202-299 | for every run, the linearized operations replayed on the locked store show the same tokens, families and consumed states |
| `MongoRefinement.SuccessorIsFinal` | src/fastauth/storage/beanie/adapter.py:457-471 | a token's first published successor is its only one for the rest of the run |
| `MongoRefinement.CasDecides` | src/fastauth/storage/beanie/adapter.py:457-471 | the compare-and-set succeeds exactly when the in-memory exchange would and the family has not expired |
| `MongoRefinement.ReadAnswers` | src/fastauth/storage/beanie/adapter.py:404-418 | a published token reads as the locked store shows it at that moment, even if the old row was never patched |
| `MongoRefinement.ReadNeverInvents` | src/fastauth/storage/beanie/adapter.py:404-418 | no token, published or not, reads as unconsumed unless the locked store shows it so |
| `MongoRefinement.ReadAgreesExactly` | src/fastauth/storage/beanie/adapter.py:404-418 | a read of a published token answers as the locked store if and only if its row is there or its family's document is revoked; otherwise it answers that there is none |
| `MongoRefinement.MissingRowCauses` | src/fastauth/storage/beanie/adapter.py:382-398 | the row of an unrevoked family's published token goes missing only after a revocation that ran before its document existed, or after an insert that took effect and raised |
| `MongoRefinement.MissingRowHappens` | src/fastauth/storage/beanie/adapter.py:546-578 | a concrete run for the first cause |
| `MongoRefinement.LostReplyHappens` | src/fastauth/storage/beanie/adapter.py:382-398 | a concrete run for the second, without any revocation |
| `RefreshStore.InMemoryAdapter.RotateRefreshToken` | src/fastauth/storage/memory.py:221-238 | the new store is `Exchange` of the old one; nothing when the row is gone or consumed |
| `RefreshStore.InMemoryAdapter.DropTokens` | src/fastauth/storage/memory.py:285-299 | the loop removes exactly the family's rows |
| `RefreshStore.InMemoryAdapter.PopSessions` | src/fastauth/storage/memory.py:285-299 | the loop removes exactly the listed sessions and counts those that existed |
| `RefreshStore.InMemoryAdapter.DeleteRefreshTokenFamily` | src/fastauth/storage/memory.py:285-299 | the new store is `Revoke` of the old one, with the right counts and session ids |
| `RefreshQuiescence.NextKeeps` | src/fastauth/flows/refresh.py:54-101 | every step of every concurrent issue, refresh and revocation keeps the invariant on rows, heads and owed clean-ups |
| `RefreshQuiescence.Quiescence` | src/fastauth/flows/refresh.py:54-101 | when nothing is in flight, a revoked family has no token and no session; any other has exactly one unconsumed token and no session but that token's |
| `RefreshQuiescence.AtMostOneUnconsumed` | src/fastauth/storage/memory.py:221-238 | at any moment a family has at most one exchangeable token, and none once revoked |
| `RefreshQuiescence.SingleSuccessor` | src/fastauth/security/refresh_tokens.py:147-189 | a token's successor, once written, stays its only one, in the same family, and the token stays unexchangeable |
| `RefreshQuiescence.DoubleExchangeBurns` | src/fastauth/security/refresh_tokens.py:147-189 | two finished calls that both passed the check before exchange on one token leave the family revoked and without tokens |
| `RefreshQuiescence.ReuseBurnsFamily` | src/fastauth/security/refresh_tokens.py:127-145 | when the first or second read of a refresh finds its token consumed, the family is burned and holds no token once that refresh has finished |
| `RefreshLifetime.FamilyLifetime` | src/fastauth/security/refresh_tokens.py:84-122 | along every chain, user, creation and authentication time are the root's and no expiry passes the absolute deadline |
| `RefreshLifetime.DeadlineIsExpiry` | src/fastauth/security/refresh_tokens.py:127-145 | no token validates at or after the deadline, and the revoking deadline branch is never the one taken |
| `RefreshValidity.VerdictExactly` | src/fastauth/security/refresh_tokens.py:84-145 | in every run a token is unknown once its row is gone, reuse once exchanged, and until then valid if and only if less than the maximum age has passed since it was written and less than the absolute age since its family was created, and expired otherwise |
| `RefreshValidity.ConsumedExactly` | src/fastauth/storage/memory.py:221-238 | in every run a stored row is consumed if and only if its token was exchanged, and names the successor |
| `RefreshValidity.IssuedRow` | src/fastauth/security/refresh_tokens.py:57-116 | an issued row starts its own family at the moment it is written, for the user and session it is issued to |
| `RefreshValidity.RefreshSucceedsExactly` | src/fastauth/flows/refresh.py:54-101 | an undisturbed refresh succeeds if and only if the row is unconsumed and in time at both reads and the user exists; its new row, the old row and the sessions are then as the rotation promises |
| `RefreshValidity.RefusalExactly` | src/fastauth/flows/refresh.py:54-90 | a refused one says why, and burns the family or leaves everything as it was |
| `RefreshService.RefreshTokenService.GetValid` | src/fastauth/security/refresh_tokens.py:127-145 | the verdict, and the family revoked exactly on reuse and past the deadline |
| `RefreshService.RefreshTokenService.ExchangeRow` | src/fastauth/security/refresh_tokens.py:170-189 | the exchange, or the whole family revoked when the row was lost to another; how long the new row lasts is `VerdictExactly` |
| `RefreshService.RefreshTokenService.Rotate` | src/fastauth/security/refresh_tokens.py:147-189 | the exchange of a valid row, or the refusal with what validation revoked |
| `RefreshService.RefreshTokenService.RefreshSession` | src/fastauth/flows/refresh.py:54-101 | answer and store on every path; a refused refresh leaves no new session |
| `RefreshService.CleanUpUndoes` | src/fastauth/flows/refresh.py:66-90 | deleting the replacement session restores the sessions as the revocation alone leaves them |
| `RefreshService.LoneRefresh` | src/fastauth/flows/refresh.py:54-101 | run alone, with the user there or gone, the stepwise protocol does to the store what the method does and answers the same |
| `JwksSafety.NextKeeps` | src/fastauth/security/jwt.py:109-193 | every step of every worker keeps the key and token invariants |
| `JwksSafety.Coverage` | src/fastauth/security/jwt.py:239-256 | in every run the key that signed a token is published at every moment before the token's `exp`, given grace at least the lifetime |
| `JwksSafety.NewestNeverRetired` | src/fastauth/security/jwt.py:120-145 | once an algorithm has a key, its newest is active and is the one `ensure_key` selects |
| `JwksSafety.SigningStaysPossible` | src/fastauth/security/jwt.py:172-184 | once there is an active key there always is one |
| `JwksAnswers.PublishedExactly` | src/fastauth/security/jwt.py:239-256 | in every run a key is published if and only if it is stored and not retired, or retired less than the grace period ago |
| `JwksAnswers.TokenLivesItsTime` | src/fastauth/security/jwt.py:329-356 | in every run a token's `exp` is its issue plus the lifetime, cut to the whole second |
| `JwksAnswers.YoungKeySigns` | src/fastauth/security/jwt.py:277-289 | a signature whose newest key is younger than the interval, left alone, is made with that key, dated at its start, and changes no key |
| `JwksAnswers.OldKeyRotates` | src/fastauth/security/jwt.py:186-193 | one whose newest key has reached the interval begins a rotation before it signs |
| `JwksAnswers.FirstKeySigns` | src/fastauth/security/jwt.py:120-145 | the first signature of an algorithm makes its key and signs with it |
| `JwksAnswers.LoneRotation` | src/fastauth/security/jwt.py:172-184 | a rotation left alone stores the replacement and puts exactly the previously active keys in grace |
| `JwksAnswers.RotatedKeySigns` | src/fastauth/security/jwt.py:277-289 | and, if a signature began it, then signs with the replacement |
| `JwksRegistry.Registry.EnsureKey` | src/fastauth/security/jwt.py:109-145 | among keys that all decrypt, the loop selects the newest active one, or makes one |
| `JwksRegistry.Registry.RotateNow` | src/fastauth/security/jwt.py:172-184 | the replacement is stored and exactly the previously active keys are in grace |
| `JwksRegistry.RotationKeepsPublished` | src/fastauth/security/jwt.py:239-256 | a rotation unpublishes no key before its grace is over and leaves one active key |
| `JwksAnswers.RotationUnpublishes` | src/fastauth/security/jwt.py:239-256 | a previously active key is published after a rotation if and only if its grace is not over |
| `JwksRegistry.LoneRetirement` | src/fastauth/security/jwt.py:172-184 | a worker left alone ends with exactly its listed keys retired, in whatever order |
| `Challenges.ApplyAttempt` | src/fastauth/storage/verification.py:26-62 | the in-place decision gives the decided answer and leaves the decided row |
| `Challenges.InMemoryChallenges.CreateVerification` | src/fastauth/storage/memory.py:352-358 | the key's challenge is replaced and no two rows share a key |
| `Challenges.InMemoryChallenges.AttemptVerification` | src/fastauth/storage/memory.py:360-385 | finds the one row of the key and decides on it; an invalid cap changes nothing |
| `ChallengeRuns.AcceptedExactly` | src/fastauth/storage/verification.py:35-62 | after any run, an attempt is accepted if and only if it presents the latest issued code in time, nobody tried too late or redeemed it, and fewer wrong codes than the cap were tried; checks without consume never burn it |
| `ChallengeRuns.AnsweredExactly` | src/fastauth/storage/verification.py:35-62 | each status of an attempt, over all runs: absent once used up, expired from the expiry on, exhausted at the cap or by the wrong code that reaches it, invalid for other wrong codes, accepted otherwise, each if and only if |
| `ChallengeRuns.ReportedExactly` | src/fastauth/storage/verification.py:35-62 | the count reported is the number of failed codes, and the challenge comes with an acceptance only |
| `ChallengeRuns.LeavesExactly` | src/fastauth/storage/verification.py:38-57 | what one attempt leaves of the row: count, consumption and date |
| `ChallengeRuns.NothingIssuedIsAbsent` | src/fastauth/storage/verification.py:37-38 | an attempt on a key nothing was issued for is absent |
| `ChallengeRuns.NothingIssued` | src/fastauth/storage/memory.py:360-385 | a key without an issuance never gets a row |
| `ChallengeRuns.OneRedemption` | src/fastauth/storage/verification.py:55-62 | between two consuming acceptances of a key there is a new issuance |
| `ChallengeRuns.MissesAreCountedAndCapped` | src/fastauth/storage/verification.py:44-54 | the stored counter is the number of wrong codes presented to the unspent challenge in time and below the cap, never above the cap, and at the cap the row is burnt |
| `MongoChallenges.PipelineMatches` | src/fastauth/storage/beanie/adapter.py:697-719 | on every unconsumed document the pipeline stores what the decision function leaves, but for always dating the update |
| `MongoChallenges.MongoAdapter.AttemptVerification` | src/fastauth/storage/beanie/adapter.py:680-727 | the answer is the decision on the stored row; the new contents are the pipeline's |
| `MongoChallenges.MongoAdapter.CreateVerification` | src/fastauth/storage/beanie/adapter.py:655-678 | the upsert replaces the key's challenge |
| `MongoChallenges.RunsAgree` | src/fastauth/storage/beanie/adapter.py:680-727 | after any run the Mongo and in-memory stores differ in update times only and answer every next attempt alike |
| `RateLimits.MemoryRateLimitStorage.Increment` | src/fastauth/security/rate_limit.py:116-134 | the bucket counts up in an open window and restarts at one otherwise |
| `RateLimits.MemoryRateLimitStorage.Rekey` | src/fastauth/security/rate_limit.py:144-171 | the stricter open bucket moves to the new key and the old one goes |
| `RateLimits.MaxBucket` | src/fastauth/security/rate_limit.py:159-163 | the greatest bucket by (count, start) |
| `RateLimits.RekeyedExactly` | src/fastauth/security/rate_limit.py:144-171 | the old key goes; the new one holds an open bucket of the two that no other exceeds, and is there if and only if one is open; other keys stay |
| `RateLimits.PostgresRateLimits.Rekey` | src/fastauth/storage/postgres/adapter.py:1018-1066 | the transaction with its placeholder row does what the in-memory rekey does |
| `RateLimits.RateLimiter.RuleFor` | src/fastauth/security/rate_limit.py:241-246 | plugin rules, the last one given for a path, before strict defaults before the configured rule |
| `RateLimits.PluginRuleWins` | src/fastauth/security/rate_limit.py:236-243 | a path with a plugin rule gets the last one given for it, in whole seconds, whatever the defaults |
| `RateLimits.DefaultRules` | src/fastauth/security/rate_limit.py:26-32 | without one, the five sensitive paths have their strict rules and any other the configured rule |
| `RateLimits.RateLimiter.Check` | src/fastauth/security/rate_limit.py:248-265 | refuses exactly past the rule's limit; the announced wait is positive and short of the real one by less than a second |
| `RateLimits.RetryCovers` | src/fastauth/security/rate_limit.py:260-265 | less than one second more than the announced wait is left of the window |
| `RateLimits.AccountLockoutTracker.CheckLocked` | src/fastauth/security/lockout.py:55-71 | raises exactly while the window is open and the count is past the limit, with a wait that fits |
| `RateLimits.AccountLockoutTracker.RecordFailure` | src/fastauth/security/lockout.py:73-89 | counts the failure; answers with a wait on every count past the limit |
| `RateLimits.WaitIsRepeated` | src/fastauth/security/lockout.py:73-89 | a wait is answered on the failure that crosses the limit and on the next one as well |
| `RateLimits.AccountLockoutTracker.Rekey` | src/fastauth/security/lockout.py:97-112 | moves the state unless disabled or the names are equal |
| `RateLimits.RekeyKeepsLocks` | src/fastauth/security/lockout.py:97-112 | after a rename the new name is locked exactly when either name was, and no other key changes |
| `RateLimits.KeysDoNotMeet` | src/fastauth/security/rate_limit.py:253 | request buckets and lockouts never share a key |
| `WindowBounds.WindowAdmitsAtMost` | src/fastauth/security/rate_limit.py:248-265 | for every trace, a fixed window lets at most `max_requests` through |
| `WindowBounds.AdmittedExactly` | src/fastauth/security/rate_limit.py:116-134 | a request is let through if and only if it is among the first `max_requests` of its window, and when windows open and close |
| `WindowBounds.IntervalAdmitsUnderTwice` | src/fastauth/security/rate_limit.py:248-265 | any interval of one window lets at most 2 * max_requests - 1 through |
| `WindowBounds.IntervalLimitIsReached` | src/fastauth/security/rate_limit.py:116-134 | that bound is reached, for every limit |
| `WindowBounds.WindowExaminesAtMost` | src/fastauth/security/lockout.py:55-89 | a sequential check/record run examines at most `max_failures + 1` failures per window |
| `WindowBounds.OneMoreIsExamined` | src/fastauth/security/lockout.py:55-89 | and the one past the limit is examined, whereupon the lock falls |
| `WindowBounds.LockedExactly` | src/fastauth/security/lockout.py:55-71 | after a burst of failures the lock holds if and only if there were more than the limit and the window is still open |
| `WindowBounds.LockLasts` | src/fastauth/security/lockout.py:64-69 | whatever the bucket, the lock holds past the limit and before the end of the window |
| `MongoRekey.WeakensExactly` | src/fastauth/storage/beanie/adapter.py:998-1114 | in any state a step weakens an open destination if and only if it is an increment, after its window closed, of one with more than one hit |
| `MongoRekey.RunKeeps` | src/fastauth/storage/beanie/adapter.py:998-1114 | in every interleaving with increments of any key at any clock reading, but for such an increment of the destination, a merged source stays covered |
| `MongoRekey.TargetNeverDrops` | src/fastauth/storage/beanie/adapter.py:1041-1088 | in those runs an open destination never gets weaker in (count, start) |
| `MongoRekey.DeletionIsCovered` | src/fastauth/storage/beanie/adapter.py:1103-1112 | in those runs, when the source document is deleted an open destination is at least as strict as it was |
| `MongoRekey.NoPlaceholderLeft` | src/fastauth/storage/beanie/adapter.py:1091-1099 | in every run with any increments at all, when the call is over every stored bucket has a hit |
| `MongoRekey.GivingUpTakesEightHits` | src/fastauth/storage/beanie/adapter.py:1114 | the call gives up only after at least eight increments of the source |
| `MongoRekey.UndisturbedTryEnds` | src/fastauth/storage/beanie/adapter.py:1009-1112 | a try nobody disturbs is the last |
| `MongoRekey.UndisturbedIsLocked` | src/fastauth/security/rate_limit.py:144-171 | without interference the outcome is that of the locked rekey |
| `MongoCounters.IncrementPipelineMatches` | src/fastauth/storage/beanie/adapter.py:942-974 | the increment's pipeline computes the next hit |
| `MongoCounters.MergePipelineMatches` | src/fastauth/storage/beanie/adapter.py:1016-1088 | the merge's three stages compute the merge and leave no working fields |
| `MongoCounters.MongoRateLimits.RekeyRateLimit` | src/fastauth/storage/beanie/adapter.py:998-1114 | the retry loop, with increments by others before any call, is a run of the state machine, and fails only in its failed state |
| `ApiKeys.SplitInvertsEncode` | src/fastauth/plugins/api_key.py:169-178 | splitting inverts encoding and only an encoded key splits |
| `ApiKeys.MissingPermissions` | src/fastauth/plugins/api_key.py:459-466 | nothing is missing exactly when everything asked for is granted |
| `ApiKeys.RateKeysDiffer` | src/fastauth/plugins/api_key.py:428-429 | every API key has a rate-limit bucket of its own |
| `ApiKeys.ApiKeyPlugin.VerifyKey` | src/fastauth/plugins/api_key.py:370-499 | the verdict, the stored row and the rate-limit bucket for the row whose hash matches; otherwise no change |
| `ApiKeys.VerdictExactly` | src/fastauth/plugins/api_key.py:385-493 | each verdict, from the row's fields, if and only if: enabled, owner allowed, not past expiry, within the rate limit, everything granted, quota left after a due refill |
| `ApiKeys.StoredExactly` | src/fastauth/plugins/api_key.py:436-499 | the row each verdict leaves stored |
| `ApiKeys.VisitCosts` | src/fastauth/plugins/api_key.py:448-499 | a valid answer costs one unit of the quota as refilled; nothing else costs anything or moves the refill |
| `ApiKeys.QuotaBound` | src/fastauth/plugins/api_key.py:414-499 | valid answers by elapsed time T are at most the initial quota plus floor(T / interval) * refill_amount |
| `ApiKeys.QuotaConserved` | src/fastauth/plugins/api_key.py:478-499 | while no refill is stored, quota left plus valid answers is the initial quota |
| `ApiKeys.UnlimitedUntilRefill` | src/fastauth/plugins/api_key.py:448-457 | a key without a quota has none exactly until its first stored refill |
| `ApiKeys.RequestsCounted` | src/fastauth/plugins/api_key.py:436-499 | `request_count` counts exactly the valid, exhausted and rate-limited visits |
| `Cleanup.ExpiringRows.DeleteExpired` | src/fastauth/storage/memory.py:43-71 | deletes exactly the first `limit` expired rows by (expires_at, id) |
| `Cleanup.MaintenanceManager.Drain` | src/fastauth/runtime/maintenance.py:63-80 | is one delete of the first min(N, batch_size * max_batches) expired rows, and returns that number, when deletions are reported truly; only the head of the queue ever goes |
| `Cleanup.OnlyExpiredGo` | src/fastauth/runtime/maintenance.py:63-80 | no live row is touched, and exactly n rows go |
| `Cleanup.DeletedExpireFirst` | src/fastauth/storage/memory.py:43-71 | no expired row that stays expires before one that goes, or with it and with a smaller id |
| `Cleanup.WholeQueueGoes` | src/fastauth/storage/memory.py:43-71 | the queue holds exactly the rows expired by the cutoff |
| `Cleanup.QueueAfter` | src/fastauth/storage/memory.py:43-71 | after a batch the rest of the queue is what is due |
| `Cleanup.ChallengeCollection.RemoveSuperseded` | src/fastauth/storage/beanie/migrations.py:70-82 | keeps exactly the newest challenge of every key and counts the deleted |
| `Cleanup.CurrentIsOnePerKey` | src/fastauth/storage/beanie/migrations.py:70-82 | what is kept has one row per key, and a second pass deletes nothing |
| `Cleanup.CurrentKeepsKeys` | src/fastauth/storage/beanie/migrations.py:70-82 | no key loses its last challenge |
| `Cleanup.NewestStays` | src/fastauth/storage/beanie/migrations.py:72-81 | a challenge that goes was no newer than the one of its key that stays |
| `SchemaPlan.FindSchemaConflicts` | src/fastauth/plugins/migrations.py:379-421 | empty exactly when all table names are distinct across schemas |
| `SchemaPlan.ConflictsMeanDuplicates` | src/fastauth/plugins/migrations.py:379-421 | on any walk, there is a conflict exactly when a name repeats |
| `SchemaPlan.ConflictsExactly` | src/fastauth/plugins/migrations.py:379-421 | exactly the repeated names and the differently declared fields are reported, with the plugins of the first table and the repeating one |
| `SchemaPlanning.UniqueEntries` | src/fastauth/plugins/migrations.py:255-281 | the validator passes exactly distinct tables, migration names and versions |
| `SchemaPlanning.BuildSchemaPlan` | src/fastauth/plugins/migrations.py:308-342 | when a plan is built, when it conflicts, and which plan it is: all declared entries, sorted |
| `SchemaPlanning.UndeclaredIndexFieldIsRefused` | src/fastauth/plugins/migrations.py:161-173 | an index over an undeclared field makes the declarations unplannable |
| `SchemaPlanning.PlanningIsCanonical` | src/fastauth/plugins/migrations.py:308-342 | reordering schemas, tables, fields, indexes or migrations changes neither success nor the plan |
| `SchemaPlanning.PlanIsOrdered` | src/fastauth/plugins/migrations.py:337-342 | tables in the order of names, migrations by plugin and then by version |
| `SchemaPlanning.PlannedTableIsOrdered` | src/fastauth/plugins/migrations.py:320-325 | fields and indexes in the order of names |
| `SchemaPlanning.PlanHoldsTables` | src/fastauth/plugins/migrations.py:318-326 | a plan holds the planned form of every declared table and no other |
| `SchemaPlanning.PlannedTableKeeps` | src/fastauth/plugins/migrations.py:320-325 | the planned form keeps name, fields and indexes, under the plugin's id |
| `SchemaPlanning.PlanHoldsMigrations` | src/fastauth/plugins/migrations.py:327-335 | a plan holds every declared migration, under the plugin's id, and no other |
| `Ledger.PendingMigrations` | src/fastauth/storage/beanie/plugin_migrations.py:61-91 | the least unknown record first, then the changed latest migration of the first such plugin in plan order, else exactly the unrecorded migrations in plan order |
| `Ledger.OlderChangeIsAccepted` | src/fastauth/storage/beanie/plugin_migrations.py:75-85 | a concrete ledger whose older record of a plugin has another name and fingerprint, and for which nothing is pending or reported |
| `Ledger.TableChangeIsReported` | src/fastauth/plugins/migrations.py:288-300 | a table of a plugin added, removed or altered is reported as a mismatch against a ledger written before |
| `Ledger.OtherTablesDoNotCount` | src/fastauth/plugins/migrations.py:288-300 | a table of another plugin does not change a mark |
| `Ledger.UnknownIsReported` | src/fastauth/storage/beanie/plugin_migrations.py:65-72 | a record the plan does not know is always reported, the least by plugin id and version |
| `Ledger.PostgresLedger.Execute` | src/fastauth/storage/postgres/plugin_migrations.py:200-245 | under the lock: each mode's answer, and on apply the completed ledger |
| `Ledger.CompletedIsFinal` | src/fastauth/storage/beanie/plugin_migrations.py:117-176 | a completed ledger has exactly the plan's keys and nothing is pending against it, so CHECK passes |
| `Ledger.MongoLedger.InsertPending` | src/fastauth/storage/beanie/plugin_migrations.py:151-176 | the insert loop completes the ledger whatever rivals of the same plan insert in between |
| `LedgerRuns.NextKeeps` | src/fastauth/storage/beanie/plugin_migrations.py:94-176 | every call of every executor keeps records, progress and ownership sound |
| `LedgerRuns.ConcurrentExecutorsComplete` | src/fastauth/storage/beanie/plugin_migrations.py:94-176 | no executor fails, and once one is finished the ledger is what the locked executor would have written |
| `LedgerRuns.EachRecordHasOneExecutor` | src/fastauth/storage/beanie/plugin_migrations.py:158-176 | every added record is in exactly one executor's `applied`, and nothing else is in any |
| `LedgerRuns.FurtherExecutorWritesNothing` | src/fastauth/storage/beanie/plugin_migrations.py:117-131 | a further apply finishes in two calls with nothing written |
| `LedgerRuns.LoneExecutorFinishes` | src/fastauth/storage/beanie/plugin_migrations.py:94-176 | an executor left alone finishes, in at most two calls for each migration and four more |
| `Cancellation.SlotsConserved` | src/fastauth/security/passwords.py:92-107 | for any arrivals, failures, cancellations and completions, workers plus free permits is the limit and each acquired slot is given back once |
| `Cancellation.SlotsMove` | src/fastauth/security/passwords.py:92-107 | a waiting call starts when a permit is free, a worker keeps its slot until it is done, cancelled or not, and then makes room |
| `Cancellation.BoundedPasswordHasher.Acquire` | src/fastauth/security/passwords.py:92-98 | takes a permit; a failed submission gives it back |
| `Cancellation.BoundedPasswordHasher.Complete` | src/fastauth/security/passwords.py:100-106 | only the worker's completion gives the slot back |
| `Cancellation.Commit.Persist` | src/fastauth/flows/creation.py:28-63 | through any cancellations and write faults, user and account end both stored or both absent, and no other row changes; which e-mail and faults lead to which outcome, if and only if |

## Left out

- HTTP routing, cookies, middleware, e-mail, events, audit logs, OpenAPI, the CLI, URL and IP parsing: glue over libraries.
- Cryptography and randomness: hashes are taken as injective, signing and decryption are abstract.
- JwksRegistry.Registry.EnsureKey: does not model the retirement of candidates that do not decrypt; every worker decrypts every key.
- MongoRevocation.RevocationIsFinal: speaks of reads of one state; the two calls of the real lookup are `LookupAfterRevocation` and `LookupAfterSweepFindsNothing`.
- BSON conversion, SQL text, Pydantic validation of single fields: operations are modelled by their effect on documents and rows.
- TTL indexes, `delete_expired_*` and single-row token deletions in the Mongo family protocol: token rows there go only through rotation losses and revocation.
- `delete_refresh_tokens_for_user` and `delete_refresh_tokens_for_session`: loops over `delete_refresh_token_family`, whose calls already interleave freely.
- `update_refresh_token` and rows from before 0.15: they do not take part in rotation.
- `delete_session` in the Mongo protocol is one step, although the code finds the document and then deletes it.
- `rotate_refresh_token` and `delete_refresh_token_family` of the PostgreSQL adapter: one locked transaction each, with the effect proved for the in-memory methods.
- JWT session mode in the refresh flow: access tokens there are not revocable by design; the flow is modelled with database sessions.
- Crashes and failing deletes in the refresh flow: its compensation is proved for deletes that succeed, as the code's own notes ask for operators otherwise.
- RefreshService.RefreshTokenService.RefreshSession: the user lookup is a parameter, `userExists`; the session strategy is the database one.
- `LocalKmsSigner` and token payloads: a signature is recorded as key, `iat` and `exp`.
- MongoCounters.MongoRateLimits.RekeyRateLimit: what other processes do between its 32 possible calls is an argument of the method, limited to increments; concurrent resets and other rekeys of the same keys are not modelled.
- MongoRekey.TargetNeverDrops: excludes the increments that `WeakensExactly` names, as do `RunKeeps` and `DeletionIsCovered`.
- Challenges: `get_verification`, `get_active_verification`, `update_verification` and plain deletions, which do not decide attempts.
- ChallengeRuns.AcceptedExactly: the cap is the same in the whole run and rows are not purged in between.
- `normalise_ip`: `Check` takes the normalised address.
- ApiKeys.ApiKeyPlugin.VerifyKey: the owner's existence and the policy's answer are one parameter, `refusal`; updates of a key by its owner are not part of a run, and calls for one key do not overlap.
- Refill intervals below one millisecond, which the code stores as zero: the quota bound is for positive intervals.
- Cleanup of sessions, tokens and challenges by the Mongo and PostgreSQL adapters, `MaintenanceManager.run`: the same bounded delete behind other queries.
- The index and collection changes of `migrate_mongo_storage_v015`: only its pass over challenges is modelled.
- `render_migration_operations` and the tables and indexes an executor creates: additive and idempotent, they do not meet the ledger.
- Ledger.MongoLedger.InsertPending: the loop alone; looking, loading and preparing are steps of `LedgerRuns`.
- Cancellation.Commit.Persist: compensating deletes succeed; when one fails the source asks for operator reconciliation.
