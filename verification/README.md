# Banhmi: verified models of its hardest parts

This project models, in Dafny, the parts of Banhmi whose correctness is not visible from reading one
function, and proves what they promise for every input, every driver and every interleaving.

**OAuth storage** (`RequestCodec`, `OAuthTables`, `OAuthOperation`, `OAuthEffects`, `OAuthInvariants`,
`OAuthRuns`, `OAuthSafety`, `OAuthCounterexamples`, `OAuthNecessity`, `OAuthHistory`, `OAuthLifetimes`, `OAuthConsents`,
`OAuthExchange`, `OAuthCalls`, `OAuthAnswers`, `OAuthCommits`, `OAuthFlows`, `OAuthIssuance`, `OAuthStore`, `OAuthDecision`, `OAuthOverlap`, `OAuthConcurrency`, `OAuthReleasedLocks`, `LockOrder`, `OAuthLocks`).
Grants, codes, PKCE rows, tokens, consents, web sessions and security events are tables, one shard of rows per
account. An operation works on a private copy of the rows; `Finish` installs or drops it. `OAuthOperation` says
what each store call does, branch by branch; `OAuthStore` is the imperative form, an object whose fields the calls
update, each method proved against it; `OAuthCalls` says what each call means for the rows,
`OAuthAnswers` exactly when it succeeds, and `OAuthCommits` exactly when an operation commits. `OAuthFlows` and
`OAuthIssuance` show that well-behaved drivers get what they should. A driver (the OAuth library) is any sequence of calls, each with or without
a database fault. Above that come whole operations, histories of one account with blocking, logins, logouts and every
cleanup, and interleavings of many operations over many accounts, shown to be serial per account. Logouts and the
cleanup of consents and web sessions take no account lock: they commit beside open operations, which see them.

**Embedding shard** (`Partition`, `EmbedPages`, `EmbedCache`). Greedy splitting under two limits, a resumable keyset
walk, and a cache that must agree with the provider whatever order vectors arrive in.

**Rerank with a per-document cap** (`RerankCap`). In-place stable sort, then a greedy pass that beats every other
feasible selection place by place.

**Rate limiter** (`RateLimiter`). A limiter that forgets idle clients against one that never does.

**Act parser** (`OutlineTree`, `OutlinePaths`, `ActParser`, `ActMachine`, `ActStructure`, `ActLists`). `ActMachine.Parser` is the
stack machine; the other modules say what tree it builds and what holds of that tree.

**Run-level machines.** `AmendmentChain` (the recursive lineage query), `FetchPool` (sender, workers, cancellation),
`Discover` (the discovery cursor), `MigrationGuards` (history, inventory and catalogue checks).

## What the model found

- `Store.Rollback` of a savepoint gives the rows back but not the flags (pkg/oauthserver/transactions.go:196-208).
  `OAuthCounterexamples` holds two concrete drivers: one commits an approval that left no code, one commits a replay
  that recorded no event. `OAuthSafety.AuthorizeEndings` and `OAuthSafety.ReplayEndings` give the exact condition:
  what the flags promise must have survived every savepoint rollback.
- Nothing ties the PKCE row of an authorization to its code: with no savepoint at all, a driver that names two requests
  commits a code whose request has no PKCE row (`OAuthCounterexamples.TwoRequestsSplitApproval`). A commit is a full
  approval exactly when a consumed consent and a code and a PKCE row of one request survived; naming one request
  throughout and rolling no savepoint back suffices (`OAuthSafety.OneRequestApproves`).
- Rolling back a savepoint gives up the locks taken in it, but not the decision flag. A driver that found its consent
  inside such a savepoint, went on after a logout and was refused the second time still commits its code, with the
  consent unspent: rows that neither order of the two transactions gives (`OAuthReleasedLocks.ReleasedLocksAreNotSerial`).
- Once a consent has been consumed, an error of the provider never reaches the client: the decision flag makes every
  rollback a reported failure, so the redirect with an error (pkg/oauthserver/authorize.go:246-247) is only ever taken
  for a denial. And a denial is committed even if the consent opens to another client at the second reading
  (`OAuthDecision.ResponseTo`, `OAuthDecision.Decide`).
- A consent is consumed at most once only while its handle is not bound again: cleanup deletes the consumed row, and
  nothing in the tables then refuses the handle (`OAuthConsents.BoundAgainIsFresh`). In the same way a code whose signature
  is issued again after its family was deleted is consumed a second time (`OAuthNecessity.ReissuedIsConsumedAgain`).
- The store lets an exchange create two access tokens for one grant, so the one-pair property rests on the library's order
  of calls (`OAuthNecessity.UndisciplinedBreaksPair`).
- The greedy partitioner stops as soon as a part is full, so a blank text after a full part would cost an extra part;
  without blank texts it is optimal (`Partition.BlankNeedsAnExtraPart`, `Partition.PartitionChunks`). The page loader
  refuses blank texts before they get there, so this concerns the function alone.
- A chunk whose two text columns are blank passes the size check and then fails the page, so the walk cannot get past
  it; the walk ends well exactly when no admitted chunk is blank (`EmbedPages.WalkCoversAll`).
- Forgetting idle clients is invisible exactly when `rps * ttl >= burst`; otherwise a client can get two bursts
  around a tick (`RateLimiter.InvisibleIff`). The defaults meet the condition.
- An article number with a leading zero is accepted as a repeat of the last article although it has no suffix letter
  (`ActStructure.LeadingZeroRepeats`). A repeat is lettered exactly when it is not a bare number with a leading zero
  (`ActStructure.RepeatsIff`, `ActStructure.RepeatsAreLettered`), and each such number can repeat
  (`ActStructure.BareZeroCanRepeat`).
- A document dated past the year 9999 writes a watermark that cannot be parsed again, so the cursor falls back to the
  zero time; otherwise it never moves back (`Discover.NeverMovesBack`). The comment on `Discover` says a retry never
  loses a document; with a positive limit it can (`Discover.LimitLosesDocuments`): a run takes every eligible document
  exactly when they are no more than its limit (`Discover.TakesAllIff`), and a skipped one is out of reach of the next
  query exactly when it is more than the overlap older than the newest (`Discover.PassedByIff`).
- The fetch pool can return an error although every artifact succeeded, when the context is cancelled after the last
  one (`FetchPool.ResultIsExact`, `FetchPool.LateCancelFails`).
- In `acceptArticle` the separate case for a first article 1 can never be reached: it is already one more than zero.

## Assumptions

- SQL statements are taken as table contracts, read from `sql/auth/queries/oauth.sql` and the migration that defines
  the audit and blocking functions. Marking statements return the number of rows they changed.
- Request ids and signatures are random: theorems over histories assume that a history does not issue the one in
  question again. A request id stands for the grant's key.
- Token strategies, hashes and the embedding provider are functions that nothing is assumed of, except where a
  theorem says so (no hash collisions, a provider that answers with its own vector).
- Account rows are locked until the transaction ends, so grants, credentials, the account's status and its epoch stand
  still under an open operation. Web sessions and consents do not: each statement sees what has been committed, and a
  row that a consent call has found stays locked until the operation ends. A call is one step.
- Strings are sequences of characters; sizes are their UTF-8 lengths. Clocks are inputs; database times are whole microseconds; arithmetic of scores, tokens and rates is over the reals.

## Model

| member | source | states |
|---|---|---|
| RequestCodec.DecodeAfterEncode | pkg/oauthserver/codec.go:62-154 | `Decode` after `Encode`, into any session object, gives the request again, its form restricted to the stored keys and its expiries kept, with gaps filled from that object only |
| RequestCodec.EncodeAfterDecode | pkg/oauthserver/codec.go:62-154 | a snapshot that was read back into any session object is accepted again, and unchanged exactly when that object had nothing to add |
| RequestCodec.EncodeIff | pkg/oauthserver/codec.go:62-265 | a request is stored exactly if it asks for the one scope and audience and grants no more, names a registered client with its own redirect URI and the account by its number, and its form and expiries fit |
| RequestCodec.StoredFormIsBounded | pkg/oauthserver/codec.go:302-310 | a stored form holds only allowed keys with their first, non-empty value; the code verifier never |
| RequestCodec.HydrationKeepsStored | pkg/oauthserver/codec.go:267-300 | a derived expiry of the target session never replaces one the snapshot carries |
| RequestCodec.HydrationFillsGaps | pkg/oauthserver/codec.go:267-300 | expiry by expiry: a stored one stays, an access or refresh expiry of the target fills a gap, nothing else appears |
| RequestCodec.HydrateSession | pkg/oauthserver/codec.go:267-291 | the caller's session object, or a fresh one, ends with exactly the hydrated session |
| OAuthStore.Operation.CreateAuthorizeCodeSession | pkg/oauthserver/store.go:119-153 | new operation state and answer are those of the code-creation step, faults included |
| OAuthStore.Operation.GetAuthorizeCodeSession | pkg/oauthserver/store.go:155-185 | the read, its replay detection and its errors are those of the specified step |
| OAuthStore.Operation.InvalidateAuthorizeCodeSession | pkg/oauthserver/store.go:187-203 | consumes the code once or refuses, as specified |
| OAuthStore.Operation.CreateAccessTokenSession | pkg/oauthserver/store.go:205-237 | inserts the access row and extends retention, or fails, as specified |
| OAuthStore.Operation.GetAccessTokenSession | pkg/oauthserver/store.go:239-265 | the access read with its checks in order |
| OAuthStore.Operation.CreateRefreshTokenSession | pkg/oauthserver/store.go:285-334 | needs the paired access row of the same grant, then inserts the refresh row |
| OAuthStore.Operation.GetRefreshTokenSession | pkg/oauthserver/store.go:336-372 | the refresh read and its replay detection |
| OAuthStore.Operation.RotateRefreshToken | pkg/oauthserver/store.go:392-415 | consumes the refresh token and revokes the grant's access tokens |
| OAuthStore.Operation.DeleteTokenSession | pkg/oauthserver/store.go:267-283 | revokes one access or refresh row; refused during introspection |
| OAuthStore.Operation.CreatePKCERequestSession | pkg/oauthserver/store.go:425-451 | inserts the PKCE row of the grant, or fails, as specified |
| OAuthStore.Operation.GetPKCERequestSession | pkg/oauthserver/store.go:453-473 | the PKCE read with its checks |
| OAuthStore.Operation.DeletePKCERequestSession | pkg/oauthserver/store.go:475-491 | consumes the PKCE row once or refuses |
| OAuthStore.Operation.FetchCredential | pkg/oauthserver/store.go:531-568 | returns the credential exactly when owner, account, grant and credential all check out |
| OAuthStore.Operation.RevokeGrant | pkg/oauthserver/store.go:675-724 | revokes the family and records the replay event once, or fails, as specified |
| OAuthStore.Operation.ConsumePendingConsent | pkg/oauthserver/consent_store.go:83-153 | consumes a usable bound consent, notes the decision and hands the consent back, or refuses |
| OAuthStore.Operation.BeginTX | pkg/oauthserver/transactions.go:161-180 | opens the one savepoint with a copy of the rows |
| OAuthStore.Operation.Commit | pkg/oauthserver/transactions.go:182-194 | closes the savepoint and keeps the rows |
| OAuthStore.Operation.RollbackSavepoint | pkg/oauthserver/transactions.go:196-208 | gives the rows back and keeps the flags |
| OAuthStore.Operation.Finish | pkg/oauthserver/transactions.go:100-145 | installs or drops the private rows as the commit policy says, and closes the outer transaction exactly once; a second call changes nothing |
| OAuthStore.Operation.Release | pkg/oauthserver/transactions.go:147-159 | closes the outer transaction of an unfinished operation, once, and leaves the tables alone |
| OAuthStore.Operation.Perform | pkg/oauthserver/store.go:119-491 | any call of a driver is the specified step |
| OAuthStore.Begin | pkg/oauthserver/transactions.go:62-95 | an operation opens exactly when the trusted binding is accepted and, for authorization, the account is active |
| OAuthCalls.RefusedChangesNothing | pkg/oauthserver/store.go:119-491 | a call that does not succeed changes no row |
| OAuthCalls.CodeCreated | pkg/oauthserver/store.go:119-153 | success adds a new open grant and one live code row that matches it, and nothing else |
| OAuthCalls.CredentialCreated | pkg/oauthserver/store.go:205-237 | success adds one live row to an open grant, extends its retention to the expiry, and changes nothing else |
| OAuthCalls.RefreshIsPaired | pkg/oauthserver/store.go:285-334 | a new refresh token names an unrevoked access token of the same grant |
| OAuthCalls.UsedOnce | pkg/oauthserver/store.go:187-203 | the row was live, is consumed now, and nothing else changed |
| OAuthCalls.Rotated | pkg/oauthserver/store.go:392-415 | a live refresh token of the request is consumed, its access tokens are revoked, no other row changes |
| OAuthCalls.TokenRevoked | pkg/oauthserver/store.go:267-283 | exactly one row is revoked |
| OAuthCalls.FamilyGoes | pkg/oauthserver/store.go:675-700 | the grant and its whole family are revoked with the first reason kept, and no other family changes |
| OAuthCalls.ConsentSpent | pkg/oauthserver/consent_store.go:83-111 | the consent was usable by its session, is consumed now, and nothing else changed |
| OAuthCalls.CreationWrites | pkg/oauthserver/store.go:119-153 | every creation writes the snapshot of its request, the expiry of its kind and the paired access token; a code also its grant |
| OAuthCalls.WrittenIsRead | pkg/oauthserver/codec.go:62-154 | and a later read of such a row gives that request back, its form cut down to the stored keys |
| OAuthAnswers.BeginIff | pkg/oauthserver/transactions.go:62-95 | an operation begins exactly for the one resource and a registered client, presenting what its purpose asks for; an authorization needs an active account |
| OAuthAnswers.GetCodeAnswer | pkg/oauthserver/store.go:155-185 | on good tables a live code of a grant open to the client is returned, a used one that is presented and proved notes its replay, and anything else is refused without a trace |
| OAuthAnswers.GetRefreshAnswer | pkg/oauthserver/store.go:336-372 | the same for a refresh token: a replay only in an exchange, proof asked for in a revocation |
| OAuthAnswers.GetAccessAnswer | pkg/oauthserver/store.go:239-265 | an access token is returned exactly while it is live and its grant is open, with proof in a revocation |
| OAuthAnswers.GetPkceAnswer | pkg/oauthserver/store.go:453-473 | a PKCE row exactly while it is live and its grant is open to the exchange |
| OAuthAnswers.UseIff | pkg/oauthserver/store.go:187-203 | a code or PKCE row is used up exactly when it is live and its grant is open to the exchange |
| OAuthAnswers.RotateIff | pkg/oauthserver/store.go:392-415 | a refresh token is rotated exactly when it is live, of that request and its grant is open |
| OAuthAnswers.DeleteIff | pkg/oauthserver/store.go:267-283 | a token is deleted exactly when its grant is open, in any operation but an introspection |
| OAuthAnswers.RevokeIff | pkg/oauthserver/store.go:675-724 | a family is revoked exactly if its grant is current for the client, unless the replay of another one was noted |
| OAuthAnswers.ConsumeConsentIff | pkg/oauthserver/consent_store.go:113-153 | a consent is consumed exactly when it is unused, unexpired and bound to this live, unexpired session of an active account at its epoch |
| OAuthAnswers.CreateCodeIff | pkg/oauthserver/store.go:119-153 | a code is created exactly for an unused request id and signature, a storable request of the binding and an expiry ahead |
| OAuthAnswers.CreatePkceIff | pkg/oauthserver/store.go:425-451 | a PKCE row exactly for an open grant that the request agrees with, an unused signature and an expiry ahead |
| OAuthAnswers.CreateAccessIff | pkg/oauthserver/store.go:205-237 | an access token likewise, in an exchange |
| OAuthAnswers.CreateRefreshIff | pkg/oauthserver/store.go:285-334 | a refresh token if also the named access token of that grant is there unrevoked |
| OAuthAnswers.SavepointIff | pkg/oauthserver/transactions.go:161-208 | a savepoint begins exactly while none is open, and closes only an open one |
| OAuthAnswers.FaultNeverSucceeds | pkg/oauthserver/store.go:733-750 | a call with a database fault neither succeeds nor hands out a request |
| OAuthAnswers.FailureIsNoted | pkg/oauthserver/store.go:733-750 | an operation is marked as failed exactly when a call answers with a storage failure |
| OAuthAnswers.UnsoundIsRejected | pkg/oauthserver/store.go:599-648 | on any tables, a row that disagrees with its own snapshot is a storage failure to whoever may use it |
| OAuthAnswers.UnsoundTokenIsRejected | pkg/oauthserver/store.go:239-265 | a live access token likewise |
| OAuthEffects.Classify | pkg/oauthserver/store.go:119-491 | every store call, with or without a fault, does nothing, moves back to the savepoint, or makes one of seven named row changes under its guard |
| OAuthRuns.StepFlags | pkg/oauthserver/store.go:119-491 | what every call does to flags and savepoint, in terms of its answer; a refused call changes no row |
| OAuthInvariants.EffectKeepsGood | pkg/oauthserver/store.go:599-648 | every effect keeps each stored row in agreement with its grant and its own expiry column |
| OAuthInvariants.DeadForever | pkg/oauthserver/store.go:650-661 | a revoked or outdated grant stays so as tables grow |
| OAuthRuns.ExecInv | pkg/oauthserver/transactions.go:100-208 | the run invariant holds after any calls of any driver with any faults, and ties flags to rows |
| OAuthSafety.OperationIsAtomic | pkg/oauthserver/transactions.go:100-159 | all or nothing for every driver: unchanged tables, or the private rows, and the result keeps every invariant |
| OAuthSafety.IntrospectionChangesNothing | pkg/oauthserver/store.go:505-529 | an introspection operation leaves every row as it was, whatever it calls |
| OAuthSafety.RevocationIssuesNothing | pkg/oauthserver/store.go:675-700 | a revocation operation issues no credential and touches no consent |
| OAuthSafety.AuthorizeEndings | pkg/oauthserver/transactions.go:100-145 | authorization ends unchanged, denied or committed; a commit is a full approval exactly when a consumed consent and a code and a PKCE row of one request survived the savepoints |
| OAuthSafety.OneRequestApproves | pkg/oauthserver/transactions.go:139-145 | a driver that names one request throughout and rolls no savepoint back commits only full approvals |
| OAuthSafety.ReplayEndings | pkg/oauthserver/transactions.go:109-136 | a detected replay ends in a reported failure with unchanged tables or a commit that issues nothing; family revoked with one event exactly when the revocation survived the savepoints |
| OAuthCommits.CommitsExactly | pkg/oauthserver/transactions.go:100-145 | which of the three commits happens, exactly, from the calls and answers of an operation, the protocol error and the fault of its end |
| OAuthCommits.RollbackIsReported | pkg/oauthserver/transactions.go:124-133 | a rollback is a reported failure exactly when storage failed, a savepoint was left open, a replay or a decision had come up, or the protocol had succeeded |
| OAuthCounterexamples.SavepointLosesApproval | pkg/oauthserver/transactions.go:196-208 | from good tables, in the handler's order, a concrete driver commits an approval that leaves neither grant nor code |
| OAuthCounterexamples.TwoRequestsSplitApproval | pkg/oauthserver/transactions.go:139-145 | from good tables, without savepoints, a concrete driver commits a code whose request has no PKCE row |
| OAuthCounterexamples.SavepointLosesEvent | pkg/oauthserver/transactions.go:196-208 | from good tables a concrete driver commits a replay whose event is missing |
| OAuthHistory.AlwaysGood | pkg/oauthserver/store.go:599-648 | write/read agreement holds in every state of every history, with blocks, logins, logouts and every cleanup between operations |
| OAuthHistory.ReadsAgree | pkg/oauthserver/store.go:611-648 | no read of such a row fails on its snapshot, whatever expiries the target carries, and it returns the stored request |
| OAuthHistory.MarksNeverFail | pkg/oauthserver/store.go:630-648 | nor does any marking call |
| OAuthHistory.CleanupWaits | cmd/auth-cleanup/main.go:87-125 | cleanup never removes a code or token before it expires |
| OAuthHistory.CleanupSparesConsents | cmd/auth-cleanup/main.go:61-71 | the cleanups of consents and web sessions spare a consent that has not expired and whose session has not either |
| OAuthHistory.CleanupTakesExpired | cmd/auth-cleanup/main.go:61-125 | each cleanup takes what has expired: consents, web sessions with their consents, families past their retention |
| OAuthFlows.RevocationTakesEffect | pkg/oauthserver/store.go:675-700 | a revocation that ends well commits, and each family or token its calls revoked, without a rollback after it, is revoked in the database |
| OAuthFlows.PresentedFamilyIsRevoked | pkg/oauthserver/store.go:675-700 | reading a live token of the client, presented and proved, and revoking its family always succeeds |
| OAuthFlows.PresentedTokenIsRevoked | pkg/oauthserver/store.go:267-283 | deleting it revokes that row and nothing else |
| OAuthFlows.ReplayedFamilyDies | pkg/oauthserver/store.go:336-372 | the replay of a used code or refresh token is detected and ends with its family revoked, one event of its kind and nothing issued |
| OAuthIssuance.CredentialIsExchanged | pkg/oauthserver/store.go:205-334 | exchanging a live code or refresh token for a new pair always succeeds, and leaves exactly the used credential, the pair and, after a rotation, the old access tokens revoked |
| OAuthIssuance.ConsentIsGranted | pkg/oauthserver/store.go:119-153 | approving a usable consent for a new request always succeeds, and leaves exactly the used consent, the grant, the code and the PKCE row |
| OAuthLifetimes.ReplayKills | pkg/oauthserver/store.go:675-700 | a committed replay whose revocation survived the savepoints leaves the family of the presented credential dead |
| OAuthLifetimes.BlockKills | deploy/authmigrations/20261011000000_init.sql:196-232 | so does blocking the account, even if it is unblocked later |
| OAuthLifetimes.BlockEnds | deploy/authmigrations/20261011000000_init.sql:196-232 | a block ends every session and revokes every grant, keeping earlier reasons, and unblocking gives none of it back |
| OAuthLifetimes.UnblockKills | deploy/authmigrations/20261011000000_init.sql:237-266 | unblocking begins a new epoch: no earlier grant or session is good afterwards, even on an account that was active |
| OAuthLifetimes.SilentForever | pkg/oauthserver/store.go:650-661 | a dead family stays dead over every later history |
| OAuthLifetimes.RunKeepsSilent | pkg/oauthserver/store.go:570-597 | and gains no credential inside any operation |
| OAuthLifetimes.SilentIsUnreadable | pkg/oauthserver/store.go:531-568 | and none of its credentials is ever read |
| OAuthLifetimes.ConsumedAtMostOnce | pkg/oauthserver/store.go:187-203 | no code, PKCE row or refresh token is consumed twice in a history that does not issue it again |
| OAuthLifetimes.ConsumptionIsExchange | pkg/oauthserver/store.go:187-203 | whatever consumes one is a committed token exchange |
| OAuthConsents.ConsumptionIsAuthorized | pkg/oauthserver/consent_store.go:113-153 | a consent is consumed only by a committed authorization that named it with its bound, unexpired, unrevoked session of an active account at its epoch |
| OAuthConsents.BindingIsAuthorized | pkg/oauthserver/consent_store.go:113-153 | a consent comes into an account only through a live session of the active account at its current epoch, unconsumed and unexpired |
| OAuthConsents.ConsentNeverChanges | pkg/oauthserver/consent_store.go:113-153 | a consent whose handle is not bound again is gone or keeps its session, request and expiry; once consumed it is gone or stays so |
| OAuthConsents.ConsentConsumedAtMostOnce | pkg/oauthserver/consent_store.go:83-111 | no consent is consumed twice in any history that does not bind its handle again |
| OAuthConsents.BoundAgainIsFresh | sql/auth/queries/identity.sql:108-131 | after a cleanup the handle can be bound again and the consent is consumed a second time, so that condition is needed |
| OAuthNecessity.ReissuedIsConsumedAgain | cmd/auth-cleanup/main.go:87-125 | from good tables, consumed, cleaned up, issued again under the same signature and consumed again: the freshness condition is needed |
| OAuthExchange.ExchangeKeepsPair | pkg/oauthserver/store.go:205-237 | a well-behaved exchange keeps at most one live token of a kind per grant at every call |
| OAuthExchange.OthersKeepPair | pkg/oauthserver/store.go:425-491 | every other operation keeps that without any discipline |
| OAuthExchange.OnePairForever | pkg/oauthserver/store.go:285-334 | every reachable state has at most one live refresh token and one live access token per grant |
| OAuthNecessity.UndisciplinedBreaksPair | pkg/oauthserver/store.go:205-237 | from good tables with one pair, an exchange that creates two access tokens commits two live ones for one grant: the discipline is needed |
| OAuthDecision.HandleDecision | pkg/oauthserver/authorize.go:149-260 | whatever happens to the account between the first read and the operation: approval consumed exactly the consent, usable by the caller when it was consumed; denial changed nothing else; every other response changed nothing; the response is exact, and approval is for the client that the consent opened to at both readings |
| OAuthDecision.Decide | pkg/oauthserver/authorize.go:207-260 | the same for the operation alone, approved exactly when the consent is usable, opens to the binding's client again and the provider issues a code and a PKCE row without a failure, denied exactly when it opens at all; with logouts and short cleanups committing between its beginning and the consumption |
| OAuthDecision.ApprovalEnding | pkg/oauthserver/authorize.go:189-260 | a committed approval consumed that consent, and is full exactly when the provider kept a code and a PKCE row of one request |
| OAuthDecision.AtMostOneDecision | pkg/oauthserver/authorize.go:207-260 | of two decisions on one consent at most one is approved or denied, whatever happens in between except binding the handle again |
| OAuthOverlap.StepCommutes | pkg/identity/store.go:178-190 | a logout or short cleanup that touches no row locked by the call may come before or after it |
| OAuthOverlap.RunCommutes | pkg/identity/store.go:178-190 | a whole operation overtaken by one is the operation begun after it |
| OAuthConcurrency.UsersFind | pkg/oauthserver/store.go:531-597 | a call that changes rows of an account or hands out a stored request is one whose lookup finds, and so locks, that account |
| OAuthConcurrency.StepIsSerial | pkg/oauthserver/store.go:531-597 | every step of an interleaving leaves the committed rows alone or makes one serial transition of one account, logouts beside an open operation included |
| OAuthConcurrency.Serializable | pkg/oauthserver/store.go:531-597 | any interleaving equals, account by account, its transitions one after another in commit order |
| OAuthConcurrency.RollbackFreesAccount | pkg/oauthserver/transactions.go:196-208 | those interleavings include drivers that roll back the savepoint in which they locked their account, which is free from then on |
| OAuthReleasedLocks.ReleasedLocksAreNotSerial | pkg/oauthserver/transactions.go:196-208 | but not those that give up the lock of a found consent: from good tables such a driver, with a logout after its rollback, commits rows that neither order gives |
| OAuthConcurrency.InterleavedStatesAreSafe | pkg/oauthserver/store.go:531-597 | so agreement and the one-pair property hold in every interleaved state |
| OAuthConcurrency.LogoutOvertakes | pkg/identity/store.go:178-190 | a logout commits beside an operation that has only begun, whose consent call then refuses the session |
| OAuthConcurrency.LockedRowsWait | pkg/oauthserver/consent_store.go:118-132 | once any call of an open operation has found its consent, no logout or cleanup that changes that consent or session commits until the operation ends |
| OAuthConcurrency.InterleavedSilence | pkg/oauthserver/store.go:650-661 | a dead family stays dead over every interleaving |
| OAuthConcurrency.InterleavedUnreadable | pkg/oauthserver/store.go:531-568 | and in any later interleaved state no call of an open operation reads a credential of it |
| OAuthConcurrency.InterleavedConsents | pkg/oauthserver/consent_store.go:113-153 | so does the consent lifetime |
| OAuthConcurrency.InterleavedConsumedOnce | pkg/oauthserver/store.go:187-203 | over any interleaving a credential is consumed at most once, unless it is issued again in between |
| LockOrder.EveryPathIsDisciplined | pkg/oauthserver/store.go:531-597 | every path, rotation and login included, locks the account first, then only rows of that account and at most one consent, after its session |
| OAuthLocks.ChangesAreLocked | pkg/oauthserver/store.go:531-597 | and every row that a call changes is one that its path locks |
| LockOrder.AdvanceKeepsExclusive | cmd/auth-cleanup/main.go:87-125 | no lock is ever held twice |
| LockOrder.RollBackKeepsExclusive | pkg/oauthserver/transactions.go:196-208 | nor after a rollback to a savepoint, which gives up the locks taken since, whatever calls follow |
| LockOrder.RolledBackPathIsDisciplined | pkg/oauthserver/transactions.go:196-208 | and the calls that follow keep to the discipline |
| LockOrder.WaitingGoesDown | pkg/oauthserver/consent_store.go:113-132 | a waiting transaction is blocked only by one nearer to running |
| LockOrder.NoDeadlock | pkg/oauthserver/store.go:702-724 | from any waiting transaction the blockers lead to one that can run, short cleanups and logouts included |
| LockOrder.NoWaitCycle | pkg/oauthserver/store.go:702-724 | no chain of waiting transactions closes |
| RerankCap.SortStable | cmd/eval/rerank_experiment.go:96-109 | the in-place insertion sort leaves the stable descending order |
| RerankCap.StableOrderIsSorted | cmd/eval/rerank_experiment.go:96-109 | that order lists every index once, by descending score with ties in input order, a missing score counting zero |
| RerankCap.RankedMeans | cmd/eval/rerank_experiment.go:96-109 | of two places the first has the higher score, a missing one counting zero, or the same and the smaller index |
| RerankCap.RankedIsUnique | cmd/eval/rerank_experiment.go:100-109 | there is only one such order, so any stable sort gives it |
| RerankCap.RerankAndCap | cmd/eval/rerank_experiment.go:95-124 | the loop with its per-document counts returns the hits of the capped greedy selection |
| RerankCap.SelectionIsBest | cmd/eval/rerank_experiment.go:110-123 | the selection is feasible and in order; no feasible selection is larger or better at any place, nor of greater total at the same size |
| Partition.PartitionChunks | pkg/pipeline/embed_all.go:569-599 | errors exactly on a limit that is not positive or a chunk over the byte limit, naming the first; otherwise the chunks in order, non-empty parts within both limits, and fewest parts |
| Partition.FillPart | pkg/pipeline/embed_all.go:582-595 | a part within both limits that could not have taken the next chunk |
| Partition.FewestWithoutBlanks | pkg/pipeline/embed_all.go:569-599 | without blank texts no split within the limits has fewer parts |
| Partition.FewestFillingAtEnd | pkg/pipeline/embed_all.go:592-594 | in general none whose parts reach the byte limit only with their last chunk has fewer |
| Partition.BlankNeedsAnExtraPart | pkg/pipeline/embed_all.go:592-594 | a concrete input with a blank text, which only a direct caller can pass, where the result is not the smallest |
| EmbedPages.LoadPage | pkg/pipeline/embed_all.go:438-540 | the page loader returns exactly the specified page, or fails exactly when an admitted chunk of it has blank text |
| EmbedPages.HandledIsMost | pkg/pipeline/embed_all.go:479-497 | a page takes as many candidates as its limits allow: one more would break a limit |
| EmbedPages.PageIsBounded | pkg/pipeline/embed_all.go:479-503 | a page keeps both limits, its cursor strictly grows while candidates remain, and it is complete exactly when none lie beyond the cursor |
| EmbedPages.TextIs | pkg/pipeline/embed_all.go:518-522 | the text of a chunk is its prefix and its content, each without the white space around it, on two lines, or the one that is not blank alone |
| EmbedPages.TrimIsCore | pkg/pipeline/embed_all.go:518-522 | trimming leaves the middle between blank ends that itself starts and ends with no space |
| EmbedPages.TextIsBlankIff | pkg/pipeline/embed_all.go:518-522 | the joined text is empty exactly when both columns are blank |
| EmbedPages.BeyondCursor | pkg/pipeline/embed_all.go:484-497 | the returned cursor leaves exactly the candidates not handled |
| EmbedPages.EmbeddedStayBehind | pkg/pipeline/embed_all.go:552-561 | chunks embedded since drop out of the query only at or before the cursor, so later pages are the same |
| EmbedPages.WalkCoversAll | cmd/pipeline/main.go:428-440 | repeating the shard ends within one page per candidate, ends well exactly when no admitted chunk is blank, and then covers every candidate once, in order, as entry or rejected |
| EmbedPages.WalkEmbeds | cmd/pipeline/main.go:428-440 | so it embeds exactly the chunks beyond its start whose size is within both limits, each once with its own text, and counts the others |
| EmbedPages.ShrinkingWalkIsWalk | cmd/pipeline/main.go:428-440 | the walk over a corpus that loses embedded chunks it has passed, whichever and after whatever page, has the same pages, so it covers the corpus it began with |
| EmbedPages.PageCanBePartitioned | pkg/pipeline/embed_all.go:335-338 | no loaded page can make the partitioner fail |
| EmbedCache.CacheAlwaysAgrees | pkg/pipeline/embed_all.go:358-381 | the cache holds the provider's vectors after any deliveries in any order, failed ones included |
| EmbedCache.PageEndsRight | pkg/pipeline/embed_all.go:301-388 | after an error-free run every chunk of the page, hit or miss, is stored and cached with the provider's vector; one answer per miss makes the written count the page size |
| EmbedCache.WidthsAreRight | pkg/pipeline/embed_all.go:358-381 | no vector of another width is ever stored or cached |
| EmbedCache.DeliveryIsWhole | pkg/pipeline/embed_all.go:358-381 | a delivery is stored, cached and counted exactly when nothing is wrong with it; a failed one is reported, not cached and not counted |
| EmbedCache.Shard.Resolve | pkg/pipeline/embed_all.go:301-333 | batched lookups store exactly the hits and leave exactly the misses, in order |
| EmbedCache.Shard.Prepare | pkg/pipeline/embed_all.go:301-338 | the misses come back in the fewest parts and the partitioner never fails |
| EmbedCache.Shard.Deliver | pkg/pipeline/embed_all.go:358-381 | one vector: refused, half written, or written to store and cache, as its checks and writes go |
| RateLimiter.RememberedIff | cmd/server/middleware.go:203-224 | a client is forgotten exactly when some tick finds its last request more than an idle period old |
| RateLimiter.WholeTokensAreAdmitted | cmd/server/middleware.go:179-199 | of requests at one moment as many are admitted as there are whole tokens |
| RateLimiter.BurstIsAdmitted | cmd/server/middleware.go:179-199 | a new client, and one that has been idle long enough, has exactly its burst at once |
| RateLimiter.Limiter.Allow | cmd/server/middleware.go:179-199 | the answer and the new client map of one request |
| RateLimiter.Limiter.Evict | cmd/server/middleware.go:203-224 | one tick drops exactly the clients seen before the cutoff |
| RateLimiter.InvisibleIff | cmd/server/middleware.go:201-224 | every trace gets the answers of a limiter that never forgets, exactly when an idle period refills a bucket |
| RateLimiter.DefaultsAreInvisible | cmd/server/middleware.go:24-33 | the three default limiters meet the condition |
| RateLimiter.TokensAreConserved | cmd/server/middleware.go:179-199 | tokens handed out plus tokens left never exceed the burst plus the refill |
| RateLimiter.AdmissionsInWindow | cmd/server/middleware.go:190-199 | any client gets at most burst + rps * window admissions in a window of that length |
| OutlineTree.OpenedKeepsOutline | pkg/pipeline/cambodiaparse.go:213-232 | after every push each node hangs under the nearest earlier node of smaller level, child lists are exact, and the stack is the path to the newest node |
| OutlineTree.StackLevels | pkg/pipeline/cambodiaparse.go:214-217 | open nodes have strictly increasing levels |
| OutlineTree.StackIsRightmost | pkg/pipeline/cambodiaparse.go:229-231 | each open node is the last child of the one before it |
| OutlineTree.PreorderIsCreationOrder | pkg/pipeline/cambodiaparse.go:213-232 | pre-order meets the nodes in creation order, each once |
| OutlineTree.TextIsAppended | pkg/pipeline/cambodiaparse.go:234-243 | a fragment joins the whole text at its end |
| OutlinePaths.UniqueSegment | pkg/pipeline/malaysiaparse.go:616-637 | the loop ends with the first numbered variant no sibling uses |
| OutlinePaths.SomeVariantIsFree | pkg/pipeline/malaysiaparse.go:632-636 | among more variants than siblings one is free |
| OutlinePaths.OpenedKeepsPaths | pkg/pipeline/cambodiaparse.go:224-230 | no two nodes of a tree share a citation path |
| ActMachine.Parser.Push | pkg/pipeline/cambodiaparse.go:213-232 | closing, counting, naming and linking give the specified tree |
| ActMachine.Parser.AcceptArticle | pkg/pipeline/cambodiaparse.go:165-181 | accepts the next number, or the last one again with something after its digits |
| ActMachine.Parser.InsideArticle | pkg/pipeline/cambodiaparse.go:183-190 | tells whether a section is open |
| ActMachine.Parser.Consume | pkg/pipeline/cambodiaparse.go:100-163 | one line changes tree and flags as specified, branch by branch |
| ActMachine.ParseAct | pkg/pipeline/cambodiaparse.go:20-28 | a whole act ends in the specified state |
| ActParser.TextIsKept | pkg/pipeline/cambodiaparse.go:234-243 | in pre-order the contents give back every fragment written after the first heading, once and in order |
| ActStructure.AlwaysLawful | pkg/pipeline/cambodiaparse.go:100-181 | which kinds hold which, article steps, and nothing but schedules after an annex hold after every line |
| ActStructure.NumbersRun | pkg/pipeline/cambodiaparse.go:165-181 | article numbers start at one, stay (with something after the digits) or go up by one, and skip none |
| ActStructure.RepeatsIff | pkg/pipeline/cambodiaparse.go:169-173 | the last number is accepted again exactly when it has a suffix or a leading zero |
| ActStructure.RepeatsAreLettered | pkg/pipeline/cambodiaparse.go:169-173 | in any act a repeat is lettered exactly when it is not a bare number with a leading zero |
| ActStructure.AllRepeatsLetteredIff | pkg/pipeline/cambodiaparse.go:165-181 | all repeats of an act are lettered exactly when none of them is such a number |
| ActStructure.BareZeroCanRepeat | pkg/pipeline/cambodiaparse.go:165-181 | every such number does repeat after the articles that lead up to it |
| ActStructure.LeadingZeroRepeats | pkg/pipeline/cambodiaparse.go:100-181 | a parsed act of two lines whose second article repeats the first without a letter |
| ActStructure.InArticleMeans | pkg/pipeline/cambodiaparse.go:183-190 | the stack scan is true exactly when the newest chapter, schedule or article is an article |
| ActStructure.RomanIff | pkg/pipeline/malaysiaparse.go:606-612 | the roman tokens are exactly the lower-case numerals from i to xxxix |
| ActStructure.SubItemIff | pkg/pipeline/cambodiaparse.go:192-208 | a roman numeral is a sub-item unless it is the next letter of the lettered list |
| ActStructure.ActKeepsOrdinals | pkg/pipeline/cambodiaparse.go:218-228 | siblings of one kind are numbered from one without gaps |
| ActParser.CaseFolds | pkg/pipeline/cambodiaparse.go:114-115 | folding leaves no letter of the other case and changes nothing but case |
| ActLists.AnnexOpens | pkg/pipeline/cambodiaparse.go:101-106 | an annex line opens a schedule under the root, named by the line |
| ActLists.ChapterOpens | pkg/pipeline/cambodiaparse.go:112-121 | a chapter line opens a chapter under the root, its number in capitals and its title as heading |
| ActLists.ArticleOpensUnder | pkg/pipeline/cambodiaparse.go:123-131 | an accepted article opens under the newest chapter, with what follows on its line as its text or its first subsection |
| ActLists.NumberedOpens | pkg/pipeline/cambodiaparse.go:133-138 | a numbered line in an article opens a subsection of that article and begins a new list |
| ActLists.LetteredOpens | pkg/pipeline/cambodiaparse.go:140-151 | an item hangs under its article or subsection, never under an item; a sub-item under the newest item of its list, if there is one |
| ActLists.LastItemMeans | pkg/pipeline/cambodiaparse.go:133-151 | the remembered token is that of the newest item of the current list, and empty while the list has none |
| ActLists.ParsedItem | pkg/pipeline/cambodiaparse.go:140-151 | the same for any lettered line of any parsed act |
| ActLists.OthersAreText | pkg/pipeline/cambodiaparse.go:153-154 | any other line is text for the newest node |
| ActStructure.NumberIsRead | pkg/pipeline/malaysiaparse.go:588-598 | an article number of up to eighteen digits is read exactly, and a longer one as no more than the widest integer |
| ActStructure.ParsedAct | pkg/pipeline/cambodiaparse.go:20-28 | all of these hold of every parsed act |
| AmendmentChain.LevelIff | pkg/mcp/corpus.go:1334-1357 | each depth holds a row exactly for each simple amending path of that length and each kind of its last step |
| AmendmentChain.LevelCopies | pkg/mcp/corpus.go:1334-1357 | and lists such a path once for every choice of one relation a step, the last of the row's kind |
| AmendmentChain.ListsExactlyTheLineage | pkg/mcp/corpus.go:1327-1391 | the lineage lists exactly the known documents other than the base within the cap's number of amending steps, on any graph |
| AmendmentChain.LeastDepthIsDistance | pkg/mcp/corpus.go:1344-1357 | the least depth listed for a document is its distance |
| AmendmentChain.WalkEnds | pkg/mcp/corpus.go:1354-1355 | the path guard alone makes the walk finite, cycles included |
| AmendmentChain.ChainMaxDepth | pkg/mcp/corpus.go:1394-1403 | the loop returns the deepest level present |
| AmendmentChain.DeepIff | pkg/mcp/corpus.go:1167-1179 | the chain is shown exactly when another document amends an amender |
| FetchPool.DoKeepsInv | cmd/pipeline/main.go:263-300 | every step of sender, worker or context keeps the pool's bookkeeping exact |
| FetchPool.AtMostOnce | cmd/pipeline/main.go:275-291 | no schedule processes an artifact twice |
| FetchPool.AtMostConcurrency | cmd/pipeline/main.go:263-275 | there are as many workers as asked for, or as artifacts if those are fewer |
| FetchPool.FirstErrorIsKept | cmd/pipeline/main.go:280-291 | the error kept is the first one recorded, and that of an artifact that failed |
| FetchPool.NoDeadlock | cmd/pipeline/main.go:293-303 | until the pool returns someone can move |
| FetchPool.EveryRunEnds | cmd/pipeline/main.go:263-314 | every schedule is finite, with a bound |
| FetchPool.ResultIsExact | cmd/pipeline/main.go:304-314 | attempted is succeeded plus failed, and the error is nil exactly when every artifact succeeded and nothing was cancelled |
| FetchPool.LateCancelFails | cmd/pipeline/main.go:304-314 | a schedule in which every artifact succeeds and the pool still returns an error |
| Discover.Ledger.Discover | pkg/pipeline/activities.go:177-298 | one run's records, cursor and result, with each failure |
| Discover.SucceedsIff | pkg/pipeline/activities.go:225-298 | a run succeeds exactly when its feed was complete and no write it came to failed |
| Discover.HighestIs | pkg/pipeline/activities.go:228-240 | the highest time is the stored one or the newest named document's |
| Discover.NeverMovesBack | pkg/pipeline/activities.go:225-292 | the watermark never moves back, except from a document dated past the year 9999; failed and incomplete runs never move it |
| Discover.WatermarkAfter | pkg/pipeline/activities.go:275-292 | a complete run leaves the highest time seen, in whole seconds, exactly when every time can be written |
| Discover.WatermarkOnlyGrows | pkg/pipeline/activities.go:365-382 | so over any mix of runs |
| Discover.VisibleInTimeIsRecorded | pkg/pipeline/activities.go:184-205 | an in-scope document visible before the watermark passes its time by 48 hours is recorded by the next complete run whose limit spares its documents, and stays recorded |
| Discover.TakesAllIff | pkg/pipeline/activities.go:246-254 | a run takes every eligible document exactly when its limit is not positive or no smaller than their number |
| Discover.PassedByIff | pkg/pipeline/activities.go:184-197 | after a complete run the next query misses a document exactly when it is more than the overlap older than the newest |
| Discover.PassedByForever | pkg/pipeline/activities.go:184-197 | and so does every later query but a full scan |
| Discover.OnlyEligibleRecorded | pkg/pipeline/activities.go:228-254 | nothing else is recorded |
| Discover.LimitLosesDocuments | pkg/pipeline/activities.go:246-249 | with a positive limit the cursor can pass a document that was skipped |
| MigrationGuards.CheckInventory | cmd/corpus-migrate/guards.go:43-56 | accepts exactly well-formed inventories with distinct keys |
| MigrationGuards.KeyInjective | cmd/corpus-migrate/guards.go:22-24 | keys are identities when schema and kind hold no slash |
| MigrationGuards.ReadHistory | cmd/corpus-migrate/guards.go:394-412 | accepts exactly versions 0, 1, 2 and so on within the chain, applied, under increasing positive ids |
| MigrationGuards.HistoryRuns | cmd/corpus-migrate/guards.go:394-412 | an accepted history holds each version at its place, applied, under ids that grow |
| MigrationGuards.Preflight | cmd/corpus-migrate/guards.go:253-335 | accepts exactly when schemas, every object and every expected key check out |
| MigrationGuards.ChainSchemasArePlain | cmd/corpus-migrate/main.go:82-94 | the schemas of every deployed chain are distinct and hold no slash |
| MigrationGuards.AcceptedIsDeclared | cmd/corpus-migrate/guards.go:279-335 | then, for every deployed chain and objects of any kind the catalogue query reports, the objects that are not exempt are exactly the live inventory entries, both ways, and of a kind an inventory may declare, and all objects but those of extensions have the expected owner |
| MigrationGuards.StrayKindIff | cmd/corpus-migrate/guards.go:279-335 | an operator, collation or other object of a kind no inventory declares is refused exactly unless it belongs to an approved extension, or to the version table in the public schema under the right owner |
| MigrationGuards.DependentsIff | cmd/corpus-migrate/guards.go:310-325 | a row type is exempt exactly when its relation is declared, an internal trigger exactly when its table and its constraint's are |
| MigrationGuards.OthersIff | cmd/corpus-migrate/guards.go:300-335 | any other ordinary object passes exactly when it is declared itself |
| MigrationGuards.EntryHasItsTime | cmd/corpus-migrate/guards.go:43-56 | an accepted entry names an object that is live from its creation to its removal, both within the chain |
| MigrationGuards.SchemasAreTheChains | cmd/corpus-migrate/guards.go:253-278 | and past version zero exactly the chain's schemas exist |

## Left out

- JSON text: a stored request is its record, so malformed JSON, invalid UTF-8 and year limits of the encoding are not modelled.
- Transport: HTTP handling, cookies, templates, redirects, headers and logging around the store are plumbing.
- Cryptography: HMAC, AES-GCM, SHA-256 and PKCE hashing are uninterpreted functions.
- The client registry is fixed while the model looks at it, and client assertions are always refused, as in the source.
- RequestCodec.DecodeAfterEncode: identifies the JSON document with the record it carries, because the encoding is the library's.
- OAuthConsents.ConsentConsumedAtMostOnce: assumes the handle is not bound again, because cleanup forgets it.
- OAuthDecision.HandleDecision: how a ciphertext opens to a client is a parameter, once for each reading; what commits after the consumption is left to OAuthConcurrency.Serializable.
- OAuthConcurrency.Serializable: a call of an operation that already locked one account names no rows of another account, because one operation serves one presented credential. A driver does not roll back the savepoint in which it found its consent, because it is false then (OAuthReleasedLocks.ReleasedLocksAreNotSerial); one that rolled back the savepoint in which it locked its account and found a replay there locks no account again, because the replay flag outlives what it saw. A consent call is one step, so a logout that commits between two of its statements is one that came before the call.
- OAuthConcurrency.StepIsSerial: leaves the same drivers out.
- OAuthExchange.OnePairForever: assumes each committed exchange does one consume, then one access and one refresh creation, because the store itself accepts other orders.
- OAuthLifetimes.ConsumedAtMostOnce: assumes the signature is not issued again after it was consumed, because the tables alone allow it once cleanup has deleted the row.
- OAuthLifetimes.SilentForever: assumes the request id is not issued again, for the same reason.
- LockOrder.NoDeadlock: the batch delete of expired login transactions is not among the transactions, because nothing else locks those rows; the other two batches take their rows at once, since they skip the locked ones.
- Creating an unbound pending consent is not a transition of its own: a consent enters an account's rows when it is bound.
- RerankCap.RerankAndCap: takes a topK that is not negative, because the source's slice allocation panics on a negative one.
- RerankCap.SortStable: is the insertion sort that the library uses for short slices; longer ones are covered by the uniqueness of the stable order.
- EmbedPages.WalkCoversAll: assumes a corpus that does not change during the walk except by embedding; provider failures between pages, after which the cursor still moves on, are not part of it.
- EmbedCache.PageEndsRight: the worker pool's limit, heartbeats and time-outs are not modelled; any order of deliveries is.
- RateLimiter.InvisibleIff: looks a limiter up and asks it in one step at one time; a request delayed by more than the ttl between the two is not modelled, nor is the library's rounding of times.
- ActMachine.Parser.Push: tree nodes are entries of one sequence, named by position, in place of separately allocated objects.
- ActParser.TextIsKept: lines arrive classified and trimmed; the regular expressions, `slug` and Unicode folding are not modelled.
- AmendmentChain.ListsExactlyTheLineage: rows carry depth, document and relation kind; titles, validity and the ordering of the rows are left out.
- FetchPool.EveryRunEnds: assumes that `process` returns; a concurrency that is not positive is refused before any of this.
- Discover.Ledger.Discover: recording one document is one write; its several rows and the matcher's vocabulary are inputs.
- MigrationGuards.Preflight: the catalogue query, role checks and column checks are inputs; reading the inventory file is not modelled.
- The remaining parsers, extraction, retrieval, landing pages and reports are left out, since they would add easy members only.
