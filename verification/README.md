# Verification of the authentication platform

A Dafny 4.11 model of the platform's stateful protocols, with proofs over every input, every
interleaving and every run. `dafny verify dfyconfig.toml` checks it.

## What is modelled

**Refresh-token rotation.** `TokenTable` is the `refresh_tokens` table: every SQL statement or
transaction is one effect on it, and the table invariant survives every effect that runs under its
own WHERE clause. `RefreshMachine` is the step machine: refresh, logout, sign-in, session revoke,
sign-out after a password reset or change, deactivation and the cleanup job, one atomic step for
each statement, transaction or clock read, with what each handler read earlier (stale row, stale
owner, prepared successor) kept in the request. `RefreshInvariant` proves the inductive invariant,
`RefreshTheorems`, `RefreshPlain`, `RefreshConcurrency`, `RefreshReplay`, `RefreshHopeless`,
`RefreshDeadline` and `RefreshServed` what follows for whole runs, `RefreshReasons` what the reason on
a revoked row does to a refresh that reads it, and `RefreshAlone` and `SessionEnds` what each handler
does in runs of its own steps, column by column. `SimpleMachine` is the promise
without rows or transactions: a login family is one head or dead, its immediate predecessor with
operation and time, and spent tokens that were turned or are plain; a refresh is granted or denied in
one step, one whose token was held as turned ever since it arrived is refused only after the kill, and
every other loss of a token carries out one order of one request (logout, session revoke, sign-out,
deactivation) or forgets what expired a retention ago. `RefreshFamilies` and `RefreshAbstraction` say
how its states lie in the token table, and `RefreshSimulation` proves that every history of the code
is a run of it, answer by answer.

**OAuth.** `OAuthMachine` is initiate, callback, store code and redeem over sealed states, the nonce
marker with its TTL and single-use codes; `OAuthTheorems` proves provenance and single use (RFC 6749
sections 4.1.2 and 4.1.3, RFC 7636 section 4.6), and `OAuthAlone` what initiate, callback and redeem
each do in runs of their own steps.

**Emailed tokens** (`AccountTokens`), **roles and permissions** (`Tenancy`, `TenancyTheorems`,
`TenancyAlone`, `TenancyCreation`), **the rate limiter** (`RateLimit`), **migration adoption** (`Adoption`) and
**scope checks** (`Scopes`).

The handlers themselves are methods on classes with the tables as fields (`RefreshHandlers`,
`OAuthHandlers`, `AccountHandlers`, `TenancyHandlers`, `RateLimit.Limiter`, `Adoption.Database`). In
the first four each statement method is proved to perform exactly its machine step on a ghost trace,
and `Yield`, which may append any steps of other requests, stands at every `await`; so the trace of a
handler is a run of the machine and the theorems about runs hold of it. `Yield`'s own body is empty
because only its contract, which callers rely on, speaks of interference.

The theorems about one handler's own steps, and the contracts of the statement methods, spell out the
rows, reasons, times and constants themselves instead of naming the machine's definitions, so a change
of meaning in one of those definitions does not go unnoticed.

## Assumptions

- Transactions and single statements are atomic and serializable; Redis commands and scripts are
  atomic, Redis stays up, and a key is live while the clock has not passed its expiry.
- Hashes are injective; ids, tokens, codes and nonces are fresh; sealed states open only if the
  platform sealed them.
- One clock that never goes back. The clock reads inside one transaction share its instant.
- Grace period (at most 60 s), token lifetime and limits are constant.
- Client credentials are checked before a refresh or an account request begins; the model starts with
  the resulting client.

## What the proofs found

1. Concurrent refreshes of one token, by its owner's client and for an active user, with distinct
   operation ids do not always end with every session revoked. The handler reads its clock before the rotation transaction (`src/routes/auth.ts:330-345`),
   so a rotation can commit after the token expired; a competitor that read the row in between, expired
   but not revoked, answers 401 without noticing a replay, and the winner's successor stays active.
   `RefreshDeadline.LateWinner` builds such a run for any number of racers, and
   `RefreshDeadline.RevokedExactlyBeforeExpiry` gives the exact condition over every starting state: it
   fails only for a token that is usable at the start and may expire before the race is over.
2. Concurrent refreshes by the owner's client, of an active user, with one operation id are not always
   all answered. One that read its row as
   active, and finds it expired at the branch (`src/routes/auth.ts:298`), answers 401 even when its
   operation rotated the token meanwhile (`RefreshServed.OneOperationCanSplit`).
   `RefreshServed.ServedExactlyBeforeExpiry` gives the exact condition: nobody is ever refused if and
   only if the token outlasts the race. The simple machine therefore may always refuse an expired token.
3. A state can be accepted twice when its age check and its nonce SET lie far apart
   (`src/routes/oauth.ts:140-157`). `OAuthTheorems.SecondAcceptanceWaited` bounds this: the gap must
   exceed the state's age at the first acceptance; `OAuthTheorems.LongWaitAcceptsTwice` shows that
   every larger gap suffices.
4. The limiter admits at most `2 * max - 1` requests in any closed interval of one window, and that
   bound is reached for every window and every positive `max`.
5. The splitting scope match accepts grants such as `users:*:own` as `users:*`
   (`src/services/apiKey.ts:38-46`) and the lookup for signed-in users does not;
   `Scopes.ChecksAgreeExactly` says when the two agree.
6. Replacing a role's permissions with a list that repeats an id passes the ownership check, deletes the
   old rows and then fails on the primary key (`src/routes/roles.ts:259-268`), so the role ends with no
   permissions. `TenancyAlone.ReplaceExactly` states exactly when a replacement does what it says. In the
   same way a role creation (`src/routes/roles.ts:204-223`) leaves a role without permissions, and a
   provisioning (`src/routes/users.ts:79-87`) a user without roles; `TenancyCreation.CreateExactly` and
   `TenancyCreation.ProvisionExactly` state when.
7. A row revoked by logout, the sessions API, a retry or a security event does not always end in a plain
   401: a refresh that read it as rotated before such a revocation overwrote the reason
   (`src/routes/auth.ts:416-419`) still revokes every session
   (`RefreshPlain.OverwrittenAfterRead`). `RefreshPlain.ReplayExactlyIfReadAsRotated` proves that these
   are exactly the exceptions, and `RefreshPlain.PlainRevokedEndsIn401` that all others, however stale
   their first read, change no row and end in the plain 401.

## Model

| member | source | states |
|---|---|---|
| TokenTable.ApplyKeepsInv | src/routes/auth.ts:131-151 | Every conditional update, insert and delete on the token table, run under its own WHERE clause, keeps distinct hashes, one active row per login family, successor pointers that are injective, stay in the family, point forward and never outlive their successor, and the record of first rotations; history only grows. |
| RefreshInvariant.NextKeepsInv | src/routes/auth.ts:272-430 | The table invariant together with what every in-flight request still knows (its stale row only evolved in allowed ways, its prepared successor is unused, its owner belongs to its client) survives every step of every handler. |
| RefreshInvariant.HistoryInv | src/db/schema.ts:270-298 | From any legacy table (rows without operation hash or successor, null reasons) every state of every history satisfies that invariant. |
| RefreshTheorems.FamiliesAreChains | src/routes/auth.ts:332-352 | In every reachable state a login family has at most one active row, and successor pointers are injective, stay with one user and strictly increase insertion order. |
| RefreshTheorems.RetryOnlyFromImmediatePredecessor | src/routes/auth.ts:109-151 | A retry is accepted only for the one row that points at its family's only active row, which it revokes and replaces. |
| RefreshTheorems.Walk | src/routes/auth.ts:131-150 | Following successor pointers from any row ends, at a row without successor of the same login family and user. |
| RefreshTheorems.DeadStaysDead | src/routes/auth.ts:52-62 | Once every row of a login family is revoked, no interleaving with refreshes in flight gives the family an active row again. |
| RefreshTheorems.NoDescentAcrossCut | src/routes/account.ts:71-76 | After all rows of a user were revoked, every active row of that user descends from a sign-in issued after the cut. |
| RefreshTheorems.DeactivationStopsRefresh | src/routes/users.ts:172-187 | After both statements of a deactivation, while the user stays inactive, no rotation or retry transaction commits for that user, even for refreshes that had read the owner as active. |
| RefreshTheorems.GraceFindsBothRows | src/jobs/cleanup.ts:8-24 | Within the grace period of a rotation both the predecessor and its current successor are still in the table. |
| RefreshTheorems.NoDanglingSuccessor | src/services/session.ts:137-146 | A retained row never points at a deleted one: its successor is present, belongs to the same user and expires no earlier. |
| RefreshTheorems.RotationWrittenOnce | src/routes/auth.ts:332-340 | Operation hash and rotation time never change once written, and a rotated row always has a successor pointer. |
| RefreshTheorems.RetryWithinFirstGrace | src/routes/auth.ts:110-129 | However many retries came before, an accepted one carries the operation of the first rotation and passes its locked check no later than that rotation plus the grace period. |
| RefreshTheorems.ReplayNeedsRotatedToken | src/routes/auth.ts:301-321 | Replay revocation is reached only if some earlier state held the presented token's row as revoked by rotation or with a null reason, and its owner belongs to the presenting client. |
| RefreshPlain.PlainRevokedIsPlain401 | src/routes/auth.ts:298-386 | One step of any refresh that presents a token revoked other than by rotation, even one that read the row as active: no 200, no row or user changed unless it stands before the replay revocation, and it is on the way there after the step exactly when it was before. |
| RefreshPlain.PlainRevokedEndsIn401 | src/routes/auth.ts:369-386 | From the moment a token is revoked other than by rotation, no refresh that presents it, in flight or still to arrive, is ever answered 200; unless it had read the row as rotated it reaches no replay revocation, changes no row and can only end in the plain 401. |
| RefreshPlain.ReplayExactlyIfReadAsRotated | src/routes/auth.ts:298-322 | A refused one of these refreshes went through the replay revocation if and only if it had read the row as rotated, for a user of its client. |
| RefreshPlain.OverwrittenAfterRead | src/routes/auth.ts:416-419 | A revocation that overwrites a rotated row after a refresh read it leaves that refresh on its way to the replay revocation. |
| RefreshPlain.NeverRotatedNeverRead | src/routes/auth.ts:301-305 | A token that was never rotated is never read as rotated, so the plain 401 holds for it without exception. |
| RefreshReasons.RotatedReadRefusedKills | src/routes/auth.ts:298-322 | In every run, whatever others do: a refresh that read its row as revoked with reason rotated or with no reason, for a user of its client, and ends in 401, went through the replay revocation before. |
| RefreshReasons.OtherReasonRefusedPlainly | src/routes/auth.ts:298-323 | One that read it as revoked by retry, logout, user_revoked or security goes straight to 401 whoever owns it: it never stands before the replay revocation or a 200, and no step it can take changes a row or a user. |
| RefreshReasons.NullReasonEndsRevoked | src/db/schema.ts:281-285 | A legacy row, revoked with a null reason, presented to any number of isolated refreshes at any point of any history: none of them is answered 200, and once one is refused no row of the user is active. |
| RefreshAlone.RefreshExactly | src/routes/auth.ts:272-389 | Every run of a refresh's own steps, with any time passing, from any reachable state. It answers 200 only for an active user of the client: by consuming an active row unexpired at that instant (revoked, rotated, operation, time, successor), or by revoking the unused successor of a rotated row as retry for the same operation within the grace period and repointing the row; the new row is active, of that user and expires one lifetime after it was made, and all other rows stay. It answers 401 only when neither was possible: it then marks exactly the user's active rows security if the row was revoked with reason rotated or null, and otherwise changes no row. |
| SessionEnds.EndsExactly | src/routes/auth.ts:402-427 | Every run of the own steps of a logout, sign-in, session revoke, revoke-all, sign-out, (de)activation or cleanup, row by row: logout overwrites exactly the presented row of its client's user; sign-in adds one active row for an active user; the sessions API revokes only the caller's active rows; sign-out and deactivation overwrite every row of the user, and only a user of the client is (de)activated; the cleanup leaves exactly the rows that expire no earlier than thirty days before the clock it read. |
| RefreshTheorems.OwnClientOnly | src/routes/auth.ts:290-295 | Refresh and logout insert and change only rows of users of the presenting client, and delete none. |
| RefreshConcurrency.OneOperationWins | src/routes/auth.ts:331-354 | All 200 answers ever given for one token carry one operation id. |
| RefreshServed.ServedExactlyBeforeExpiry | src/routes/auth.ts:298-323 | Concurrent refreshes of one unrevoked token with one operation id, inside the grace period and with a longer lifetime than grace, are never refused, in no interleaving, if and only if the token outlasts the race. |
| RefreshServed.OneOperationCanSplit | src/routes/auth.ts:290-298 | Over a token that expires before the race is over, any two racers can end with one answered 200 and one 401, also with one operation id. |
| RefreshServed.SameOperationAllSucceed | src/routes/auth.ts:356-367 | When such a race can refuse nobody and all are answered, every answer is 200 and exactly one active family row is left, the one the token's row points to. |
| RefreshReplay.RefusalKillsSessions | src/routes/auth.ts:369-386 | With no outside interference, a refused refresh of a live or rotated token has revoked every session of the user, and none comes back. |
| RefreshReplay.DistinctOperationsEndRevoked | src/routes/auth.ts:298-323 | Of any number of concurrent refreshes with pairwise distinct operation ids at most one answers 200; if one did and another ran, no row of the user is active at the end (the token being rotated before, or outlasting the race). |
| RefreshHopeless.NobodyAnswered | src/routes/auth.ts:298-345 | Over a token that is expired, or revoked for any reason but rotation, no isolated race answers any of its refreshes, and the token's row never changes. |
| RefreshDeadline.LateWinner | src/routes/auth.ts:330-345 | For any number of racers over a token that is usable at the start and may expire during the race, some run answers a chosen one 200 and refuses all others, and leaves a row of the user active. |
| RefreshDeadline.RevokedExactlyBeforeExpiry | src/routes/auth.ts:341-346 | A race of any number of refreshes, at least two, with distinct operation ids, over a token in any state, always ends with every session revoked when it is won at all, if and only if it is not the case that the token is usable at the start and may expire during the race. |
| RefreshSimulation.StepSimulated | src/routes/auth.ts:272-430 | Every statement-level step of every handler is one step of the one-head-per-family machine or none: a grant to a request whose owner was an active user of the client at some instant since it arrived; a denial that was right at that instant; a plain refusal only of a denied request whose token was at some instant not held as turned, or is no token of its client; otherwise a refusal only together with the kill of every head of the user; a session issued to an admitted sign-in; and the end of exactly the tokens that one pending logout, session revoke, sign-out or deactivation asks for. |
| RefreshSimulation.HistorySimulated | src/routes/auth.ts:272-389 | Every history is state by state a run of the simple machine, and every 200 and 401 the code gives is the one the simple machine decided. |
| RefreshHandlers.TokenService.Refresh | src/routes/auth.ts:272-389 | The refresh handler, with interference at every await, performs a run of the machine and returns the answer the machine's request ends with. When it read its row as revoked with reason rotated or null, for a user of its client, it was answered or its trace passes the replay revocation; when it read any other reason it is refused and the trace does not. |
| RefreshHandlers.TokenService.RotateTransaction | src/routes/auth.ts:331-354 | Rotates exactly when the row is present, active and unexpired at the earlier clock read, then marks it rotated with operation, time and successor and inserts the successor; otherwise changes nothing. |
| RefreshHandlers.TokenService.Decide | src/routes/auth.ts:298-327 | Revoked with reason rotated or null and an owner of the client: the retry path when the owner is active, the replay revocation when not. Any other reason, no owner, an expired row or an inactive owner: 401. Otherwise the rotation. |
| RefreshHandlers.TokenService.ReplaceTransaction | src/routes/auth.ts:109-152 | Replaces exactly when the locked predecessor still qualifies and its successor is the user's, active and unexpired: revokes that successor as retry, inserts the new one and repoints the predecessor. |
| RefreshHandlers.TokenService.ReplaceUnusedSuccessor | src/routes/auth.ts:80-155 | The retry path ends in a new session or gives up to the caller's replay check, over any interference. |
| RefreshHandlers.TokenService.RevokeSessionsForReplay | src/routes/auth.ts:57-62 | Revokes exactly the user's active rows as security. |
| RefreshHandlers.TokenService.PrepareSession | src/services/session.ts:117-149 | Draws an unused id and token and sets the expiry one lifetime after the clock. |
| RefreshHandlers.TokenService.IssueSession | src/services/session.ts:101-111 | Inserts an active row of the user, a new family, over any interference before the insert. |
| RefreshHandlers.TokenService.Logout | src/routes/auth.ts:402-427 | Logout performs the machine's logout steps; only the client's own token is revoked. |
| RefreshHandlers.TokenService.LogoutUpdate | src/routes/auth.ts:416-419 | The one row becomes revoked with reason logout, its other columns unchanged, even when it was revoked before; all other rows stay. |
| RefreshHandlers.TokenService.RevokeSession | src/routes/sessions.ts:63-75 | Revokes the session exactly when it is the caller's and active, and says whether it was. |
| RefreshHandlers.TokenService.RevokeAllSessions | src/routes/sessions.ts:93-109 | Revokes exactly the caller's active rows and returns their number. |
| RefreshHandlers.TokenService.RevokeAllRefreshTokens | src/routes/account.ts:71-76 | Marks every row of the user security, overwriting the reasons of revoked ones. |
| RefreshHandlers.TokenService.PatchUser | src/routes/users.ts:172-187 | Finds the user exactly when it is the client's; deactivation writes the user row first and all token rows second, with interference between; reactivation writes only the user row. |
| RefreshHandlers.TokenService.Cleanup | src/jobs/cleanup.ts:15-24 | The cutoff is the clock at the start minus thirty days; after any interference the delete leaves exactly the rows that expire no earlier. |
| RefreshHandlers.TokenService.DeleteExpired | src/jobs/cleanup.ts:18-21 | Deletes exactly the rows that expired before the cutoff. |
| OAuthTheorems.HistoryInv | src/routes/oauth.ts:206-273 | Provenance of every state, code, request and session holds in every state of every history of initiate, callback, redeem, client patches and user changes. |
| OAuthTheorems.SessionsHaveProvenance | src/routes/oauth.ts:76-92 | Every session ever issued traces to one initiation with the same client, and in some earlier state that client was active and its row held the session's redirect URI; its user belongs to that client; for a public client the verifier matches the challenge given at initiation. |
| OAuthTheorems.OneSessionPerCode | src/services/oauth.ts:181-195 | However redemptions interleave, an authorization code issues at most one session. |
| OAuthTheorems.OnlyEntitledConsume | src/routes/oauth.ts:285-318 | A code leaves the store only through a request that passed credentials, client, redirect URI and PKCE checks on it, at most 60 seconds after it was stored; presentations that fail a check leave it. |
| OAuthTheorems.UnconsumedStaysLive | src/services/oauth.ts:173-205 | However many presentations failed, a stored code that nobody consumed stays live with its data for its whole 60 seconds. |
| OAuthTheorems.SecondAcceptanceWaited | src/services/oauth.ts:125-134 | A second acceptance of a state forces the gap between its age check and its SET to exceed the state's age at the first acceptance. |
| OAuthTheorems.AcceptedOnceWhenPrompt | src/services/oauth.ts:110-134 | When check and SET share an instant a state is accepted at most once over all time, although its marker expires. |
| OAuthTheorems.LongWaitAcceptsTwice | src/services/oauth.ts:61-65 | For every age and every longer gap some history accepts a state twice, so the bound is exact. |
| OAuthAlone.InitiateExactly | src/routes/oauth.ts:68-125 | Every run of an initiation's own steps seals a state if and only if an active client of that identifier lists the URI, with a challenge when it is public; the state holds the request, a new nonce and the time. |
| OAuthAlone.CallbackExactly | src/routes/oauth.ts:129-277 | Every run of a callback's own steps, with any time passing: it ends with a code only if the state is genuine, at most ten minutes old, of this provider and its nonce unused, the provider granted and gave a profile, the client is active, and its user with that email is new, or active and unlinked or linked to exactly this identity; the user then has that email and link, the nonce is marked for ten minutes, and the code stands for user, client and sealed transaction for one minute. It ends without one only if one of these fails, and then writes no user and no code. |
| OAuthAlone.RedeemExactly | src/routes/oauth.ts:282-329 | Every run of a redemption's own steps: it issues one session, for the code's user and client, only if the code is unexpired, client, credentials, URI and verifier fit and the user is active, and spends the code; it fails only if one of these is missing by the end, issues nothing, and spends the code only when the user is the one at fault. |
| OAuthHandlers.OAuthService.Initiate | src/routes/oauth.ts:68-125 | Seals a state only for an active client, one of its registered URIs and PKCE when public; the sealed transaction is recorded with what was registered. |
| OAuthHandlers.OAuthService.FindClient | src/routes/oauth.ts:172-187 | Finds the client exactly when the provider granted and a client of the sealed identifier is active. |
| OAuthHandlers.OAuthService.ConsumeStateNonce | src/services/oauth.ts:125-134 | Sets the marker exactly when none is live, for the whole maximum age. |
| OAuthHandlers.OAuthService.FindUser | src/routes/oauth.ts:206-263 | Goes on to a code exactly for the client's active user with that email linked to exactly that identity, to the link exactly when that user is active and unlinked, to the insert exactly when the client has no user with that email, and otherwise ends. |
| OAuthHandlers.OAuthService.InsertUser | src/routes/oauth.ts:223-236 | Inserts an active, linked user of the client unless the email was taken meanwhile. |
| OAuthHandlers.OAuthService.LinkUser | src/routes/oauth.ts:245-255 | Links the user unconditionally on what was read earlier. |
| OAuthHandlers.OAuthService.StoreAuthCode | src/services/oauth.ts:173-179 | Stores the new code with the sealed transaction's binding data for 60 seconds. |
| OAuthHandlers.OAuthService.Callback | src/routes/oauth.ts:129-277 | The callback, with interference at every await, performs a run of the machine and returns its code or none; a code is returned only if the provider granted and gave a profile and in some state of the trace the user was new, unlinked or linked to exactly that identity, and it stands for that user and client. |
| OAuthHandlers.OAuthService.CheckBindings | src/routes/oauth.ts:293-313 | Accepts exactly when the client of the code is active, its credentials fit, and the redirect URI and the verifier are those of the code. |
| OAuthHandlers.OAuthService.ConsumeAuthCode | src/services/oauth.ts:140-147 | Removes and returns the code exactly when it is live. |
| OAuthHandlers.OAuthService.Redeem | src/routes/oauth.ts:282-329 | A redemption ends failed, or with one new session for this code, user, redirect URI and verifier that has full provenance. |
| AccountTokens.HistoryInv | src/services/accountToken.ts:40-86 | The invariant of emailed tokens holds in every state of every history of presentations, issues, user edits and cleanup. |
| AccountTokens.OneCompletionPerToken | src/routes/account.ts:82-115 | However presentations interleave, an emailed token completes at most one reset or verification. |
| AccountTokens.CompletionsAreRightful | src/services/accountToken.ts:46-57 | Every completion is for the token's own owner and purpose, by the owner's client, with a consume time before expiry. |
| AccountTokens.FailuresLeaveItUnused | src/services/accountToken.ts:62-86 | A token is marked used only by a presentation that passed every check and whose write is done or next. |
| AccountTokens.UnconsumedStaysLive | src/services/accountToken.ts:40-86 | However many presentations failed, an emailed token that nobody consumed is in the table and live for its purpose until it expires, the cleanup job included. |
| AccountTokens.AloneExactly | src/routes/account.ts:160-230 | In every run of a presentation's own steps, with any time passing between them, it ends done only if the token was live for the purpose and its owner an active user of the client at the start, and marks it at an instant when it still was. A reset then sets the owner's password to the presented one, a verification keeps it, both set verified, and client, activity and every other user stay. It fails only if the token is not usable at the end, and then changes no row. |
| AccountHandlers.AccountService.CreateAccountToken | src/services/accountToken.ts:19-34 | Inserts one unused row under an unused token with the given lifetime. |
| AccountHandlers.AccountService.ConsumeAccountToken | src/services/accountToken.ts:40-60 | Marks the token used exactly when it is live for the purpose at the clock read before. |
| AccountHandlers.AccountService.Complete | src/routes/account.ts:160-180 | Resolve, check, consume, write the user row, over any interference: fails, or adds one rightful completion for this token and client and, against the state before its last statement, writes exactly the owner: the presented password on a reset, the old one on a verification, verified in both. |
| AccountHandlers.AccountService.CleanupExpired | src/jobs/cleanup.ts:31-40 | The cutoff is the clock at the start minus thirty days; after any interference the delete leaves exactly the tokens that expire no earlier. |
| RateLimit.CurrentCountsTheWindow | src/middleware/rateLimit.ts:36-46 | The count an arrival gets is the number of arrivals of its key so far in its window, for any arrivals of any keys. |
| RateLimit.WindowBound | src/middleware/rateLimit.ts:53-57 | No window of a key lets more than max requests through. |
| RateLimit.SlidingBound | src/middleware/rateLimit.ts:27-59 | In any closed interval of one window length at most 2 * max - 1 requests of a key are let through. |
| RateLimit.SlidingBoundIsTight | src/middleware/rateLimit.ts:27-59 | For every window and positive max some arrivals reach that bound. |
| RateLimit.Window | src/middleware/rateLimit.ts:27-27 | The window in use is the least whole number of seconds that holds the configured milliseconds. |
| RateLimit.RefusedOnlyAfterMax | src/middleware/rateLimit.ts:53-57 | Nobody is refused who has not sent more than max requests within the last window length. |
| RateLimit.Limiter.Check | src/middleware/rateLimit.ts:29-59 | Lets a request through exactly when its window has seen at most max arrivals of its key, reports what remains and when the window ends, at most one window ahead, refuses only after more than max arrivals in the last window length, and leaves no counter without a TTL. |
| Adoption.Database.DetectAppliedMigrations | src/db/adoption.ts:87-114 | Succeeds exactly on prefix-shaped schemas when every journal entry has a marker, with the prefix's tags; else lists exactly the unmarked tags, or names the first marker present after an absent one. |
| Adoption.Database.PresentMarkerPrefix | src/db/adoption.ts:142-157 | Succeeds on the same schemas with the same prefix length and fails at the same marker. |
| Adoption.PrefixSpelledOut | src/db/adoption.ts:50-69 | A schema reflects exactly the first n migrations if and only if the tables of the markers without a column and the (table, column) pairs of those with one are there for the first n markers and for no later one. |
| Adoption.OwnPrefixExactly | src/db/adoption.ts:21-31 | The same for this repository's nine migrations, with each table and column written out. |
| Adoption.RowsSpelledOut | src/db/adoption.ts:122-139 | The rows of a list of tags are, in order, the hash of the tag's file and the time of the tag's first journal entry, and nothing else. |
| Adoption.Database.LoadMigrationRows | src/db/adoption.ts:122-139 | Returns the hash of each tag's file and the time of its journal entry in order, or fails because a tag of the list is missing from the journal or the folder. |
| Adoption.OrderByOrders | src/db/adoption.ts:169-174 | The query's result is a permutation of the table, sorted by timestamp with nulls last, equal timestamps in id order. |
| Adoption.Database.FirstMismatch | src/db/adoption.ts:207-211 | Finds nothing if and only if every recorded row has the expected hash and timestamp, a null timestamp counting as 0; otherwise the first row that differs. |
| Adoption.Database.AssertJournalMatchesSchemaPrefix | src/db/adoption.ts:164-227 | Accepts exactly the journals that hold, in query order, the rows of the schema's prefix; refusals tell too few rows from too many. |
| Adoption.Database.BaselineJournal | src/db/adoption.ts:237-268 | Writes all rows or none, and refuses a journal that already has rows. |
| Adoption.BaselinePassesExactly | src/db/adoption.ts:262-266 | What the baseline wrote passes the check if and only if the prefix's timestamps never decrease. |
| Adoption.AcceptedExactly | src/db/adoption.ts:169-213 | A journal without null timestamps, over a prefix whose timestamps increase, is accepted if and only if it holds exactly the prefix's rows as a multiset, in whatever order they were inserted. |
| Adoption.Database.AssertSafeToMigrate | src/db/adoption.ts:277-299 | Safe exactly when there is no journal and no table, or the journal is the one the schema calls for. |
| Adoption.Database.Adopt | scripts/baseline-migrations.ts:24-55 | Detect, baseline, then the guard, on a populated database without a journal: ends safe exactly when the detected prefix's rows can be loaded and its timestamps never decrease. |
| Adoption.OwnJournalIsAdoptable | src/db/adoption.ts:21-31 | Every prefix of this repository's own nine migrations can be adopted, all nine have markers, and the rows written are the hash of each migration file with its journal time. |
| TenancyTheorems.CountDecidesOwnership | src/routes/roles.ts:48-70 | Comparing the number of owned rows with the number of distinct ids decides exactly that every id is the client's. |
| TenancyTheorems.LinksStayInTenant | src/routes/roles.ts:195-281 | In every reachable state every role-permission, user-role and service-account-role row links rows of one client, with checks and inserts of different requests interleaved. |
| TenancyTheorems.JoinsStayInTenant | src/services/session.ts:64-77 | In every reachable state the permission joins, which filter neither roles nor permissions by client, return exactly what the fully tenant-filtered joins would. |
| TenancyTheorems.OtherClientsUntouched | src/routes/roles.ts:284-334 | No step taken for one client changes the permissions of any user or service account of another. |
| TenancyAlone.BootstrapAlone | src/routes/clients.ts:260-307 | Every run made only of a bootstrap's own steps is over after seven; if nothing refuses an insert it succeeds, and success means one new user of that client in a role of that name that grants all eight management permissions, written out, whatever rows or role existed before, and no other user gains a role. At every point the only new permissions, and the only ones newly granted to any role, are the client's management permissions. |
| TenancyAlone.ReplaceExactly | src/routes/roles.ts:239-268 | Every run made only of a replacement's own steps is over after four; it leaves the role with exactly the asked permissions if and only if the role and every permission are the client's and no id is repeated; with a repeated id it fails and leaves the role with none; other roles keep theirs. |
| TenancyCreation.CreateExactly | src/routes/roles.ts:196-223 | Every run made only of a role creation's own steps is over after three; it succeeds if and only if every permission is the client's, the name is free and no id is repeated, and adds exactly one role with exactly those permissions; with a repeated id it fails and leaves the role with none; any other failure writes nothing. |
| TenancyCreation.ProvisionExactly | src/routes/users.ts:62-87 | Every run made only of a provisioning's own steps is over after three; unless its insert is refused it succeeds if and only if every role is the client's and no id is repeated, and adds exactly one user with exactly those roles; with a repeated id it fails and leaves the user with none. |
| TenancyHandlers.TenantStore.CreateRole | src/routes/roles.ts:196-223 | Role creation, with interference at every await, performs a run of the machine. |
| TenancyHandlers.TenantStore.ReplacePermissions | src/routes/roles.ts:239-268 | Permission replacement performs a run of the machine. |
| TenancyHandlers.TenantStore.DeleteRole | src/routes/roles.ts:284-296 | Deletes the role exactly when it is the client's, and its rows in all three junction tables with it. |
| TenancyHandlers.TenantStore.AssignRole | src/routes/roles.ts:314-334 | Role assignment performs a run of the machine. |
| TenancyHandlers.TenantStore.RevokeRole | src/routes/roles.ts:350-367 | The user check and the delete, with interference between them, perform a run of the machine; on success the one junction row is gone. |
| TenancyHandlers.TenantStore.ProvisionUser | src/routes/users.ts:62-87 | Provisioning with roles performs a run of the machine. |
| TenancyHandlers.TenantStore.SignUp | src/services/session.ts:81-95 | A new user gets the client's default roles, over any interference between the statements. |
| TenancyHandlers.TenantStore.CreateAccount | src/routes/serviceAccounts.ts:109-139 | Service account creation with roles performs a run of the machine. |
| TenancyHandlers.TenantStore.AssignAccountRole | src/routes/serviceAccounts.ts:204-221 | Assigning a role to a service account performs a run of the machine. |
| TenancyHandlers.TenantStore.RevokeAccountRole | src/routes/serviceAccounts.ts:237-258 | The account check and the delete, with interference between them, perform a run of the machine; on success the one junction row is gone. |
| TenancyHandlers.TenantStore.SeedPermissions | src/routes/clients.ts:260-264 | Adds one row for exactly those of the eight management permissions that the client lacks, and changes nothing else. |
| TenancyHandlers.TenantStore.ReadCatalog | src/routes/clients.ts:266-274 | Returns exactly the client's rows for the eight management permissions. |
| TenancyHandlers.TenantStore.Bootstrap | src/routes/clients.ts:260-307 | The writing statements of a bootstrap, with interference at every await, perform a run of the machine. |
| TenancyHandlers.TenantStore.GetUserPermissions | src/services/session.ts:64-77 | The user join's result is the tenant-filtered one. |
| TenancyHandlers.TenantStore.GetServiceAccountPermissions | src/services/serviceAccount.ts:12-32 | The service account join's result is the tenant-filtered one. |
| Scopes.JoinSplit | src/services/apiKey.ts:43-44 | Splitting at colons loses nothing: joining the parts gives the string back and no part holds a colon. |
| Scopes.PermissionImpliesScope | src/middleware/authorize.ts:18-28 | Whatever a permission list allows a signed-in user, it allows as the scopes of an API key. |
| Scopes.ChecksAgreeExactly | src/services/apiKey.ts:34-47 | For a granted list the two checks agree on every required string if and only if each grant with "*" between two colons is covered by "*" or by its resource's plain wildcard in the list. |
| Scopes.OneColonAgrees | src/middleware/authorize.ts:15-49 | They agree whenever no granted string has more than one colon. |
| Scopes.CheckExactly | src/middleware/authorize.ts:15-49 | One check lets through exactly these callers, answers 401 exactly to an anonymous one, and whoever holds "*" or the asked string itself passes. |
| Scopes.RequireAnyPermission | src/middleware/authorize.ts:54-69 | Lets a request through exactly when the caller's list allows one of the permissions: for a user by "*", the permission or its resource with ":*"; for an API key by "*", the same string, or one with the same first part and "*" second; for an anonymous caller never. Holding an asked string always suffices. Otherwise it answers 403, never 401. |

## Left out

- HTTP, validation schemas, headers, CORS, health, documentation, admin console: no state property.
- The SDK's network code and middleware fallback.
- Cryptography: argon2, SHA-256, AES-GCM, EdDSA, JWKS and timing-safe comparison are ideal functions.
- Access tokens: signing, verification, expiry parsing and environment parsing.
- Mail delivery, link building and the provider's token and profile endpoints: the callback takes any profile the provider may have answered.
- Audit writes and paging.
- Write-once account linking at the OAuth callback: the link update is unconditional on a stale read, so it is modelled and not claimed.
- Database isolation below a transaction, and the limiter's path when Redis is down.
- Claims that a deactivation or reset leaves no active row: a sign-in in flight may insert a fresh family afterwards, so the descent and commit forms are proved.
- Error codes and messages: refusals are told apart only where the source's callers branch on them.
- Email uniqueness, service account names and the checks before a bootstrap or an invite in the tenancy model: they are an input that may refuse the insert.
- Rate limiter headers: the reset header is given as time left in milliseconds, without Redis's rounding to seconds.
- API key issue and revocation, and listing routes: they add only easy members.
- RefreshReplay.DistinctOperationsEndRevoked: the unconditional form is false of the code; RefreshDeadline.RevokedExactlyBeforeExpiry gives the exact condition.
- RefreshServed.SameOperationAllSucceed: the unconditional form is false of the code; RefreshServed.ServedExactlyBeforeExpiry gives the exact condition.
- AccountHandlers.AccountService.Complete: ends with the user's own row; the sign-out that follows a reset is RefreshHandlers.TokenService.RevokeAllRefreshTokens, over the table that model owns.
- TenancyHandlers.TenantStore.Bootstrap: the client and email reads before the first insert (`src/routes/clients.ts:235-258`) are one input that may refuse it, because clients' settings and emails are not part of the tenancy model.
- OAuthTheorems.AcceptedOnceWhenPrompt: asks that check and SET share an instant, because without it the claim is false of the code; SecondAcceptanceWaited and LongWaitAcceptsTwice give the exact bound.
