# Verified models of the gg-scale backend

This project models the parts of the gg-scale game backend where state, money-like counters or secrets must survive failures and concurrency, and proves what they keep over every run.

How the state machines are written: every multi-step operation is cut at the points where other requests can run (a store or backend call, a transaction, or a single SQL statement). `Next(s, e)` is total: an event the state does not allow, among them a statement that would wait for a row lock, leaves the state alone. So every sequence of events is an interleaving, and a theorem about `Run(s, es)` speaks of all of them. The handlers themselves are methods of a class that holds the shared state as `world`; between every two of their requests they call `Others`, which lets any number of events of other requests happen. A request that still waits for a lock when its turn comes ends as if its deadline had passed. The ghost field `history` records the events of all requests.

| module | files of the repository | content |
|---|---|---|
| FleetMachine, FleetSafety, FleetDeallocate, FleetManager | internal/fleet | allocation and release of game servers under failures |
| Backoff | internal/fleet | the wait between two attempts, in 64-bit arithmetic |
| CodeChallenge, ChallengeRaces, ChallengePrompt, ChallengeRaceRuns | internal/httpapi, internal/verifycode, internal/controlpanel/verify.go | emailed-code challenge: budgets and lock, transaction by transaction and below that |
| PlayerSessions | internal/httpapi/auth.go | refresh-token rotation, reuse detection, session epochs |
| BurstBudget | internal/cache/burst.go | the time budget of bursting connections |
| Decimal, Base64Url, SignedTokens | internal/billing, internal/signedcookie, internal/controlpanel | decimal printing, unpadded base64url, signed tokens, digit grouping |
| Entitlements, SortedStrings | internal/entitlement | declarative tier and features |
| ManagedScopes | internal/controlpanel/key_management.go | scopes of an API key |
| SignInMethods | internal/controlpanel/sso.go | provider links, unlinks and accepts |
| PlatformAdmins | internal/controlpanel | the last platform admin, and the RBAC mirror |
| GuardedRequests, RequestDesk | internal/controlpanel | change requests, invitations, signup approvals |
| GameSessions | internal/gamesession | open-session caps and join codes |
| PlayerSlots | internal/httpapi/auth.go | registered-player counter |
| OriginCache | internal/httpapi/cors_origins.go | cached browser origins |
| Quota, Sets, Wrappers | internal/quota, internal/gamesession | limits shared by several modules; sizes of sets; Option and Result |

What the proofs found out about the code:

- One Deallocate that reads a row before its MarkReady and releases it after loses a server (`FleetSafety.StraddleLosesServer`); without that, none is lost, and with it exactly the straddled ones are (`FleetSafety.ConservationExact`).
- internal/verifycode/verifycode.go:37-45 says that the lifetime counter is reset only by a successful verification, and that the lock lasts 24 hours. For players a lock that has run out resets the counter too. The control panel's own check resets it in neither case, so an account that was locked once never has a code accepted again (`CodeChallenge.PanelAcceptedIff`, `PanelLockedForGood`); `CodeChallenge.LockedAccount` is a run that gets there. The models follow the code.
- The bound on guesses in a stretch of time survives overlapping confirms as long as no lock is cleared twice and no confirm takes longer than two resend cooldowns from its clock reading to its end (`ChallengePrompt.BoundedIfPrompt`); the default deadline of a request, 15 s in internal/config/config.go:27, is far below that. Both conditions are needed. Two confirms that both read a lock that has run out each restart the count, with no delay at all (`ChallengeRaceRuns.RaceBreaksBound`). A confirm a nanosecond slower than two cooldowns locks from a clock reading before the guesses it counts (`ChallengeRaceRuns.LateLockBreaksBound`); that takes a longer or disabled request deadline. For any latency below the lockout, `ChallengeRaces.BoundedWithRaces` gives the bound with a shorter period and one more budget for each lock cleared again.
- A disable that read its target as an ordinary user, while an invitation promotes that user, can remove the last platform admin and leaves the RBAC mirror naming a disabled user (`PlatformAdmins.StaleWriteLosesLastAdmin`). The exact condition is `PlatformAdmins.StepExactly`.
- An extension can bring back a session that has run out, without a count: a join that checked the expiry and then waited, or a heartbeat whose transaction began before the expiry, since its `now()` is the start of the transaction. On a project that admits no more sessions, that is the only way past the session caps (`GameSessions.StepExactly`), and `GameSessions.RevivalBreaksCap` is a run that takes it.
- An answer about a browser origin that comes from memory is less than a TTL old, but one that waited for its own load is as old as the load was slow (`OriginCache.AnswersFresh`, `OriginCache.SlowLoadStale`).
- The default backoff doubles for the first 37 attempts only; the 64-bit duration wraps after that and is zero from attempt 57 on (`Backoff`).
- The player counter exceeds the players created by exactly the number of lost upsert races (`PlayerSlots.CounterExact`).

## Model

| member | source | states |
|---|---|---|
| FleetSafety.StepKeeps | internal/fleet/manager.go:101-232 | every store or backend call of Allocate and Deallocate, with any answer (applied, refused, applied but reported lost), keeps the row, call and server invariant |
| FleetSafety.RunKeeps | internal/fleet/manager.go:101-232 | the invariant holds after every interleaving of any number of calls, from any state that satisfies it |
| FleetSafety.InitialInv | internal/fleet/manager.go:81-88 | a new manager with an empty store satisfies it |
| FleetSafety.NeverReadyAgain | internal/db/queries/fleet.sql:11-37 | a row that has left pending never becomes ready, keeps its backend reference, and stays shut down once it is |
| FleetSafety.StoreGuards | internal/fleet/store.go:60-82 | only a pending row becomes ready, and only a row that is not shut down becomes failed |
| FleetSafety.OrphansExactly | internal/fleet/manager.go:189-232 | a step loses track of a server if and only if it is the release by a Deallocate that read the row as pending, of a row since made ready whose server is still up |
| FleetSafety.NoStraddleNoOrphan | internal/fleet/manager.go:189-232 | a run in which no Deallocate straddles a MarkReady loses no server |
| FleetSafety.Conservation | internal/fleet/manager.go:101-177 | with no call in flight and no straddle, each server brought up is freed, named by a ready row, or had its clean-up free fail after a refused MarkReady |
| FleetSafety.ConservationExact | internal/fleet/manager.go:101-232 | with no assumption, the servers unaccounted for at rest are exactly the orphaned ones |
| FleetSafety.StraddleLosesServer | internal/fleet/manager.go:189-232 | a run with one Allocate and one straddling Deallocate that ends with a server up and accounted for nowhere |
| FleetSafety.ClosedWasTakenDown | internal/fleet/manager.go:200-226 | a row counts as closed only after an event that freed its server or cleaned up its resolution; the event is returned |
| FleetSafety.ShutdownOnlyAfterTakeDown | internal/fleet/manager.go:186-232 | a shut-down row was taken down by the backend earlier in the run |
| FleetSafety.FreedByAnswer | internal/fleet/manager.go:161-232 | a server counts as freed only after an answer of the backend that says so |
| FleetSafety.AloneOutcome | internal/fleet/manager.go:189-232 | a Deallocate on its own succeeds exactly when the row is already closed or the backend took it down and the release was confirmed, and changes the row only to shut it down |
| FleetSafety.FailureChangesNothing | internal/fleet/manager.go:186-232 | a failing Deallocate leaves all rows as they were, unless its own release was applied and only the answer lost |
| FleetSafety.StaysClosed | internal/fleet/manager.go:194-196 | further Deallocates of a closed row change no row and free nothing |
| FleetSafety.EventuallyClosed | internal/fleet/manager.go:189-232 | any run of failing calls with one working call closes the row, and what comes after changes nothing |
| FleetDeallocate.FailureInRun | internal/fleet/manager.go:186-232 | among any other calls, a Deallocate that failed or still runs has itself changed no row, unless its own release was applied and only the answer lost |
| FleetDeallocate.ClosedForGood | internal/db/queries/fleet.sql:29-44 | a closed row stays closed, whatever calls run |
| FleetDeallocate.OneSuccessCloses | internal/fleet/manager.go:189-232 | in every interleaving one Deallocate that succeeds, before or after any failures, leaves its row shut down, or failed without a clean-up label, for the rest of the run |
| FleetManager.Manager.Allocate | internal/fleet/manager.go:101-159 | under interference: on success the row is ready and names the server brought up for it; on failure the call holds nothing any more; at most retries+1 backend calls, and exactly that many when exhausted; the three argument errors touch nothing |
| FleetManager.Manager.InsertPending | internal/fleet/store.go:31-55 | a fresh pending row, or none |
| FleetManager.Manager.AskBackend | internal/fleet/manager.go:120-150 | one backend call; a failure goes to the next attempt unless it was the last one or the context ended |
| FleetManager.Manager.Persist | internal/fleet/manager.go:133-148 | success exactly when MarkReady is confirmed, else the server is freed or recorded as not freed |
| FleetManager.Manager.MarkRow | internal/fleet/store.go:60-75 | a row that is not pending is refused and unchanged |
| FleetManager.Manager.CleanupAfterMarkReadyFailure | internal/fleet/manager.go:161-177 | the server ends freed or recorded as not freed, the row failed or shut down when that write is confirmed, and the call ends |
| FleetManager.Manager.GiveUp | internal/fleet/store.go:78-82 | a confirmed MarkFailed leaves the row failed, or shut down if it was released before |
| FleetManager.Manager.Deallocate | internal/fleet/manager.go:189-232 | success means the row is shut down, or failed with no clean-up label left; each error is explained by the answer that ended the call |
| FleetManager.Manager.TakeDown | internal/fleet/manager.go:197-231 | a row that is not closed is released only after the resolution clean-up, its fallback to the reference, or the plain free |
| FleetManager.Manager.CleanupResolution | internal/fleet/manager.go:197-223 | where each answer of the resolution clean-up takes the call |
| FleetManager.Manager.Finish | internal/fleet/store.go:85-89 | a confirmed release leaves the row shut down, and that is when Deallocate succeeds |
| Backoff.DefaultBackoff | internal/fleet/manager.go:280-286 | the doubling loop computes the wrapped value of 100 ms times two to the attempt minus one |
| Backoff.DoublesExactlyUpTo37 | internal/fleet/manager.go:280-286 | the wait is the intended one if and only if the attempt number is at most 37 |
| Backoff.ZeroFrom57 | internal/fleet/manager.go:280-286 | from attempt 57 on the wait is zero |
| CodeChallenge.BoundedGuesses | internal/httpapi/auth.go:441-478 | a stretch of time W without a right code makes at most 19 * (1 + W / lockout) code comparisons, from any starting row, resends included |
| CodeChallenge.ComparisonsWithinAllowance | internal/httpapi/auth.go:441-478 | the same run bound, exact in what the row's lock and lifetime count still allow |
| CodeChallenge.BoundedPerCode | internal/db/queries/auth.sql:77-86 | at most five comparisons for each issued code |
| CodeChallenge.AcceptedIff | internal/httpapi/auth.go:441-478 | the exact condition under which a code is accepted; a lock that has run out waives the lifetime cap |
| CodeChallenge.UsedOnce | internal/db/queries/auth.sql:97-109 | an accepted code is spent: until the next code is sent nothing is compared, and a verified email never gets or takes a code again |
| CodeChallenge.RefusedIff | internal/httpapi/auth.go:447-477 | the exact condition of each refusal, in the order of the guards |
| CodeChallenge.RefusalCounts | internal/httpapi/auth.go:441-478 | a refusal changes nothing, or counts one attempt on a count that a run-out lock restarts, or sets a lock of a day |
| CodeChallenge.SentIff | internal/httpapi/auth_password_reset.go:277-326 | when a code is sent, and that it is good for a quarter of an hour with a count of its own while the count of the account stays |
| CodeChallenge.RecoversAfterLock | internal/httpapi/auth.go:441-478 | once a lock has run out, a newly issued right code is accepted until it expires |
| CodeChallenge.PanelBudgetForLife | internal/controlpanel/verify.go:222-277 | in the control panel at most 19 comparisons are ever made for an account, over any time and any number of codes |
| CodeChallenge.PanelAcceptedIff | internal/controlpanel/verify.go:222-277 | the exact condition under which the control panel accepts a code; a lock that has run out waives nothing there |
| CodeChallenge.PanelLockedForGood | internal/controlpanel/verify.go:222-277 | after any run that locks an account, no code is accepted in any continuation |
| CodeChallenge.PanelUsedOnce | internal/controlpanel/verify.go:222-277 | an accepted code verifies the account and is spent; nothing is compared afterwards |
| CodeChallenge.PanelNeverRecovers | internal/controlpanel/verify.go:222-277 | on one row, the control panel refuses a code that is accepted for a player if and only if there is a lock that has run out and the count stands at the cap or one below; it then locks |
| CodeChallenge.LockedAccount | internal/controlpanel/verify.go:142-277 | a run of four codes and twenty wrong guesses after which the next right code locks the account again, where a player with the same row is verified |
| CodeChallenge.PlayerRow.CheckCodeChallenge | internal/httpapi/auth.go:441-478 | the guard sequence: which flag or error it returns and what it has written by then |
| CodeChallenge.PlayerRow.ConfirmCode | internal/httpapi/auth.go:480-576 | wrong code and new lock are committed, refusals are rolled back, a right code completes the challenge |
| CodeChallenge.PlayerRow.ReissueCode | internal/httpapi/auth_password_reset.go:128-177 | a code is issued, with a fresh per-code count, exactly when no lock and no cooldown stand against it; otherwise the row is unchanged |
| ChallengeRaces.BoundedWithRaces | internal/httpapi/auth.go:441-478 | in every interleaving of confirms that take at most the latency from their clock reading to their end, a stretch of time W without a right code makes at most 19 * (1 + W / (lockout - latency) + locks cleared again) comparisons |
| ChallengeRaces.StepSpends | internal/httpapi/auth.go:441-478 | only clearing a lock that is no longer the one read raises what the budgets still allow, by at most one budget; a lock always takes a budget away |
| ChallengePrompt.BoundedIfPrompt | internal/httpapi/auth.go:441-478 | with a latency of at most two resend cooldowns and no lock cleared again, overlapping confirms keep the bound of whole transactions: 19 * (1 + W / lockout) |
| ChallengePrompt.StepFollows | internal/httpapi/auth.go:441-478 | every step keeps the count of locks, codes and comparisons in step with the clock: between two locks lie a lockout less the latency and four new codes |
| ChallengeRaceRuns.RaceBreaksBound | internal/db/queries/auth.sql:111-117 | a run without any delay in which two confirms clear the same lock, with one comparison more than the bound |
| ChallengeRaceRuns.LateLockBreaksBound | internal/httpapi/auth.go:466-472 | a run in which one confirm takes a nanosecond longer than two cooldowns and no lock is cleared again, with one comparison more than the bound |
| ChallengeRaces.AloneIsConfirm | internal/httpapi/auth.go:480-576 | with nothing in between, a confirm in two steps is the transaction of CodeChallenge |
| ChallengeRaces.OvertakenAcceptedIff | internal/db/queries/auth.sql:279-298 | when a confirm that others may have overtaken is accepted; a password reset only for the code that is still stored |
| PlayerSessions.StepKeeps | internal/httpapi/auth.go:656-750 | every login, read, conditional revoke, logout and password reset keeps the session invariant |
| PlayerSessions.RedeemedAtMostOnce | internal/httpapi/auth.go:709-730 | over every interleaving, including refreshes that read the same live token, a token is redeemed at most once |
| PlayerSessions.OneLivePerChain | internal/httpapi/auth.go:709-730 | the rotation chain of a login has at most one live token, its newest |
| PlayerSessions.ReuseKillsFamily | internal/httpapi/auth.go:682-707 | after a replay no session of the player is live, no refresh in flight can redeem, and no access token minted before ever matches the epoch again; nobody else is touched |
| PlayerSessions.ResetKillsFamily | internal/httpapi/auth_password_reset.go:233-251 | a password reset does the same |
| PlayerSessions.GoneByLastWord | internal/db/queries/auth.sql:136-149 | whether a player counts as disabled, unlinked or deleted is decided by the last change of it |
| PlayerSessions.NewestNeverReuses | internal/httpapi/auth.go:682-707 | presenting the newest token of a chain never counts as reuse, whatever other clients do |
| PlayerSessions.HonestLosesNothing | internal/httpapi/auth.go:656-774 | if every refresh presents its newest token, no session is killed and no epoch moves |
| PlayerSessions.AuthService.LogIn | internal/httpapi/auth.go:578-653 | a new live token on a chain of its own, and an access token of the current epoch; a disabled, unlinked or deleted player is unknown, a banned one refused, and neither changes anything |
| PlayerSessions.AuthService.Refresh | internal/httpapi/auth.go:656-750 | it succeeds if and only if its own conditional revoke redeemed the token, with a token of the same chain and the current epoch; a good token is refused only if that revoke found it no longer live; a ban is reported exactly for a good token; a token of a disabled, unlinked or deleted player is unknown; a replayed token revokes the player's sessions |
| PlayerSessions.AuthService.Redeem | internal/db/queries/auth.sql:150-157 | the conditional revoke succeeds exactly when the row is still live, and only then is a session inserted |
| PlayerSessions.AuthService.LogOut | internal/httpapi/auth.go:752-774 | the token is not live afterwards and no other session changes |
| BurstBudget.ChargedOnce | internal/cache/burst.go:63-79 | the times charged in a run add up to the latest time seen minus the start, so no instant is charged twice even if the clock steps back |
| BurstBudget.BudgetBounds | internal/cache/burst.go:60-79 | the budget stays in range and, with the ceiling at most twice sustained, falls no faster than time passes |
| BurstBudget.FullBudgetLasts | internal/cache/burst.go:36-58 | within the length of a full budget only the ceiling refuses a connection |
| BurstBudget.HeldAtTwice | internal/cache/burst.go:63-79 | held at twice sustained by any calls that keep the count, the budget drains exactly as fast as time passes |
| BurstBudget.BurstRate | internal/cache/burst.go:60-79 | held steady over the limit, the budget pays for each instant the share of connections over the limit, until it is spent |
| BurstBudget.RefillRate | internal/cache/burst.go:60-79 | held steady at or below the limit, an hour refills a whole budget, and less time in proportion, up to the cap |
| BurstBudget.EmptyIsFullAfterAnHour | internal/cache/burst.go:8 | an empty budget is half full after half an hour and full after one |
| BurstBudget.StoredNearExact | internal/cache/burst.go:60-79 | the truncated budget of a steady run is within a nanosecond a call of the exact one |
| BurstBudget.InsertionChangesNothing | internal/cache/burst.go:36-95 | in exact arithmetic a heartbeat or refused admission inserted in order changes no later decision and not the final budget |
| BurstBudget.StepView | internal/cache/burst.go:36-95 | a call's decision and effect depend only on the count and the ideal budget at its time |
| BurstBudget.ParamsComeFirst | internal/cache/burst.go:36-58 | an admission cuts the budget to its own parameters before it charges the time since the last call at the new rates |
| BurstBudget.TruncationCost | internal/cache/burst.go:60-79 | at a constant count, k calls inserted anywhere into any run move the stored budget, at any later time, by at most k ns: up while draining, down while refilling |
| BurstBudget.GapRun | internal/cache/burst.go:60-79 | along the two runs the stored levels stay within the number of insertions of one ideal level, which is why it does not grow with the calls of the run itself |
| BurstBudget.OverrideKeepsBudgetPromise | internal/controlpanel/rate_limits.go:173-191 | every override the control panel accepts keeps the promise that a full budget lasts its own length |
| BurstBudget.OverrideIff | internal/controlpanel/rate_limits.go:173-191 | exactly which overrides are accepted |
| BurstBudget.BurstSlotState.AdmitBurst | internal/cache/burst.go:36-58 | admitted exactly under the ceiling and either under the limit or with budget left; the lease and the count move only then; the fields follow the specification of the run lemmas |
| BurstBudget.BurstSlotState.AssessBurst | internal/cache/burst.go:63-79 | charge or refill at the old count, clamped and truncated to nanoseconds |
| BurstBudget.BurstSlotState.ReleaseBurst | internal/cache/burst.go:84-89 | the assessment comes before the count drops, and the count never goes below zero |
| BurstBudget.BurstSlotState.RefreshBurst | internal/cache/burst.go:92-95 | a heartbeat assesses and extends the lease only |
| Decimal.ParseFormat | internal/billing/handoff.go:28-72 | every 64-bit integer survives decimal printing and parsing |
| Decimal.CountNum | internal/controlpanel/rate_limits.go:410-420 | removing the commas gives back the plain decimal; the output is an optional sign, one to three digits, then groups of exactly three |
| Base64Url.DecodeEncode | internal/billing/handoff.go:28-72 | unpadded base64url (section 5 of RFC 4648): decoding inverts encoding on every byte string |
| SignedTokens.OpenSign | internal/signedcookie/signedcookie.go:19-47 | a signed payload opens under a key if and only if both keys give the same MAC, and then yields the payload |
| Base64Url.Examples | internal/billing/handoff.go:28-72 | the examples of section 10 of RFC 4648 without padding, and one for the two URL-safe characters |
| SignedTokens.OpenedWasSigned | internal/signedcookie/signedcookie.go:28-47 | whatever opens carries the MAC of exactly the payload it yields |
| SignedTokens.HandoffRoundTrip | internal/billing/handoff.go:28-72 | the exact answer of verification to a signed token under any key and at any time; under the signing key the tenant comes back exactly when the id is positive and the expiry not past |
| SignedTokens.HandoffBinds | internal/billing/handoff.go:28-34 | equal tokens under one key mean equal tenant and equal expiry second |
| SignedTokens.CookieRoundTrip | internal/controlpanel/verify.go:110-138 | decoding inverts encoding for every user, expiry and email, colons included |
| Entitlements.Converges | internal/entitlement/entitlement.go:229-330 | after an apply the tenant reads as the canonical desired state, whatever was stored, out-of-range tiers included |
| Entitlements.UnmanagedUntouched | internal/entitlement/entitlement.go:229-276 | grants outside the managed features keep their rows |
| Entitlements.ReadsAs | internal/entitlement/entitlement.go:293-317 | an out-of-range stored tier reads as the lowest, and the features read are the managed enabled ones |
| Entitlements.ChangedIffDifferent | internal/entitlement/entitlement.go:123-148 | the diff is non-empty exactly when the earlier read differs from the canonical desired state |
| Entitlements.AppliedTwice | internal/entitlement/entitlement.go:229-276 | an apply to a tenant that reads as desired writes nothing, and a second apply is a no-op |
| Entitlements.DiffReachesApplied | internal/entitlement/entitlement.go:229-276 | carrying out the diff feature by feature reaches the state aimed for |
| Entitlements.ValidateState | internal/entitlement/entitlement.go:109-119 | accepted exactly when the tier is in range and every feature is managed |
| Entitlements.DiffStates | internal/entitlement/entitlement.go:135-148 | the loop finds the managed features to switch on and off, in the managed order |
| Entitlements.CanonicalState | internal/entitlement/entitlement.go:321-330 | the desired features once each, sorted |
| Entitlements.Tenant.LoadState | internal/entitlement/entitlement.go:293-317 | whatever order the query returns, the managed and unmanaged features come back separated, sorted and without duplicates |
| Entitlements.Tenant.Apply | internal/entitlement/entitlement.go:229-276 | all or nothing; on success the read state is the canonical desired one, and the diff returned tells whether it differed before |
| ManagedScopes.ChangesAgree | internal/controlpanel/key_management.go:134-175 | carrying out the changes of one function on the current scopes gives the set the other one stores |
| ManagedScopes.NextScopesShape | internal/controlpanel/key_management.go:153-175 | the stored scopes have no duplicates, keep every unmanaged scope in order, and hold exactly the desired managed ones |
| ManagedScopes.SecondRunChangesNothing | internal/controlpanel/key_management.go:134-175 | run again on the result, one function reports no change and the other returns the same sequence |
| ManagedScopes.ManagedScopeChanges | internal/controlpanel/key_management.go:134-151 | the loop reports, in the fixed order, exactly the managed scopes whose membership flips |
| ManagedScopes.ApplyManagedScopes | internal/controlpanel/key_management.go:153-175 | the two loops build the specified sequence |
| ManagedScopes.ParseManagedScopes | internal/controlpanel/key_management.go:117-132 | one unknown value refuses the form; otherwise each value once |
| SignInMethods.StepKeeps | internal/controlpanel/sso.go:532-579 | every step of link, unlink and accept keeps what the row lock promises |
| SignInMethods.NobodyLockedOut | internal/controlpanel/sso.go:532-579 | over every interleaving each user keeps a password or a connection |
| SignInMethods.SubjectsUnique | internal/controlpanel/sso.go:379-426 | each provider subject belongs to at most one user, and a user has at most one connection per provider |
| SignInMethods.CommitRemovesOne | internal/db/queries/sso_connections.sql:94-97 | the commit of an unlink removes the connection to that provider and nothing else |
| SignInMethods.SignInService.SsoLink | internal/controlpanel/sso.go:481-530 | which of the four notices is given when, and that only a link that succeeds adds a connection |
| SignInMethods.SignInService.ResolveAccept | internal/controlpanel/sso.go:379-405 | an accept yields an enabled user who holds the identity, or creates one with it when neither the email nor the subject is known; each refusal has its reason |
| SignInMethods.SignInService.SsoUnlink | internal/controlpanel/sso.go:532-579 | success means the last step took away the connection to that provider and nothing else, and the user can still sign in; an error commits nothing and has its reason: nothing linked, or the last way in |
| PlatformAdmins.StepExactly | internal/controlpanel/users_admin.go:137-191 | from any state of a run without stale writes, one step breaks the RBAC mirror if and only if it is a stale write, and removes the last enabled admin if and only if its target is the only one |
| PlatformAdmins.AlwaysAnAdmin | internal/controlpanel/users_admin.go:137-191 | in every interleaving without a stale write an enabled platform admin remains, the RBAC mirror is the set of enabled platform admins, and a disabled user has no session and no open invitation |
| PlatformAdmins.NoPromotionNoStale | internal/controlpanel/accept_invite.go:165-190 | a run without promotions of existing users has no stale write |
| PlatformAdmins.OnlyOthersDisable | internal/controlpanel/users_admin.go:27-32 | over every run, a user whom nobody else acts against is never disabled |
| PlatformAdmins.LosesOnlyByDisable | internal/db/queries/control_panel_users.sql:203-207 | a disable ends the sessions and open invitations of its target, and nothing ends those of anybody else |
| PlatformAdmins.AdminOnlyByPromotion | internal/db/queries/invitations.sql:140-143 | the admin flag of a user goes up only by a promotion and never down |
| PlatformAdmins.StaleWriteLosesLastAdmin | internal/controlpanel/users_admin.go:137-191 | a run in which a promotion between read and write leaves no enabled platform admin |
| PlatformAdmins.AdminService.CreateFirstAdmin | internal/controlpanel/login.go:181-223 | an installation gets its first admin exactly when it has no user |
| PlatformAdmins.AdminService.AcceptInvite | internal/controlpanel/accept_invite.go:165-258 | exactly when each refusal is given; otherwise a newcomer joins or a known user joins or is promoted, and users and mirror change together |
| PlatformAdmins.AdminService.EnableUser | internal/controlpanel/users_admin.go:109-191 | enabling gives an admin the role back and restores no session and no invitation |
| PlatformAdmins.AdminService.DisableUser | internal/controlpanel/users_admin.go:109-191 | nobody disables themselves; success leaves the target disabled, signed out and without open invitations; an error writes nothing, and each has its reason: no such user, at most one enabled admin, or a row another disable holds |
| PlatformAdmins.AdminService.GuardLastAdmin | internal/controlpanel/users_admin.go:143-155 | lock, then count: the call goes on only after it counted two or more, and is refused as the last admin only at one or none |
| GuardedRequests.StepKeeps | internal/controlpanel/change_requests.go:399-514 | every statement of approvals, denials, accepts, revokes and sweeps keeps the row locks, the pending effects and the tables consistent |
| GuardedRequests.ConsumedOnce | internal/db/queries/change_requests.sql:44-57 | in every interleaving a change request, invitation or signup approval is consumed exactly once if it ends consumed and never otherwise |
| GuardedRequests.FlipsWithEffect | internal/controlpanel/change_requests.go:433-456 | a row flips exactly at the commit of the call that holds it, that step publishes exactly what the row asked for, and no other step of these transactions changes the published tables |
| GuardedRequests.ConsumesOnly | internal/controlpanel/accept_invite.go:231-258 | that step changes what the row names and nothing else: one column of one tenant, the roles of one user, or one new tenant and its owner |
| GuardedRequests.AdminsByInvitation | internal/controlpanel/accept_invite.go:231-236 | over every run, every platform admin got there by the acceptance of an invitation to that very role |
| GuardedRequests.RefusedForReason | internal/controlpanel/change_requests.go:482-514 | an approval is refused exactly for a reason that lies in the request and the tenant |
| GuardedRequests.RevokesExactly | internal/db/queries/control_panel_users.sql:342-349 | disabling a user revokes exactly the open invitations they sent |
| GuardedRequests.SweepsExactly | internal/db/queries/tenant_signup.sql:49-54 | the sweep deletes exactly the approved signups whose code has expired |
| GuardedRequests.EndsOnlyBy | internal/db/queries/tenant_signup.sql:40-54 | a row vanishes only by the sweep and closes only by its own denial or revocation or its inviter's |
| GuardedRequests.ApprovalsNeverLower | internal/db/queries/change_requests.sql:59-65 | no step but the direct setting of a tier lowers one, and an approved upgrade raises the tier to the requested one |
| GuardedRequests.TiersOnlyRise | internal/controlpanel/change_requests.go:482-492 | over any stretch of a run in which no admin sets it directly, the tier of a tenant never falls |
| GuardedRequests.NamesAndCaps | internal/controlpanel/change_requests.go:95-114 | over whole runs tenant names stay unique, and no approved open-sessions override is unlimited or above the hard cap |
| GuardedRequests.ConsumedStays | internal/db/queries/invitations.sql:77-92 | nothing reopens, closes or deletes a consumed row |
| GuardedRequests.ClosedForGood | internal/db/queries/change_requests.sql:44-57 | a denied, revoked or swept row is never reopened or consumed in any continuation, whatever approval or accept had looked it up |
| RequestDesk.Desk.ApproveChangeRequest | internal/controlpanel/change_requests.go:399-480 | success means the row is approved and the tenant has what it asked for; every error commits nothing and has its reason, and a refused request is pending as before |
| RequestDesk.Desk.ApplyFree | internal/controlpanel/change_requests.go:482-514 | the answer of applying a flipped request, with the reason when it is refused and rolled back |
| RequestDesk.Desk.CloseRow | internal/controlpanel/change_requests.go:516-569 | a denial or revoke that affects its row closes it for good: no continuation, of calls in flight or new ones, consumes it; no other row, call or table changes |
| RequestDesk.Desk.ApproveSignupRequest | internal/controlpanel/signup_requests.go:359-436 | approves exactly a waiting signup, under the approved name and with the given expiry |
| RequestDesk.Desk.AcceptRow | internal/controlpanel/signup_requests.go:572-640 | success means the row was not expired, is consumed, and the user has the roles or the tenant it promised; every error commits nothing and has its reason |
| RequestDesk.Desk.WorkAndFlip | internal/controlpanel/accept_invite.go:117-153 | the work is done first and shows only if the guarded flip still finds the row open |
| GameSessions.CapsHold | internal/gamesession/service.go:130-218 | in every interleaving without revivals a project's open sessions stay within the hard cap and an enforced class limit, and a join code names one session |
| GameSessions.StepExactly | internal/gamesession/service.go:199-218 | one step breaks the caps if and only if it revives an expired session of a project that admits no more |
| GameSessions.CountKeeps | internal/db/queries/game_session.sql:63-75 | a count made with the transaction's older now is safe for the clock at the insert |
| GameSessions.RevivalAddsOne | internal/db/queries/game_session.sql:77-85 | an extension of an expired session opens exactly one more session |
| GameSessions.ExtendsIff | internal/db/queries/game_session.sql:77-99 | exactly which session a join or a heartbeat extends |
| GameSessions.RevivalBreaksCap | internal/httpapi/game_session.go:524-575 | a run on a project with a limit of one, in which a join checks a session before its expiry and extends it after, that ends with two open sessions |
| GameSessions.RevivalOvertaken | internal/httpapi/game_session.go:539-575 | a revived session had not run out at the check of the join, or at the start of the heartbeat, that extends it: it ran out in between |
| GameSessions.RosterLastWins | internal/gamesession/service.go:158-173 | the roster holds exactly the seeded players, each with its last address |
| GameSessions.Service.Create | internal/gamesession/service.go:104-191 | at most six tries; success leaves the session with its project, size and roster; a failure leaves no session and is explained by the last event: a full project, a taken code, or a held lock; the caps hold |
| GameSessions.Service.Attempt | internal/gamesession/service.go:137-179 | one transaction inserts the whole session or nothing |
| GameSessions.Service.SeedRoster | internal/gamesession/service.go:158-173 | the upsert loop builds the roster |
| PlayerSlots.CounterExact | internal/httpapi/auth.go:840-888 | the counter is the number of players plus the upsert races lost, so never below the players created |
| PlayerSlots.RaisedWithinLimit | internal/db/queries/quota.sql:37-53 | only a commit raises the counter, by one, and for an enforced tenant only up to the limit its call read |
| PlayerSlots.NeverPastLimit | internal/httpapi/auth.go:1030-1066 | with a fixed limit and enforcement on, counter and players stay within the limit in every interleaving despite stale snapshots |
| PlayerSlots.StartsIff | internal/httpapi/auth.go:1035-1044 | the snapshot lets a new player pass exactly without enforcement, without a limit, or below it |
| PlayerSlots.ReservesIff | internal/db/queries/quota.sql:37-53 | the reservation is granted exactly without enforcement, without a limit, or below the limit the call brings |
| PlayerSlots.Tenant.SignInExternal | internal/httpapi/auth.go:840-888 | success means an unbanned, existing player; a slot is taken exactly when the call created its player's row and was admitted; the quota error takes enforcement, a finite limit and a full counter |
| PlayerSlots.Tenant.ReserveAndCommit | internal/httpapi/auth.go:1053-1066 | an admitted reservation ends within the limit the call brought |
| OriginCache.LoadsApart | internal/httpapi/cors_origins.go:51-72 | successive loads start at least a TTL apart, even when they fail |
| OriginCache.Remembers | internal/httpapi/cors_origins.go:55-72 | the answers are those of the latest successful load |
| OriginCache.AnswersFresh | internal/httpapi/cors_origins.go:55-72 | if the last load succeeded, the answer is what the source held when it was read; that is less than a TTL ago if and only if the answer did not wait for a load that took a TTL or more from there |
| OriginCache.SlowLoadStale | internal/httpapi/cors_origins.go:62-71 | a load that returns a TTL or more after it read the source can give an answer that the source held at no moment of the last TTL |
| OriginCache.FailureKeepsAnswers | internal/httpapi/cors_origins.go:64-67 | a failed load keeps the last list for a TTL |
| OriginCache.OriginSet.ProjectOrigins | internal/httpapi/cors_origins.go:55-72 | the fields follow the specification, and a load happens exactly when it is due |
| OriginCache.OriginSet.Allowed | internal/httpapi/cors_origins.go:44-49 | an origin is allowed exactly when the static list or the cached one has it; the static list makes no load |

## Left out

- HTTP parsing, pages, redirects, cookies, CSRF, audit-log rows and mail sending: input and output.
- Configuration, migrations, start-up, the matchmaker, relay, realtime hub, parties, leaderboards and storage: not part of this model.
- Cryptography: hashes, MACs and password comparison are arbitrary functions or booleans; random tokens, codes and identifiers are parameters that the theorems assume unused where the code relies on that.
- Row-level security and the isolation levels of the database: a statement is atomic, sees what is committed, and waits for a row lock held by another transaction.
- FleetMachine: a backend never reports a reference twice while the model runs; the statuses allocating, allocated and draining, the event log, watching, listing and address checks are not modelled; freeing the empty reference has no effect; a resolution clean-up frees every server brought up so far for rows with its label.
- FleetManager.Manager.Allocate: the context can end only while the manager waits between two attempts, as in the code; a backend or store call that fails because its context ended is one more failed call.
- CodeChallenge.PlayerRow.ConfirmCode: one transaction is one step; ChallengeRaces splits it. A password reset changes the password and the sessions too, which PlayerSessions has as PasswordReset.
- ChallengeRaces.BoundedWithRaces: a re-issue is one step, so a re-issue that overlaps a confirm or another re-issue between its read and its write is not modelled; the control panel's check is not split.
- CodeChallenge.PlayerRow.ReissueCode: the silent answer for players without a password, banned or disabled players, and the control panel's restoring of the earlier code when mail fails, are not modelled.
- PlayerSessions.AuthService.Refresh: the read of the session, its epoch and the reuse handling are one step, the conditional revoke with the insert another; finer races of reuse detection with a refresh are not modelled.
- BurstBudget: the quotient of floats is the exact quotient, and the truncation to nanoseconds its floor (the quotient is never negative); all connections of a slot use the same parameters.
- Entitlements.Tenant.Apply: the grants are those of one tenant at tenant level; who approved them and when is dropped; concurrent applies run one after the other.
- Decimal.CountNum: a signed 64-bit integer is an unbounded one here; printing has no overflow.
- SignedTokens.HandoffRoundTrip: times are whole nanoseconds since the epoch, and the expiry second must fit 64 bits.
- SignInMethods.SignInService.SsoUnlink: the confirmation of the password or provider before a change, and sign-in itself, are not modelled; accepts and links are whole transactions, and the unique indexes are not needed for the proofs.
- PlatformAdmins.AlwaysAnAdmin: the statement that locks the admin rows takes them all at once; a promotion, a first setup and an enabling are whole transactions; the RBAC store is configured.
- GuardedRequests: the checks at submission, the one-pending index, upper and lower case of names, and the deletion of tenants are not modelled; a row lock covers the tier of a tenant as a whole, and features and overrides need none because their writes commute or the last one wins.
- RequestDesk.Desk.AcceptRow: how the password or the provider proves the user is in PlatformAdmins and SignInMethods; here it is a boolean, and the user is given.
- GameSessions.Service.Create: the title, properties, host and privacy of a session are carried along unchanged in the code and dropped here; the hash of the advisory lock has no collisions that matter, since a collision only makes more creators wait.
- GameSessions.CapsHold: a run may contain any joins and heartbeats except a revival; the roster limit of a join is not modelled.
- PlayerSlots.Tenant.SignInExternal: sign-up by email and anonymous sign-up reserve a slot the same way and are not repeated here; soft deletes of players are not modelled.
- OriginCache.OriginSet.ProjectOrigins: the mutex makes calls one after the other, so the class has no concurrency; the clock never returns the zero time.
- Small parsing and formatting helpers, labels, status names and limit fields: easy members.
