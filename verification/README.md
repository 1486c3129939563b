# SecureAuthX Pro, verified

A model in Dafny of the authentication service and of the small algorithms it rests on, with proofs of what they keep.

`dafny verify dfyconfig.toml` checks everything.

## How it is built

**Algorithms.** `Base32` and `Totp` (one-time codes, written from scratch in the original), `RateLimit` (the in-memory window
counter), `Cache` (the lazily deleting in-memory cache), `Pagination`. Loops are methods proved equal to a specification; the Base32 loops
work on 32-bit words, as the original's bit operations do.

**The service.** `Rows` holds the tables and what each repository call does to them. `Repositories`, `MfaService`, `AuthService` and
`AdminService` hold the classes of the original, which work on one shared database and cache, one repository call after the other. Each
method is proved to do and to answer exactly what a function of `Protocol` says. All that is proved about runs is proved about those
functions.

**Requests one at a time.** `Machine` is the state machine over them: every request an anonymous client, a signed-in user or an
administrator can make. Over its runs: `Consistency` (the tables, tokens and cache fit together), `Lockout`, `Admins`, `MfaMaterial`,
`LockLapses`, `Rotation`, `Provenance`, `TrustedDevices`, `SessionLifetimes`, `Verification`, `Standing` and `TotpLogin`; `Frames` says which
request changes which table.

**Answers.** `SignInAnswers`, `ChallengeAnswers`, `SessionAnswers`, `SettingsAnswers`, `AccountAnswers` and `OrderAnswers` say for every request
what it answers and which columns it changes to what, and that it changes no others, in the terms of `Columns`: the columns, the
tokens, the cache entries and the unknown functions, and, but for `Normalize`, not the functions of `Protocol` and `Rows`. What follows from them over runs is in the same modules.

**Requests in flight together.** `Interleaving` takes sign-in, answers to challenges, refresh, logout, admission and orders of
administrators, regeneration of recovery codes and confirmation of addresses apart into their repository and cache calls, and lets any
number of them overlap; each holds what it has read, and that says which call comes next. `Undisturbed` proves that run alone they are the
requests of `Protocol`, `WorldInvariant` what holds between any two calls. On top of them: `OverlappingSessions`, `OverlappingSignIns`,
`OverlappingAnswers`, `OverlappingOrders`, `OverlappingLocks` and `RecoveryCodes`. Each says exactly what overlap costs: the property for every interleaving in
which the requests concerned do not overlap, and a trace in which they do and it fails.

## What is assumed

- SHA-256 is injective (`Rows.Hash` is a constructor). HMAC is an unknown function with digests of at least 20 bytes. Password check,
  at-rest cipher, one-time-code check and the two WebAuthn checks are unknown functions in `Protocol.Config`; `TotpLogin` puts the check of
  `Totp` in the place of the third.
- Identifiers, tokens and recovery codes are parameters. In runs and traces a value drawn never repeats (`FreshDraw`, `ValidStage`), and a
  signed token verifies only if it was issued and, compared in whole seconds, has not expired.
- The clock is one number per request, and does not go back from one request to the next; between the calls of `Interleaving` it may.
- A repository call on a row that does not exist changes nothing. The original throws there, and in the modelled flows it cannot happen,
  since accounts and sessions are never deleted.

## Where the code is not what one would guess

- After a lapsed lock, `login` goes on with the row it read before unlocking, so one wrong password locks again
  (`Lockout.RelocksAtOnce`). The bound of `Lockout.BruteForceBound` is the bound with that behaviour.
- Starting TOTP enrollment again clears the record's `enabled` and leaves `user.totpEnabled`, so `mfaEnabled` is not the disjunction of the
  two method flags, and `totpEnabled` says only that a record exists (`MfaMaterial.Backed`).
- Nothing that a request writes is conditional on what it read, but the claim of a recovery code. So these hold for requests that do not
  overlap, and fail for two that do:

  | promise | holds unless two of these overlap | fails then |
  |---|---|---|
  | a refresh token is used once | `OverlappingSessions.SecondUseNeedsOverlap` | `OverlappingSessions.TwoUsesByOverlap` |
  | wrong passwords are bounded | `OverlappingSignIns.BruteForceBoundOneByOne` | `OverlappingSignIns.NoBoundByOverlap`, and by confirmations `OverlappingSignIns.LockLiftedByOverlap` |
  | a challenge completes one login | `OverlappingAnswers.SecondLoginNeedsOverlap` | `OverlappingAnswers.TwoLoginsByOverlap` |
  | an administrator remains | `OverlappingOrders.AnAdministratorRemainsOneByOne` | `OverlappingOrders.NoneRemainsByOverlap` |
  | at most ten recovery codes | `RecoveryCodes.NeverMoreThanTen` | `RecoveryCodes.TwentyByOverlap` |

- Locking or disabling ends the sessions of an account, but it stays without one only if none of its challenges is live then
  (`Standing.NoSessionWhileHeld`). If one is, answering it creates a session with no requests overlapping (`Standing.LockedThenAnswered`),
  which the guards let in if the account is locked and not disabled. Under overlap the account must also have no sign-in or answer under
  way (`OverlappingLocks.LockedOutWhenShutOut`, and otherwise `OverlappingLocks.LockMissesOverlappingSignIn`).
- An administrator always remains, but not one who can act: the only one may lock itself (`Standing.LockingItselfLeavesNone`).
- Nothing remembers a one-time code that was accepted; within its window it logs in again on another challenge
  (`TotpLogin.OneCodeTwoLogins`).
- Verifying an address sets the status to ACTIVE whatever it was. So an administrator's lock, which docs/security-model.md:26 says only an
  explicit unlock clears, lasts exactly as long as nobody verifies an address not verified before (`Standing.LiftedOnlyByConfirming`).
- Completing a second-factor login does not look at the status. docs/security-model.md:52 says LOCKED blocks sign-in; it blocks the
  password, and a challenge opened before still completes (`Standing.HeldLoginIff`).
- "Remember me" is kept in the challenge, "preserved for token TTL" (apps/api/src/services/mfa.service.ts:61), and not used when a
  second-factor login completes: the long lifetime is for sign-ins that took no challenge (`SessionLifetimes.LoginLasts`,
  `SessionLifetimes.RememberMeForgotten`).
- README.md:48 of the repository promises trusted devices a time to live. The cookie is given one
  (apps/api/src/controllers/mfa.controller.ts:21); the stored row has none, so for whoever keeps the cookie's value the device is trusted
  exactly until the account disables second factors (`TrustedDevices.TrustedUntilDisabled`, `TrustedDevices.CookieLogsInAtAnyTime`).
- A time to live of zero seconds means a cache entry that never expires (`Cache.ReadUntilDeadline`).

## Model

| member | source | states |
|---|---|---|
| Lockout.BruteForceBound | apps/api/src/services/auth.service.ts:231-286 | in every run with no correct sign-in and no administrator changing the status, the wrong passwords compared by sign-ins number at most the limit (one, if it is set lower) plus one for each whole lockout in the time taken, whatever else happens in between |
| Lockout.SignInCounted | packages/database/src/repositories/user.repository.ts:58-98 | one sign-in keeps the relation between stored counter, lock and comparisons so far, although it goes on with the row it read before lifting the lock |
| Lockout.RelocksAtOnce | apps/api/src/services/auth.service.ts:248-267 | the first wrong password after a lock has lapsed locks again at once, for a whole lockout from then on |
| LockLapses.LockLastsExactly | apps/api/src/services/auth.service.ts:231-286 | over runs: the wrong password that reaches the limit locks for exactly the configured minutes; at the next sign-in, unless an administrator changed the status, every password is refused before that time and exactly the right one is accepted from then on |
| OverlappingSignIns.BruteForceBoundOneByOne | apps/api/src/services/auth.service.ts:231-286 | the bound on wrong passwords holds under every interleaving in which no two sign-ins to the account are between read and write together, nor two confirmations of its address; an administrator changes no status and no right password is given |
| OverlappingSignIns.VerifiedAccountBound | apps/api/src/services/auth.service.ts:231-286 | for an account with a verified address and no confirmation under way at the start, overlapping confirmations need not be excluded |
| OverlappingSignIns.LockLiftedByOverlap | packages/database/src/repositories/user.repository.ts:47-56 | two confirmations of one address that both read before either completes: the second lifts a lock set in between, and with a limit of one a second password is compared at the same time |
| OverlappingSignIns.NoBoundByOverlap | apps/api/src/services/auth.service.ts:262-267 | any number of sign-ins that all read before any writes are all compared, at one time, and the counter rises by one: with overlap there is no bound |
| Rotation.EventEvolves | apps/api/src/services/auth.service.ts:391-488 | every event keeps owner and expiry of sessions, reactivates none, changes a hash only to that of the token it hands out, creates a session only with such a token, and withdraws no token |
| Rotation.StoredHashIsLastToken | packages/database/src/repositories/session.repository.ts:25-51 | the stored hash is always that of the last refresh token handed out for the session |
| Rotation.AcceptedIffLast | apps/api/src/services/auth.service.ts:433-475 | a presented token is accepted if and only if it is unexpired, its session active and not past its expiry, its account not disabled, and it is the last one handed out |
| Rotation.AcceptedOnce | apps/api/src/services/auth.service.ts:433-488 | no refresh token is accepted twice |
| Rotation.ReplayEndsTheFamily | apps/api/src/services/auth.service.ts:445-453 | presenting any older unexpired token of an active session is answered as reuse, and nothing of that family is accepted ever after |
| Rotation.SessionsOnlyEnd | packages/database/src/repositories/session.repository.ts:32-58 | over every stretch of a run sessions are kept, with owner and expiry, and an ended one stays ended |
| Rotation.EndedForGood | apps/api/src/middlewares/bound-auth.ts:25-31 | once a session has ended no refresh token and no access token of it gets anything done |
| Rotation.LockingEnds | apps/api/src/services/admin.service.ts:130-133 | an accepted locking or disabling ends every session of the account |
| Rotation.SigningOutEnds | apps/api/src/services/auth.service.ts:499-528 | signing out ends the session it names |
| Rotation.NoExpiryDrift | apps/api/src/services/auth.service.ts:455-475 | after any number of rotations at any times every refresh token of a session asks to expire within the second after the expiry the session was created with |
| OverlappingSessions.NoResurrection | packages/database/src/repositories/session.repository.ts:21-58 | under every interleaving a session that has left ACTIVE never returns to it, and owner and expiry never change |
| OverlappingSessions.NothingAfterTheEnd | apps/api/src/middlewares/bound-auth.ts:25-31 | so no refresh, no authenticated request and no order that reads the session after it has ended gets through |
| OverlappingSessions.SecondUseNeedsOverlap | apps/api/src/services/auth.service.ts:439-475 | under every interleaving: once a rotation by a read with a token is written, no later read with that token leads to another rotation |
| OverlappingSessions.TwoUsesByOverlap | packages/database/src/repositories/session.repository.ts:32-37 | two refreshes with one token that both read before either writes both succeed, so overlap is exactly what a second use takes |
| OverlappingSessions.ReplacedNeverRotates | apps/api/src/services/auth.service.ts:439-475 | a token whose hash is no longer stored never leads to a rotation, whatever is in flight |
| OverlappingSessions.TokensStay | packages/security/src/jwt.ts:54-64 | tokens go on naming the session they were signed for |
| OverlappingSessions.RevokeAllEndsEverySession | packages/database/src/repositories/session.repository.ts:53-58 | the revocation of a locking ends every session the account has at that moment |
| OverlappingSessions.NoExpiryDriftByOverlap | apps/api/src/services/auth.service.ts:455-475 | under every interleaving every refresh token of a session asks to expire within the second after the expiry the session was created with |
| Provenance.LoginTraces | apps/api/src/services/auth.service.ts:262-385 | every login gave the password and, if the account then had a second factor, a device trusted with that factor since the last disabling; or it gave a factor on a challenge opened earlier for the same account with the password and still within its time to live |
| Provenance.SessionsTrace | apps/api/src/services/auth.service.ts:262-431 | every session there ever is was created by such a login of the account that owns it |
| Provenance.EventSteps | apps/api/src/services/mfa.service.ts:131-326 | every pending challenge was there before or was opened just now for a proven password; every trusted device was there before, and not disabled, or was trusted just now with a factor |
| Provenance.ChallengesTrace | apps/api/src/services/mfa.service.ts:131-166 | every pending challenge was opened in the run and carries the deadline it had then |
| Provenance.CompletesOnce | apps/api/src/services/mfa.service.ts:160-326 | a challenge completes at most one login, across all three methods |
| Provenance.CompletesInTime | apps/api/src/services/mfa.service.ts:84-166 | and only within the time to live counted from when it was opened, if that is not zero |
| Provenance.AnswersIff | apps/api/src/services/mfa.service.ts:172-326 | answering a challenge logs an account in if and only if the challenge is live and that account's and the factor is right, for all three methods |
| Provenance.EmptyStarts | apps/api/src/services/auth.service.ts:89-138 | the service before its first registration is a state the theorems on provenance and on expiry start from |
| TrustedDevices.EventDevices | apps/api/src/services/mfa.service.ts:552-609 | after any event a device is trusted if and only if it was and its account did not disable second factors just then, or it was trusted just then with a factor |
| TrustedDevices.TrustedUntilDisabled | apps/api/src/services/mfa.service.ts:552-609 | a trusted device is trusted at any later point of a run, however late, if and only if its account has not disabled second factors in between |
| TrustedDevices.DevicesAreTrustedSince | apps/api/src/services/mfa.service.ts:552-609 | the trusted devices are exactly those trusted in the run with a factor and not disabled since |
| TrustedDevices.GateIff | apps/api/src/services/auth.service.ts:288-309 | a right password leads to a challenge if and only if the account has a second factor and the cookie names no trusted device |
| TrustedDevices.CookieLogsInAtAnyTime | apps/api/src/services/mfa.service.ts:600-609 | with the cookie of a trusted device the password alone logs in at any later event, however much later, unless the account has disabled |
| SessionLifetimes.LoginLasts | apps/api/src/services/auth.service.ts:317-431 | a login is for the refresh lifetime if it is a sign-in with remember-me answered with tokens at once, and for the session timeout otherwise |
| SessionLifetimes.SessionsLast | apps/api/src/services/auth.service.ts:391-431 | over runs every session expires exactly so long after the login that created it |
| SessionLifetimes.RememberMeForgotten | apps/api/src/services/auth.service.ts:364-385 | answering a challenge opened with remember-me creates a session for the session timeout |
| OverlappingAnswers.SecondLoginNeedsOverlap | apps/api/src/services/mfa.service.ts:160-326 | under every interleaving: once an accepted answer has dropped a challenge no other answer to it takes off, by whichever method |
| OverlappingAnswers.TwoLoginsByOverlap | apps/api/src/services/mfa.service.ts:172-211 | two answers that both read the challenge before either drops it both log in |
| Admins.AnAdministratorRemains | apps/api/src/services/admin.service.ts:71-149 | a service that starts with an administrator not disabled has one after every request of every run |
| Admins.ActorRemains | apps/api/src/middlewares/require-admin.ts:9-14 | the administrator who makes a request is still one after it |
| OverlappingOrders.AnAdministratorRemainsOneByOne | apps/api/src/services/admin.service.ts:71-149 | an administrator remains under every interleaving in which no two demotions or disablings are under way together |
| OverlappingOrders.NoneRemainsByOverlap | apps/api/src/services/admin.service.ts:71-94 | the only two administrators, both let in before either order is carried out, demote each other |
| OrderAnswers.OnlyAdministrators | apps/api/src/middlewares/require-admin.ts:9-14 | a signed-in user who is not an administrator gets no order carried out |
| OrderAnswers.RoleAnswer | apps/api/src/services/admin.service.ts:71-94 | an order on a role is carried out if and only if the account is there and it is not a different role for oneself |
| OrderAnswers.StatusAnswer | apps/api/src/services/admin.service.ts:96-149 | an order on a status is carried out if and only if it leaves the status or is one of the eight changes listed, and is not the own disabling; the lock is set or lifted, and locking or disabling revokes exactly the active sessions |
| OrderAnswers.Unlocking | apps/api/src/services/admin.service.ts:24-28 | an unlocking by an administrator is accepted, and leaves the account ACTIVE and without a lock |
| OrderAnswers.EventIdentities | apps/api/src/services/auth.service.ts:116-137 | no request but an accepted order changes a role, none an address or a password, and only a sign-up adds an account, which has role USER |
| OrderAnswers.RoleGivenBy | apps/api/src/services/admin.service.ts:71-94 | an accepted order on a role was given by an administrator, to somebody else unless it changes nothing, and the account has the role ordered |
| OrderAnswers.RoleIsLastOrdered | apps/api/src/services/admin.service.ts:71-94 | over runs a role is the last one ordered, and USER for a newcomer until then |
| OrderAnswers.AdministratorsAreMade | apps/api/src/services/admin.service.ts:71-94 | over runs an administrator was one at the start or was made one by an administrator |
| OrderAnswers.NoneFromNone | apps/api/src/services/admin.service.ts:71-94 | without an administrator at the start there never is one |
| Standing.LiftedOnlyByConfirming | packages/database/src/repositories/user.repository.ts:47-56 | before that date requests other than an administrator's change of status lift a lock or disabling if and only if they verify the address of an account not verified before |
| Standing.HeldUntilLifted | apps/api/src/services/admin.service.ts:114-128 | so, for an account with a verified address and before the far-future date of such a lock, an administrator's lock or disabling lasts through every run until an administrator changes the status |
| Standing.HeldLoginIff | apps/api/src/services/auth.service.ts:216-385 | before that date a held account is logged in if and only if a factor is given on one of its live challenges; no password does it |
| Standing.DisabledThenConfirmed | apps/api/src/services/auth.service.ts:171-193 | and that is reached: an account signs up, an administrator disables it, its address is confirmed, and it is active |
| Standing.ActorCanActIff | apps/api/src/services/admin.service.ts:96-149 | an administrator neither held nor pending who gives an accepted order is so afterwards, if and only if the order is not its own locking or return to verification |
| Standing.OneWhoCanActRemains | apps/api/src/services/admin.service.ts:71-149 | as long as orders come from such administrators and none is of that kind, one of them remains through every run |
| Standing.LockingItselfLeavesNone | apps/api/src/services/admin.service.ts:96-149 | the only administrator may lock itself: an administrator remains, but none who can act |
| Standing.NoSessionWhileHeld | apps/api/src/services/admin.service.ts:114-133 | an account held, with a verified address, no active session and no live challenge, has no active session through every run in which no administrator changes its status |
| Standing.LockedThenAnswered | apps/api/src/services/auth.service.ts:317-385 | and with a live challenge it gets one, with no requests overlapping: locked, no session left, the challenge answered, an active session of an account still locked |
| Standing.LockedThenConfirmed | apps/api/src/services/auth.service.ts:171-193 | the same with a lock: an account activated while unverified is locked, confirmed, and active |
| OverlappingLocks.LockedOutWhenShutOut | apps/api/src/services/admin.service.ts:114-133 | under every interleaving: an account held when its sessions are revoked, with a verified address, no sign-in, answer or confirmation of it under way and no live challenge, has no active session from then on until an administrator changes its status |
| OverlappingLocks.LockMissesOverlappingSignIn | apps/api/src/services/admin.service.ts:114-133 | from a world where neither is under way: a sign-in that reads the row before the lock is written creates its session after the revocation, and the locked account has an active session |
| MfaMaterial.StepBacked | apps/api/src/services/mfa.service.ts:332-579 | every request keeps: webauthnEnabled exactly with a credential; an enabled record or a credential implies mfaEnabled; mfaEnabled implies a record or a credential; totpEnabled implies a record |
| MfaMaterial.MaterialAgrees | packages/database/src/repositories/mfa.repository.ts:20-44 | so it holds at every point of every run |
| MfaMaterial.OfferedMethodsAreBacked | apps/api/src/services/mfa.service.ts:138-156 | every method a challenge offers has something stored behind it when it is issued, and the suggested one is the first offered |
| RecoveryCodes.NormalizesAlike | apps/api/src/services/mfa.service.ts:217-221 | two texts normalize to the same if and only if they differ in separators and case only |
| RecoveryCodes.IssuedCodeNormalizes | apps/api/src/services/mfa.service.ts:503-506 | an issued code normalizes to its twelve hex digits |
| RecoveryCodes.MatchesIffVariant | apps/api/src/services/mfa.service.ts:217-233 | a typed code has the stored hash if and only if it is such a variant of the code issued |
| RecoveryCodes.ClaimedOnce | packages/database/src/repositories/mfa.repository.ts:57-63 | under every interleaving, regenerations and deletions included, no code is claimed twice |
| RecoveryCodes.CodesConserved | packages/database/src/repositories/mfa.repository.ts:57-71 | as long as the batch stays, every claim is one unused code less and one used code more |
| RecoveryCodes.NeverMoreThanTen | apps/api/src/services/mfa.service.ts:486-501 | an account never has more than ten codes under any interleaving in which no two of its regenerations are under way together |
| RecoveryCodes.TenPerBatch | apps/api/src/services/mfa.service.ts:486-501 | from the insertion of a batch to the next deletion, used and unused codes make ten and the used ones are the claims |
| RecoveryCodes.TwentyByOverlap | apps/api/src/services/mfa.service.ts:486-501 | two regenerations that both delete before either inserts leave twenty working codes |
| RecoveryCodes.LoginsNeedClaims | apps/api/src/services/mfa.service.ts:217-233 | recovery logins completed or under way never outnumber the claims |
| RecoveryCodes.TenLoginsPerBatch | apps/api/src/services/mfa.service.ts:217-233 | a batch lets in at most ten times under every interleaving |
| Verification.EventTokens | packages/database/src/repositories/email-verification.repository.ts:10-36 | a token row still usable after an event was so before with no newer token mailed, or is that of the token mailed just now |
| Verification.UsableIsLastMailed | apps/api/src/services/auth.service.ts:140-165 | a usable token is the last one mailed to its account |
| Verification.VerifiedWithLastToken | apps/api/src/services/auth.service.ts:171-193 | an address becomes verified only by confirming the last token mailed to it, within its lifetime |
| SignInAnswers.SignInAnswer | apps/api/src/services/auth.service.ts:214-286 | the answer to every sign-in from the columns of the row: disabled, locked with the seconds left rounded up, not verified, wrong password, or accepted, each if and only if |
| SignInAnswers.UnknownAddress | apps/api/src/services/auth.service.ts:214-223 | an address without an account is answered as a wrong password is, and nothing happens |
| SignInAnswers.SignInRow | apps/api/src/services/auth.service.ts:231-286 | the row after every sign-in: a lapsed lock is lifted whatever the answer, a wrong password counts one up and at the limit locks from now on, a right one leaves ACTIVE, no lock and a counter of zero; no other row changes |
| SignInAnswers.RightPasswordChallenged | apps/api/src/services/auth.service.ts:286-301 | a right password for an account with a second factor, without a trusted device, opens a challenge in the cache, with the methods of the flags in order and the deadline answered |
| SignInAnswers.RightPasswordLogsIn | apps/api/src/services/auth.service.ts:286-309 | and otherwise opens one session with its pair of tokens, for the refresh lifetime if that was asked for |
| SignInAnswers.RefusedOpensNothing | apps/api/src/services/auth.service.ts:214-286 | a refused sign-in opens no session and no challenge |
| ChallengeAnswers.NoChallenge | apps/api/src/services/mfa.service.ts:160-166 | without a live challenge every answer is refused as such and changes nothing |
| ChallengeAnswers.TotpRefused | apps/api/src/services/mfa.service.ts:172-205 | a one-time code is refused if there is no secret, it does not decipher or the code does not fit it, each with its error, and the challenge stays |
| ChallengeAnswers.TotpLogsIn | apps/api/src/services/mfa.service.ts:207-210 | and otherwise logs in for the session timeout, ends the challenge, and trusts the device exactly if asked to |
| ChallengeAnswers.RecoveryRefused | apps/api/src/services/mfa.service.ts:217-229 | a recovery code that is not an unused one of the user is refused |
| ChallengeAnswers.RecoveryLogsIn | apps/api/src/services/mfa.service.ts:217-233 | an unused one becomes used at this time, and logs in |
| ChallengeAnswers.AssertionStarted | apps/api/src/services/mfa.service.ts:239-266 | the keys of the user of the challenge are answered, and what they have to sign is stored under it |
| ChallengeAnswers.NoAssertionStarted | apps/api/src/services/mfa.service.ts:239-243 | without a live challenge no ceremony starts |
| ChallengeAnswers.KeyRefused | apps/api/src/services/mfa.service.ts:268-317 | a security key is refused without a live ceremony for signing in, or if it is not a key of the user that signs it |
| ChallengeAnswers.KeyLogsIn | apps/api/src/services/mfa.service.ts:319-326 | and otherwise its counter is written, ceremony and challenge end, and it logs in |
| SessionAnswers.AdmittedIff | apps/api/src/middlewares/authenticate.ts:41-61 | the answer of the middleware to every token, each error and admission if and only if |
| SessionAnswers.RefreshUnnamed | apps/api/src/services/auth.service.ts:433-442 | a refresh token unknown, expired or of no active session gets the error and nothing else |
| SessionAnswers.RefreshEnds | apps/api/src/services/auth.service.ts:447-461 | a token that is not the last revokes its session, and a last one past the expiry expires it; no other session changes |
| SessionAnswers.RefreshAnswer | apps/api/src/services/auth.service.ts:463-488 | the last token in time gets a new pair with the lifetime that is left, rounded up, unless the account is disabled; the expiry of the session stays |
| SessionAnswers.SignOutAnswer | apps/api/src/services/auth.service.ts:499-528 | the session of a good refresh cookie is revoked, and failing that the session of a good access cookie; nothing else changes |
| SessionAnswers.HandedPair | apps/api/src/services/auth.service.ts:391-488 | whichever request hands out tokens, the pair names one standing session of the account answered, whose hash is that of the refresh token, which expires as long from now as the answer says |
| SessionAnswers.AccessTokenLetsIn | apps/api/src/services/auth.service.ts:391-488 | the access token handed out by a login or a refresh lets its account in at any time if and only if that is before it expires, its session has not expired, and the account is not disabled |
| SessionAnswers.AccessTokenOverRuns | apps/api/src/middlewares/authenticate.ts:41-61 | over runs the same at every later point, as long as the session has not been ended |
| SettingsAnswers.NotSignedIn | apps/api/src/middlewares/authenticate.ts:41-61 | nobody who is not signed in gets a setting or an order carried out |
| SettingsAnswers.DisableAnswer | apps/api/src/services/mfa.service.ts:552-579 | with the right password no secret, code, key or device of the user is left and the flags are off, and nobody else loses anything; with a wrong one nothing happens |
| SettingsAnswers.DisabledIff | apps/api/src/services/mfa.service.ts:552-559 | disabling second factors is accepted if and only if somebody is signed in and gives their password |
| SettingsAnswers.RegenerateAnswer | apps/api/src/services/mfa.service.ts:474-501 | with the right password ten new codes are answered, in groups of four digits, and exactly their hashes replace the old ones; with a wrong one nothing happens |
| SettingsAnswers.RegeneratedIff | apps/api/src/services/mfa.service.ts:474-482 | new codes are answered if and only if somebody is signed in and gives their password |
| SettingsAnswers.TotpStarted | apps/api/src/services/mfa.service.ts:332-349 | a new secret is answered in the clear and stored enciphered, neither verified nor enabled |
| SettingsAnswers.TotpFinishRefused | apps/api/src/services/mfa.service.ts:351-366 | without a started enrollment, a secret that deciphers and a code that fits it, enrollment is refused, each with its error, and nothing happens |
| SettingsAnswers.TotpFinished | apps/api/src/services/mfa.service.ts:368-373 | and otherwise the record is enabled, the two flags are set, and codes are issued exactly if no unused one is left |
| SettingsAnswers.RegistrationStarted | apps/api/src/services/mfa.service.ts:379-411 | a registration ceremony of the user is stored under the identifier answered |
| SettingsAnswers.RegistrationRefused | apps/api/src/services/mfa.service.ts:413-437 | finishing takes a live registration ceremony of the same user, a registration that verifies and a free key; each refusal has its error |
| SettingsAnswers.RegistrationFinished | apps/api/src/services/mfa.service.ts:439-459 | and otherwise the key is stored for the user, the two flags are set, the ceremony ends, and codes are issued exactly if no unused one is left |
| SettingsAnswers.RemovalRefused | apps/api/src/services/mfa.service.ts:535-537 | a key that is not one of the user is not found |
| SettingsAnswers.KeyRemoved | apps/api/src/services/mfa.service.ts:535-549 | a key of the user goes; its flag goes with the last one, and the second factor with that if no generator is enabled |
| AccountAnswers.SignUpNew | apps/api/src/services/auth.service.ts:109-137 | signing up under a free address creates a pending, unverified account of role USER with the hash of the password given, no second factor, no failures and no lock, and mails it a token |
| AccountAnswers.SignUpAgain | apps/api/src/services/auth.service.ts:100-107 | signing up again, and asking for another mail, makes a new token the only usable one of an unverified account, with its lifetime, and does nothing to a verified one |
| AccountAnswers.ResendToNobody | apps/api/src/services/auth.service.ts:195-202 | asking for a mail to an unknown address does nothing |
| AccountAnswers.ConfirmAnswer | apps/api/src/services/auth.service.ts:171-193 | a token of a verified account is accepted whatever its state; otherwise a token is accepted if and only if it is unused and in time, and then the account is verified and ACTIVE |
| AccountAnswers.ConfirmUnknown | apps/api/src/services/auth.service.ts:171-175 | a token nobody was mailed is refused |
| TotpLogin.LogsInIffInWindow | apps/api/src/services/mfa.service.ts:172-211 | with the service checking codes as `Totp` does, an answer to a live challenge logs in if and only if the code is that of a counter at most one step away |
| TotpLogin.DriftedCodeLogsIn | apps/api/src/services/mfa.service.ts:172-211 | so a code made up to thirty seconds earlier or later logs in |
| TotpLogin.CodeLogsInThroughoutWindow | apps/api/src/services/mfa.service.ts:172-211 | absent a collision, the code of counter i logs in on a live challenge, used before or not, if and only if the time is from the start of step i - 1 to the end of step i + 1 |
| TotpLogin.OneCodeTwoLogins | apps/api/src/services/mfa.service.ts:172-211 | one code completes two logins on two challenges within that time |
| TotpLogin.LogsInIffSpelled | apps/api/src/services/mfa.service.ts:172-211 | an answer to a live challenge logs in if and only if, trimmed, it is six digits that spell the number of the selected bits of the digest of a counter at most one step of thirty seconds away |
| Base32.Base32Encode | packages/security/src/totp.ts:45-62 | the loop, with a 32-bit accumulator that is never masked and overflows, returns exactly the encoding read off the bit stream (RFC 4648 section 6), for input of any length |
| Base32.Base32Decode | packages/security/src/totp.ts:65-88 | the decoding loop, with the same accumulator, returns for any ASCII text the bytes read off the bit stream of what is left once padding and foreign characters are dropped and case is folded; its error is unreachable |
| Base32.EncodedBits | packages/security/src/totp.ts:45-62 | every bit of the symbols is the bit of the bytes at the same position, zero past their end; all symbols are in the alphabet |
| Base32.DecodedBits | packages/security/src/totp.ts:65-88 | every bit of the decoded bytes is the bit of the symbols at the same position |
| Base32.RoundTrip | packages/security/src/totp.ts:45-88 | decoding an encoding gives the bytes back, for every byte sequence of any length |
| Base32.RoundTripOfCalls | packages/security/src/totp.ts:65-88 | the same for the whole decoder, cleaning included, and for the encoding typed in any case |
| Base32.CanonicalForm | packages/security/src/totp.ts:65-88 | over alphabet strings, encoding a decoding gives the string back if and only if its length modulo 8 is 0, 2, 4, 5 or 7 and its leftover bits are zero |
| Base32.CanonicalLength | packages/security/src/totp.ts:65-88 | a length survives decoding and encoding if and only if it is 0, 2, 4, 5 or 7 modulo 8 |
| Base32.ForeignCharacterIgnored | packages/security/src/totp.ts:65-88 | a character outside the alphabet in both cases, anywhere in an ASCII text, changes nothing |
| Base32.CaseIgnored | packages/security/src/totp.ts:65-88 | texts that differ in case only clean to the same symbols |
| Base32.PaddingIsForeign | packages/security/src/totp.ts:65-88 | stripping trailing padding first makes no difference |
| Totp.PrintedCode | packages/security/src/totp.ts:98-119 | the printed code has exactly the wanted number of decimal digits and parses back to the value printed |
| Totp.SameCodeIffSameResidue | packages/security/src/totp.ts:98-119 | two counters have the same code if and only if the numbers of the 31 bits selected from their digests agree modulo the power of ten (RFC 4226 section 5.3) |
| Totp.CodeIsDigits | packages/security/src/totp.ts:98-119 | every code generated is decimal digits of the configured length |
| Totp.VerifyTotp | packages/security/src/totp.ts:140-164 | the loop over the window returns or throws exactly as the scan over its counters does, checks on window, digits and code shape included |
| Totp.ScanExact | packages/security/src/totp.ts:140-164 | a scan whose counters are all usable succeeds if and only if some counter in it generates the code |
| Totp.AcceptedIffInWindow | packages/security/src/totp.ts:140-164 | a code is accepted if and only if, trimmed, it is the code of some counter within the window, provided no counter of the window makes generation throw |
| Totp.NegativeCounterThrows | packages/security/src/totp.ts:140-164 | if the window reaches below counter zero, a well-formed code makes the check throw |
| Totp.CounterDistance | packages/security/src/totp.ts:122-134 | clocks at most w steps apart have counters at most w apart, and clocks at least w steps apart have counters at least w apart |
| Totp.DriftTolerated | packages/security/src/totp.ts:122-164 | a code made at t is accepted whenever the clocks differ by at most window * step seconds (RFC 6238 section 5.2) |
| Totp.DriftRejected | packages/security/src/totp.ts:122-164 | absent a collision inside the window, it is rejected whenever the clocks differ by at least (window + 1) * step seconds |
| Totp.AcceptedThroughoutWindow | packages/security/src/totp.ts:140-164 | a code is accepted at every time from the start of the first step whose window holds its counter to the end of the last, however often presented, and absent a collision at no other: nothing remembers that it was used (RFC 6238 section 5.2 asks for that) |
| Totp.TruncationSelects | packages/security/src/totp.ts:113-115 | truncation gives the number of 31 bits of the digest: those after the first bit of the byte that the last four bits name |
| Totp.TruncatedBit | packages/security/src/totp.ts:113-115 | with o the low four bits of the last byte, bit k of the truncated number is bit 8o+1+k of the digest, for every digest of at least 20 bytes |
| Totp.CounterSpelled | packages/security/src/totp.ts:105-106 | the message is eight bytes that spell the counter, most significant first, and no other eight bytes do |
| Totp.GeneratesIff | packages/security/src/totp.ts:98-119 | each of the three errors and success, exactly: digits, counter range, empty key |
| Totp.CodeOfCounter | packages/security/src/totp.ts:98-119 | a generated code parses to the number of the selected bits of the digest of the eight-byte counter, modulo the power of ten, and has exactly the digits asked for |
| Totp.CodeIffSpelled | packages/security/src/totp.ts:98-119 | a text is the code of a counter if and only if it spells that number in so many digits |
| Totp.PublishedCode | packages/security/src/totp.ts:98-119 | from the first digest of RFC 4226 appendix D the code is 755224 |
| Totp.RefusedUnread | packages/security/src/totp.ts:140-150 | a window outside 0..10 is the error, and text that is not the right number of digits is refused without an error |
| Totp.TrimStrips | packages/security/src/totp.ts:147 | trimming takes away the white space at the two ends, all of it and nothing else |
| RateLimit.SweepInvisible | packages/security/src/rate-limit.ts:27-49 | over every chronological call sequence the sweeping store returns exactly what a store that never deletes returns, and lacks only expired buckets |
| RateLimit.SizeBounded | packages/security/src/rate-limit.ts:27-49 | after every call the store holds at most 10 001 buckets or only unexpired ones |
| RateLimit.WindowCount | packages/security/src/rate-limit.ts:27-49 | the successes of a key in the window of its bucket are the smaller of count and limit |
| RateLimit.WindowExact | packages/security/src/rate-limit.ts:27-49 | within a window, remaining plus successes is the limit, and a call succeeds if and only if fewer than limit calls have |
| RateLimit.IntervalBound | packages/security/src/rate-limit.ts:27-49 | in any half-open interval of length T a key gets at most limit * (ceil(T / window) + 1) successes |
| RateLimit.OneWindowSpan | packages/security/src/rate-limit.ts:27-49 | in any span one window long it gets at most twice the limit |
| RateLimit.WindowOpenedByCall | packages/security/src/rate-limit.ts:36-39 | every window starts with a call of its key, and ends the window length after it |
| Cache.LazyDeletionInvisible | apps/api/src/config/cache.ts:18-49 | over every chronological operation sequence the lazily deleting cache reads exactly as a map that filters by deadline |
| Cache.ReadUntilDeadline | apps/api/src/config/cache.ts:18-49 | a value set and not touched since is read back up to and including its deadline and never after; for ever if the time to live is zero |
| Pagination.PagesPartition | packages/shared/src/pagination.ts:19-54 | for every query and total, the slices of the pages cover every index, are disjoint, and are nonempty exactly up to totalPages |
| Pagination.ShownOnce | packages/shared/src/pagination.ts:19-54 | an index is shown on exactly one page, the one its quotient names |
| Pagination.PageInRange | packages/shared/src/pagination.ts:40-54 | every index has a page within totalPages, and every page within totalPages shows something |
| Pagination.WalkShowsEverything | packages/shared/src/pagination.ts:40-54 | following hasNextPage from page 1 ends, having shown every index |
| Pagination.QueryResolves | packages/shared/src/pagination.ts:19-35 | a page or size that is not a positive whole number counts as absent (page 1, 20 items), at most 100 items are on a page, and as many are skipped as are on the pages before |
| Pagination.MetaSays | packages/shared/src/pagination.ts:40-54 | the number of pages is the least that holds all items; a next page is announced if and only if items remain, a previous one if and only if the page is not the first |
| Consistency.StepFits | apps/api/src/services/auth.service.ts:89-528 | every request of anyone keeps tables, tokens and cache fitting together: addresses and accounts, sessions and tokens, factors, codes, devices and challenges to existing accounts |
| Consistency.RunFits | apps/api/src/services/auth.service.ts:89-528 | so they fit at every point of every run |
| WorldInvariant.StageGood | packages/database/src/repositories/session.repository.ts:21-58 | any repository or cache call of any request in flight keeps the fit, owner, expiry and ended status of every session, and brings back no code and no challenge |
| WorldInvariant.RotatesAsRead | apps/api/src/services/auth.service.ts:455-475 | a rotation that writes the expiry it read long ago writes the expiry that is there |
| WorldInvariant.SequentialStateFits | packages/database/src/repositories/session.repository.ts:21-58 | every state that requests one at a time lead to is one that overlapping calls can start from |
| Undisturbed.UndisturbedCalls | apps/api/src/services/auth.service.ts:208-528 | the calls of a request, made one after the other among any other flights, do to the state and answer what the request does on its own |
| Undisturbed.UndisturbedSignIn | apps/api/src/services/auth.service.ts:208-310 | the calls of a sign-in are the sign-in of the whole-request model |
| Undisturbed.UndisturbedRefresh | apps/api/src/services/auth.service.ts:433-488 | the calls of a refresh are the refresh |
| Undisturbed.UndisturbedOrder | apps/api/src/services/admin.service.ts:71-149 | admission, role check, target, write and revocation are an administrator's request |
| Undisturbed.UndisturbedAdmission | apps/api/src/middlewares/authenticate.ts:41-61 | the calls of an admission are the middleware |
| Undisturbed.UndisturbedTotp | apps/api/src/services/auth.service.ts:317-385 | the calls of a one-time-code answer are that request, through to its session |
| Undisturbed.UndisturbedRecovery | apps/api/src/services/auth.service.ts:331-385 | the same for a recovery code |
| Undisturbed.UndisturbedKey | apps/api/src/services/auth.service.ts:347-385 | the same for a security key |
| Undisturbed.UndisturbedCeremony | apps/api/src/services/mfa.service.ts:239-266 | the same for starting a ceremony |
| Undisturbed.UndisturbedRegeneration | apps/api/src/services/mfa.service.ts:486-501 | deletion and insertion are the regeneration |
| Undisturbed.UndisturbedConfirm | apps/api/src/services/auth.service.ts:171-193 | the calls of a confirmation are the confirmation |
| RateLimit.InMemoryRateLimitStore.Consume | packages/security/src/rate-limit.ts:24-50 | one call sweeps expired buckets if there are more than 10 000 and then counts, exactly |
| Cache.MemoryCache.Get | apps/api/src/config/cache.ts:21-29 | a read returns the value unless it is absent or past its deadline, and in that case deletes it |
| Cache.MemoryCache.Set | apps/api/src/config/cache.ts:31-36 | a write stores the value with its deadline, none if the time to live is zero |
| Cache.MemoryCache.Del | apps/api/src/config/cache.ts:38-40 | a deletion removes the key |
| Cache.MemoryCache.Close | apps/api/src/config/cache.ts:46-48 | closing empties the store |
| AuthServices.AuthService.IssueVerificationToken | apps/api/src/services/auth.service.ts:140-165 | older tokens of the account are revoked and one with the configured lifetime is stored |
| AuthServices.AuthService.Register | apps/api/src/services/auth.service.ts:89-138 | the calls of a sign-up, which `AccountAnswers.SignUpNew` and `AccountAnswers.SignUpAgain` give in columns |
| AuthServices.AuthService.ResendVerification | apps/api/src/services/auth.service.ts:195-202 | a token if the account is unverified |
| AuthServices.AuthService.VerifyEmail | apps/api/src/services/auth.service.ts:171-193 | accepted if the account is verified already or the token is unused and not expired |
| AuthServices.AuthService.Login | apps/api/src/services/auth.service.ts:208-310 | the calls of a sign-in, in the order of the original and on the row read at the start; `SignInAnswers` gives its answer and its row in columns |
| AuthServices.AuthService.FinishMfaLogin | apps/api/src/services/auth.service.ts:364-385 | tokens for the account of the challenge, on the short session lifetime |
| AuthServices.AuthService.CompleteMfaTotp | apps/api/src/services/auth.service.ts:317-329 | code, challenge, device and login together |
| AuthServices.AuthService.CompleteMfaRecovery | apps/api/src/services/auth.service.ts:331-338 | recovery code, challenge and login together |
| AuthServices.AuthService.CompleteWebAuthnMfa | apps/api/src/services/auth.service.ts:347-362 | assertion, challenge, device and login together |
| AuthServices.AuthService.IssueTokens | apps/api/src/services/auth.service.ts:391-431 | one new active session and the pair of tokens that name it; `SessionAnswers.AccessTokenLetsIn` says what they are good for |
| AuthServices.AuthService.Refresh | apps/api/src/services/auth.service.ts:433-488 | every branch of refresh: unknown token, inactive session, reuse, expiry, disabled account, rotation |
| AuthServices.AuthService.Logout | apps/api/src/services/auth.service.ts:499-528 | the session the refresh token names, or else the access token, is revoked |
| AuthServices.AuthService.Authenticate | apps/api/src/middlewares/authenticate.ts:41-61 | token, account, status and session in the order of the middleware, read from the rows |
| AuthServices.JwtService.CreateAccessToken | packages/security/src/jwt.ts:39-52 | an issued access token names user, session and expiry |
| AuthServices.JwtService.CreateRefreshToken | packages/security/src/jwt.ts:54-64 | an issued refresh token names user, session and expiry |
| AuthServices.JwtService.VerifyAccessToken | packages/security/src/jwt.ts:70-81 | exactly the issued, unexpired access tokens verify |
| AuthServices.JwtService.VerifyRefreshToken | packages/security/src/jwt.ts:83-94 | exactly the issued, unexpired refresh tokens verify |
| MfaServices.TtlStore.Set | apps/api/src/services/mfa.service.ts:91-93 | the state is cached under the prefixed key with the time to live of the store |
| MfaServices.TtlStore.Get | apps/api/src/services/mfa.service.ts:95-97 | the state under the prefixed key, if it has not lapsed |
| MfaServices.TtlStore.Delete | apps/api/src/services/mfa.service.ts:99-101 | the prefixed key goes |
| MfaServices.MfaService.IssueLoginChallenge | apps/api/src/services/mfa.service.ts:131-157 | a pending challenge bound to the user, with the methods its flags offer |
| MfaServices.MfaService.GetChallengeUser | apps/api/src/services/mfa.service.ts:160-166 | the user of a live challenge |
| MfaServices.MfaService.VerifyTotpLogin | apps/api/src/services/mfa.service.ts:172-211 | every branch; success removes the challenge and may trust the device |
| MfaServices.MfaService.VerifyRecoveryLogin | apps/api/src/services/mfa.service.ts:217-233 | success claims the code and removes the challenge |
| MfaServices.MfaService.BeginWebAuthnLogin | apps/api/src/services/mfa.service.ts:239-266 | an authentication ceremony for the user of the challenge |
| MfaServices.MfaService.VerifyWebAuthnLogin | apps/api/src/services/mfa.service.ts:268-326 | every branch; success writes the counter and removes ceremony and challenge |
| MfaServices.MfaService.IsDeviceTrusted | apps/api/src/services/mfa.service.ts:600-609 | a nonempty cookie whose hash is stored for that user |
| MfaServices.MfaService.TrustDevice | apps/api/src/services/mfa.service.ts:585-598 | the hash of the new token is stored for the user |
| MfaServices.MfaService.BeginTotpEnrollment | apps/api/src/services/mfa.service.ts:332-349 | a pending secret replaces any old one |
| MfaServices.MfaService.CompleteTotpEnrollment | apps/api/src/services/mfa.service.ts:351-373 | a correct code enables the record, sets the flags and ensures recovery codes |
| MfaServices.MfaService.BeginWebAuthnRegistration | apps/api/src/services/mfa.service.ts:379-411 | a registration ceremony for the user |
| MfaServices.MfaService.CompleteWebAuthnRegistration | apps/api/src/services/mfa.service.ts:413-459 | every branch; success stores the credential, sets the flags and ensures recovery codes |
| MfaServices.MfaService.EnsureRecoveryCodes | apps/api/src/services/mfa.service.ts:466-471 | a new batch if and only if no unused code is left |
| MfaServices.MfaService.RegenerateRecoveryCodesWithPassword | apps/api/src/services/mfa.service.ts:474-484 | a new batch if the password is right |
| MfaServices.MfaService.RegenerateRecoveryCodes | apps/api/src/services/mfa.service.ts:486-501 | the loop makes ten codes; old ones are deleted, the new hashes stored |
| MfaServices.MfaService.RemoveWebAuthnCredential | apps/api/src/services/mfa.service.ts:535-549 | the credential goes, and with the last one the flags that rested on it |
| MfaServices.MfaService.DeleteCredentials | apps/api/src/services/mfa.service.ts:562-565 | the loop deletes exactly the credentials of the user |
| MfaServices.MfaService.Disable | apps/api/src/services/mfa.service.ts:552-579 | password, then secret, codes, credentials, devices and flags; `SettingsAnswers.DisabledIff` says when it is accepted |
| AdminServices.AdminService.SetUserRole | apps/api/src/services/admin.service.ts:71-94 | nobody changes their own role; otherwise the role is written |
| AdminServices.AdminService.SetUserStatus | apps/api/src/services/admin.service.ts:96-149 | not to DISABLED on oneself, only allowed transitions; locking or disabling revokes the sessions |
| Repositories.UserRepository.FindByEmail | packages/database/src/repositories/user.repository.ts:10-12 | the account under an address and its row |
| Repositories.UserRepository.FindById | packages/database/src/repositories/user.repository.ts:14-16 | the row of an id |
| Repositories.UserRepository.Create | packages/database/src/repositories/user.repository.ts:32-34 | a new row under a new address |
| Repositories.UserRepository.SetFlags | packages/database/src/repositories/user.repository.ts:36-38 | the second-factor flags the update names, and no others |
| Repositories.UserRepository.MarkEmailVerified | packages/database/src/repositories/user.repository.ts:47-56 | the account is verified and ACTIVE whatever its status was |
| Repositories.UserRepository.MarkLoginSuccess | packages/database/src/repositories/user.repository.ts:58-68 | counter and lock are cleared |
| Repositories.UserRepository.RecordFailedLogin | packages/database/src/repositories/user.repository.ts:70-79 | the counter, and with a lock the LOCKED status, are written as given |
| Repositories.UserRepository.Unlock | packages/database/src/repositories/user.repository.ts:89-98 | status, lock and counter are reset |
| Repositories.UserRepository.SetRole | packages/database/src/repositories/user.repository.ts:104-106 | the role is written |
| Repositories.UserRepository.SetStatus | packages/database/src/repositories/user.repository.ts:36-38 | status and lock are written |
| Repositories.SessionRepository.Create | packages/database/src/repositories/session.repository.ts:21-23 | a new session row |
| Repositories.SessionRepository.FindActiveById | packages/database/src/repositories/session.repository.ts:25-30 | the session with its user if the session is active |
| Repositories.SessionRepository.IsSessionActive | apps/api/src/middlewares/bound-auth.ts:25-31 | active, of that user and not past its expiry |
| Repositories.SessionRepository.RotateToken | packages/database/src/repositories/session.repository.ts:32-37 | hash and expiry are overwritten whatever they were and whatever the status is |
| Repositories.SessionRepository.MarkExpired | packages/database/src/repositories/session.repository.ts:39-44 | the status becomes EXPIRED |
| Repositories.SessionRepository.Revoke | packages/database/src/repositories/session.repository.ts:46-51 | the status becomes REVOKED |
| Repositories.SessionRepository.RevokeAllForUser | packages/database/src/repositories/session.repository.ts:53-58 | exactly the active sessions of the user, but for the one to spare if there is one, become REVOKED |
| Repositories.EmailVerificationRepository.Create | packages/database/src/repositories/email-verification.repository.ts:10-14 | a new unused row |
| Repositories.EmailVerificationRepository.FindActiveByHash | packages/database/src/repositories/email-verification.repository.ts:16-21 | the row with its user, used or not |
| Repositories.EmailVerificationRepository.MarkUsed | packages/database/src/repositories/email-verification.repository.ts:23-28 | the row is used |
| Repositories.EmailVerificationRepository.RevokePending | packages/database/src/repositories/email-verification.repository.ts:31-36 | exactly the unused rows of the user become used |
| Repositories.MfaRepository.GetTotpSecret | packages/database/src/repositories/mfa.repository.ts:15-17 | the record of the user |
| Repositories.MfaRepository.UpsertPendingTotpSecret | packages/database/src/repositories/mfa.repository.ts:20-26 | a new secret, neither verified nor enabled, replaces any old one |
| Repositories.MfaRepository.EnableTotp | packages/database/src/repositories/mfa.repository.ts:35-40 | the record becomes verified and enabled |
| Repositories.MfaRepository.DeleteTotpSecret | packages/database/src/repositories/mfa.repository.ts:42-44 | the record goes |
| Repositories.MfaRepository.CreateRecoveryCodes | packages/database/src/repositories/mfa.repository.ts:50-54 | all hashes are inserted unused, or none if one is taken or repeated |
| Repositories.MfaRepository.ConsumeRecoveryCode | packages/database/src/repositories/mfa.repository.ts:57-63 | an unused code of that user becomes used and the answer says whether there was one |
| Repositories.MfaRepository.DeleteRecoveryCodes | packages/database/src/repositories/mfa.repository.ts:69-71 | exactly the codes of the user go |
| Repositories.MfaRepository.GetCredentialForUser | packages/database/src/repositories/mfa.repository.ts:84-88 | the credential if it is of that user |
| Repositories.MfaRepository.CreateCredential | packages/database/src/repositories/mfa.repository.ts:90-111 | a credential whose id is not taken |
| Repositories.MfaRepository.UpdateCredentialCounter | packages/database/src/repositories/mfa.repository.ts:113-118 | the counter is written |
| Repositories.MfaRepository.DeleteCredential | packages/database/src/repositories/mfa.repository.ts:131-133 | the credential goes if it is of that user |
| Repositories.MfaRepository.TrustDevice | packages/database/src/repositories/mfa.repository.ts:152-172 | the device is trusted |
| Repositories.MfaRepository.RevokeAllTrustedDevices | packages/database/src/repositories/mfa.repository.ts:185-187 | exactly the devices of the user go |

## Left out

- Web application, mail, logging, headers, CORS, cookies, audit logs and security events, analytics, device descriptions, password scoring: I/O, telemetry or configuration.
- Prisma, Postgres and Upstash themselves: a repository call is one atomic change of rows; the last-login, last-active and last-used columns are not among them.
- The bytes of bcrypt, JWT signatures, AES-GCM, HMAC, SHA-256 and WebAuthn: see the assumptions. The rounding of a token's expiry to whole seconds when it is signed is only in the comparison at verification.
- Comparing a challenge's cookie with the body, request validation and rate-limit headers: the requests of `Machine` are those that reach the services, so more than can happen.
- Password reset (a table with no flow in the code), removal of a single trusted device and change of password (no caller in the code).
- Base32.Base32Decode: the text is ASCII; Unicode upper-casing of other characters is not modelled.
- Protocol.Normalize: lower-cases ASCII only; JavaScript maps a few other characters, the Kelvin sign for one, to ASCII letters.
- Totp.VerifyTotp: the step is a positive whole number of seconds and the time a whole number of milliseconds.
- RateLimit.InMemoryRateLimitStore.Consume: the bounds are for limit at least 1 and a positive window, as configured; a fresh bucket always admits its first call.
- Lockout.BruteForceBound: counts the comparisons of sign-ins; disabling second factors and regenerating codes compare the password of a signed-in user without counting.
- Undisturbed.UndisturbedAdmission: the middleware asks for account and session together; the model reads the account first. What is proved of admissions rests on the session read alone.
- WorldInvariant.StageGood: registration, enrollment, removal of keys and disabling are not taken apart into calls; of disabling the deletion of recovery codes is a call of its own, and regeneration begins where its password is checked.
- Provenance.SessionsTrace: for whole requests; under overlap a sign-in goes by the second-factor flag it read, and what that costs is not stated.
- MfaMaterial.MaterialAgrees: for whole requests, since enrollment, removal and disabling are not taken apart.
- The unused helpers generateNumericCode, UserRepository.isLocked, UserRepository.setStatus and MfaRepository.verifyTotpSecret.
