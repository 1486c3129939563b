/**
 The requests as functions: what one whole request does to the rows, the cache and
 the issued tokens, and what it answers. The service classes are proved equal to these
 functions, and everything said about runs is said about them.

 Random values (identifiers, tokens, codes) are parameters. Signed tokens are opaque
 strings; one verifies if it was issued and has not expired.
 */
module Protocol {
  import opened Wrappers
  import opened Rows
  import opened Cache

  // ---------------------------------------------------------------------------
  // Configuration and state
  // ---------------------------------------------------------------------------

  /**
   Settings, and the libraries of which nothing is assumed: password hashing, the at-rest
   cipher, the one-time-code check and the two WebAuthn verifications.
   */
  datatype Config = Config(
    loginMaxAttempts: int,
    loginLockoutMinutes: int,
    refreshTtl: int,
    sessionTimeoutMinutes: int,
    accessTtl: int,
    challengeTtl: int,
    verificationTtl: int,
    hashPassword: string -> string,
    passwordOk: (string, string) -> bool,
    encrypt: string -> string,
    decrypt: string -> Option<string>,
    totpOk: (string, string, Time) -> bool,
    assertionOk: (string, string, Credential) -> Option<int>,
    registrationOk: (string, string) -> Option<(string, string, int)>)

  datatype Method = MethodTotp | MethodWebAuthn | MethodRecovery

  /** What the cache holds: pending second-factor logins and WebAuthn ceremonies. */
  datatype Pending =
    | LoginChallenge(userId: Id, rememberMe: bool, availableMethods: seq<Method>)
    | Ceremony(authenticate: bool, userId: Id, expectedChallenge: string)

  function ChallengeKey(id: string): string {
    "mfa:login-challenge:" + id
  }

  function CeremonyKey(id: string): string {
    "mfa:ceremony:" + id
  }

  datatype RefreshClaims = RefreshClaims(sub: Id, jti: Id, exp: Time)

  datatype AccessClaims = AccessClaims(sub: Id, sessionId: Id, exp: Time)

  /** The part of the state the second-factor service works on. */
  datatype Core = Core(db: Tables, cache: Store<Pending>)

  /** `drawn` holds every random value any request has drawn. */
  datatype Sys = Sys(
    core: Core,
    refreshTokens: map<string, RefreshClaims>,
    accessTokens: map<string, AccessClaims>,
    drawn: set<string>)

  /** The random values one request may use: one identifier, tokens, and ten recovery codes of 16 hex digits. */
  datatype Entropy = Entropy(uuid: string, access: string, refresh: string, token: string, hex: seq<string>)

  const RECOVERY_CODES_COUNT := 10

  datatype Error =
    | InvalidCredentials(knownUser: bool)
    | AccountDisabled
    | AccountLocked(retryAfterSeconds: int)
    | EmailNotVerified
    | VerificationInvalid
    | AccountMissing
    | ChallengeInvalid
    | CodeInvalid
    | KeyInvalid
    | DecryptFailed
    | SetupNotStarted
    | RegistrationInvalid
    | NotYours
    | IncorrectPassword
    | NotFound
    | Conflict
    | TokenInvalid
    | SessionInactive
    | TokenReused
    | SessionExpired
    | AdminRequired
    | OwnRole
    | OwnAccount
    | BadTransition

  datatype Tokens = Tokens(access: string, refresh: string, expiresIn: int)

  datatype Challenge = Challenge(id: string, method_: Method, availableMethods: seq<Method>, expiresAt: Time)

  // ---------------------------------------------------------------------------
  // Signed tokens
  // ---------------------------------------------------------------------------

  /** Expiry is checked in whole seconds. */
  predicate Fresh(exp: Time, now: Time) {
    exp / 1000 > now / 1000
  }

  function VerifyRefreshToken(s: Sys, token: string, now: Time): Option<RefreshClaims> {
    if token in s.refreshTokens && Fresh(s.refreshTokens[token].exp, now) then Some(s.refreshTokens[token]) else None
  }

  function VerifyAccessToken(s: Sys, token: string, now: Time): Option<AccessClaims> {
    if token in s.accessTokens && Fresh(s.accessTokens[token].exp, now) then Some(s.accessTokens[token]) else None
  }

  /** `Math.ceil(ms / 1000)`, and at least one. */
  function SecondsUp(ms: int): int {
    var seconds := -((-ms) / 1000);
    if seconds < 1 then 1 else seconds
  }

  // ---------------------------------------------------------------------------
  // Second factor: the login gate
  // ---------------------------------------------------------------------------

  function AvailableMethods(user: User): seq<Method> {
    (if user.totpEnabled then [MethodTotp] else [])
    + (if user.webauthnEnabled then [MethodWebAuthn] else [])
    + [MethodRecovery]
  }

  function IssueLoginChallenge(cfg: Config, c: Core, now: Time, userId: Id, rememberMe: bool, uuid: string)
    : (Core, Result<Challenge, Error>)
  {
    if userId !in c.db.users then (c, Err(AccountMissing))
    else
      var methods := AvailableMethods(c.db.users[userId]);
      (c.(cache := SetItem(c.cache, ChallengeKey(uuid), LoginChallenge(userId, rememberMe, methods), cfg.challengeTtl, now)),
       Ok(Challenge(uuid, methods[0], methods, now + cfg.challengeTtl * 1000)))
  }

  /** The user bound to a pending challenge. */
  function ChallengeUser(c: Core, now: Time, challengeId: string): (Core, Option<Id>) {
    var (cache, state) := GetItem(c.cache, ChallengeKey(challengeId), now);
    (c.(cache := cache), if state.Some? then Some(state.value.userId) else None)
  }

  function TrustDevice(c: Core, userId: Id, remember: bool, token: string): (Core, Option<string>) {
    if remember then (c.(db := c.db.(devices := c.db.devices + {(userId, Sha256(token))})), Some(token)) else (c, None)
  }

  datatype Verified = Verified(userId: Id, deviceToken: Option<string>)

  function VerifyTotpLogin(cfg: Config, c: Core, now: Time, challengeId: string, code: string, remember: bool, token: string)
    : (Core, Result<Verified, Error>)
  {
    var (c1, user) := ChallengeUser(c, now, challengeId);
    if user.None? then (c1, Err(ChallengeInvalid))
    else if user.value !in c1.db.totp then (c1, Err(CodeInvalid))
    else
      var secret := cfg.decrypt(c1.db.totp[user.value].secret);
      if secret.None? then (c1, Err(DecryptFailed))
      else if !cfg.totpOk(secret.value, code, now) then (c1, Err(CodeInvalid))
      else
        var c2 := c1.(cache := c1.cache - {ChallengeKey(challengeId)});
        var (c3, device) := TrustDevice(c2, user.value, remember, token);
        (c3, Ok(Verified(user.value, device)))
  }

  function LowerChar(c: char): char {
    if 'A' <= c <= 'Z' then (c as int + 32) as char else c
  }

  predicate AlphaNumeric(c: char) {
    'a' <= c <= 'z' || '0' <= c <= '9'
  }

  /** `code.toLowerCase().replace(/[^a-z0-9]/g, '')`. */
  function Normalize(code: string): string {
    if code == "" then ""
    else (if AlphaNumeric(LowerChar(code[0])) then [LowerChar(code[0])] else "") + Normalize(code[1..])
  }

  function VerifyRecoveryLogin(c: Core, now: Time, challengeId: string, code: string): (Core, Result<Id, Error>) {
    var (c1, user) := ChallengeUser(c, now, challengeId);
    if user.None? then (c1, Err(ChallengeInvalid))
    else
      var (recovery, consumed) := ConsumeRecoveryCode(c1.db.recovery, user.value, Sha256(Normalize(code)), now);
      if !consumed then (c1, Err(CodeInvalid))
      else
        (c1.(db := c1.db.(recovery := recovery), cache := c1.cache - {ChallengeKey(challengeId)}), Ok(user.value))
  }

  function BeginWebAuthnLogin(cfg: Config, c: Core, now: Time, challengeId: string, random: string)
    : (Core, Result<set<string>, Error>)
  {
    var (c1, user) := ChallengeUser(c, now, challengeId);
    if user.None? then (c1, Err(ChallengeInvalid))
    else
      (c1.(cache := SetItem(c1.cache, CeremonyKey(challengeId), Ceremony(true, user.value, random), cfg.challengeTtl, now)),
       Ok(CredentialsOf(c1.db.credentials, user.value)))
  }

  function VerifyWebAuthnLogin(cfg: Config, c: Core, now: Time, challengeId: string, credentialId: string,
                               assertion: string, remember: bool, token: string): (Core, Result<Verified, Error>)
  {
    var (c1, user) := ChallengeUser(c, now, challengeId);
    if user.None? then (c1, Err(ChallengeInvalid))
    else
      var (cache, ceremony) := GetItem(c1.cache, CeremonyKey(challengeId), now);
      var c2 := c1.(cache := cache);
      if !(ceremony.Some? && ceremony.value.Ceremony? && ceremony.value.authenticate) then (c2, Err(ChallengeInvalid))
      else if credentialId !in CredentialsOf(c2.db.credentials, user.value) then (c2, Err(KeyInvalid))
      else
        var counter := cfg.assertionOk(assertion, ceremony.value.expectedChallenge, c2.db.credentials[credentialId]);
        if counter.None? then (c2, Err(KeyInvalid))
        else
          var c3 := c2.(db := c2.db.(credentials := UpdateCounter(c2.db.credentials, credentialId, counter.value)),
                        cache := c2.cache - {CeremonyKey(challengeId)} - {ChallengeKey(challengeId)});
          var (c4, device) := TrustDevice(c3, user.value, remember, token);
          (c4, Ok(Verified(user.value, device)))
  }

  predicate DeviceTrusted(c: Core, userId: Id, cookie: Option<string>) {
    cookie.Some? && cookie.value != "" && (userId, Sha256(cookie.value)) in c.db.devices
  }

  // ---------------------------------------------------------------------------
  // Second factor: enrollment and removal
  // ---------------------------------------------------------------------------

  function BeginTotpEnrollment(cfg: Config, c: Core, userId: Id, secret: string): (Core, Result<string, Error>) {
    if userId !in c.db.users then (c, Err(NotFound))
    else (c.(db := c.db.(totp := UpsertPendingTotp(c.db.totp, userId, cfg.encrypt(secret)))), Ok(secret))
  }

  predicate HexDraw(hex: seq<string>) {
    |hex| == RECOVERY_CODES_COUNT && forall i | 0 <= i < |hex| :: |hex[i]| == 16
  }

  /** `abcd-ef12-3456` from the first twelve of sixteen hex digits. */
  function FormatRecoveryCode(hex: string): string
    requires |hex| == 16
  {
    hex[0..4] + "-" + hex[4..8] + "-" + hex[8..12]
  }

  function RecoveryCodes(hex: seq<string>): seq<string>
    requires HexDraw(hex)
  {
    seq(RECOVERY_CODES_COUNT, i requires 0 <= i < |hex| => FormatRecoveryCode(hex[i]))
  }

  function RecoveryHashes(hex: seq<string>): seq<Hash>
    requires HexDraw(hex)
  {
    seq(RECOVERY_CODES_COUNT, i requires 0 <= i < |hex| => Sha256(Normalize(FormatRecoveryCode(hex[i]))))
  }

  function RegenerateRecoveryCodes(c: Core, userId: Id, hex: seq<string>): (Core, Result<seq<string>, Error>)
    requires HexDraw(hex)
  {
    var remaining := DeleteRecoveryCodes(c.db.recovery, userId);
    var hashes := RecoveryHashes(hex);
    (c.(db := c.db.(recovery := CreateRecoveryCodes(remaining, userId, hashes))),
     if Insertable(remaining, hashes) then Ok(RecoveryCodes(hex)) else Err(Conflict))
  }

  /** A fresh batch only when the user has no unused code left. */
  function EnsureRecoveryCodes(c: Core, userId: Id, hex: seq<string>): (Core, Result<seq<string>, Error>)
    requires HexDraw(hex)
  {
    if |UnusedCodes(c.db.recovery, userId)| > 0 then (c, Ok([])) else RegenerateRecoveryCodes(c, userId, hex)
  }

  function CompleteTotpEnrollment(cfg: Config, c: Core, now: Time, userId: Id, code: string, hex: seq<string>)
    : (Core, Result<seq<string>, Error>)
    requires HexDraw(hex)
  {
    if userId !in c.db.totp then (c, Err(SetupNotStarted))
    else
      var secret := cfg.decrypt(c.db.totp[userId].secret);
      if secret.None? then (c, Err(DecryptFailed))
      else if !cfg.totpOk(secret.value, code, now) then (c, Err(CodeInvalid))
      else
        var c1 := c.(db := c.db.(totp := EnableTotp(c.db.totp, userId),
                                 users := SetFlags(c.db.users, userId, Some(true), None, Some(true))));
        EnsureRecoveryCodes(c1, userId, hex)
  }

  function BeginWebAuthnRegistration(cfg: Config, c: Core, now: Time, userId: Id, uuid: string, random: string)
    : (Core, Result<string, Error>)
  {
    if userId !in c.db.users then (c, Err(NotFound))
    else
      (c.(cache := SetItem(c.cache, CeremonyKey(uuid), Ceremony(false, userId, random), cfg.challengeTtl, now)), Ok(uuid))
  }

  function CompleteWebAuthnRegistration(cfg: Config, c: Core, now: Time, challengeId: string, userId: Id,
                                        registration: string, hex: seq<string>): (Core, Result<seq<string>, Error>)
    requires HexDraw(hex)
  {
    var (cache, ceremony) := GetItem(c.cache, CeremonyKey(challengeId), now);
    var c1 := c.(cache := cache);
    if !(ceremony.Some? && ceremony.value.Ceremony? && !ceremony.value.authenticate) then (c1, Err(RegistrationInvalid))
    else if ceremony.value.userId != userId then (c1, Err(NotYours))
    else
      var credential := cfg.registrationOk(registration, ceremony.value.expectedChallenge);
      if credential.None? then (c1, Err(KeyInvalid))
      else
        var (id, publicKey, counter) := credential.value;
        if id in c1.db.credentials then (c1, Err(Conflict))
        else EnsureRecoveryCodes(RegisterKey(c1, challengeId, id, Credential(userId, publicKey, counter)), userId, hex)
  }

  /** A new credential, the flags it sets, and the end of the ceremony that made it. */
  function RegisterKey(c: Core, challengeId: string, id: string, credential: Credential): Core {
    c.(db := c.db.(credentials := c.db.credentials[id := credential],
                   users := SetFlags(c.db.users, credential.userId, None, Some(true), Some(true))),
       cache := c.cache - {CeremonyKey(challengeId)})
  }

  predicate PasswordMatches(cfg: Config, user: User, password: string) {
    cfg.passwordOk(password, if user.passwordHash.Some? then user.passwordHash.value else "")
  }

  function RegenerateWithPassword(cfg: Config, c: Core, userId: Id, password: string, hex: seq<string>)
    : (Core, Result<seq<string>, Error>)
    requires HexDraw(hex)
  {
    if userId !in c.db.users then (c, Err(NotFound))
    else if !PasswordMatches(cfg, c.db.users[userId], password) then (c, Err(IncorrectPassword))
    else RegenerateRecoveryCodes(c, userId, hex)
  }

  function RemoveWebAuthnCredential(c: Core, userId: Id, credentialId: string): (Core, Result<(), Error>) {
    if credentialId !in CredentialsOf(c.db.credentials, userId) then (c, Err(NotFound))
    else
      var credentials := DeleteCredential(c.db.credentials, userId, credentialId);
      var none := CredentialsOf(credentials, userId) == {};
      var totpEnabled := userId in c.db.totp && c.db.totp[userId].enabled;
      var users :=
        if none && !totpEnabled then SetFlags(c.db.users, userId, None, Some(false), Some(false))
        else if none then SetFlags(c.db.users, userId, None, Some(false), None)
        else c.db.users;
      (c.(db := c.db.(credentials := credentials, users := users)), Ok(()))
  }

  function Disable(cfg: Config, c: Core, userId: Id, password: string): (Core, Result<(), Error>) {
    if userId !in c.db.users then (c, Err(NotFound))
    else if !PasswordMatches(cfg, c.db.users[userId], password) then (c, Err(IncorrectPassword))
    else
      (c.(db := c.db.(
            totp := c.db.totp - {userId},
            recovery := DeleteRecoveryCodes(c.db.recovery, userId),
            credentials := c.db.credentials - CredentialsOf(c.db.credentials, userId),
            devices := RevokeAllTrustedDevices(c.db.devices, userId),
            users := SetFlags(c.db.users, userId, Some(false), Some(false), Some(false)))),
       Ok(()))
  }

  // ---------------------------------------------------------------------------
  // Registration and email verification
  // ---------------------------------------------------------------------------

  function IssueVerificationToken(cfg: Config, c: Core, now: Time, userId: Id, token: string): Core {
    var pending := RevokePending(c.db.verifications, userId, now);
    c.(db := c.db.(verifications :=
      pending[Sha256(token) := EmailVerification(userId, now + cfg.verificationTtl * 1000, None)]))
  }

  /** The account and its row, by address. */
  function FindByEmail(db: Tables, email: string): Option<Id> {
    if email in db.emails && db.emails[email] in db.users then Some(db.emails[email]) else None
  }

  function NewUser(cfg: Config, email: string, password: string): User {
    User(email, Some(cfg.hashPassword(password)), USER, PENDING_VERIFICATION, false, false, false, false, 0, None)
  }

  function Register(cfg: Config, c: Core, now: Time, email: string, password: string, uuid: string, token: string): Core {
    match FindByEmail(c.db, email)
    case Some(id) =>
      if !c.db.users[id].emailVerified then IssueVerificationToken(cfg, c, now, id, token) else c
    case None =>
      var c1 := c.(db := c.db.(users := c.db.users[uuid := NewUser(cfg, email, password)], emails := c.db.emails[email := uuid]));
      IssueVerificationToken(cfg, c1, now, uuid, token)
  }

  function ResendVerification(cfg: Config, c: Core, now: Time, email: string, token: string): Core {
    match FindByEmail(c.db, email)
    case Some(id) =>
      if !c.db.users[id].emailVerified then IssueVerificationToken(cfg, c, now, id, token) else c
    case None => c
  }

  function VerifyEmail(c: Core, now: Time, token: string): (Core, Result<Id, Error>) {
    var hash := Sha256(token);
    if hash !in c.db.verifications || c.db.verifications[hash].userId !in c.db.users then (c, Err(VerificationInvalid))
    else
      var record := c.db.verifications[hash];
      var used := c.(db := c.db.(verifications := MarkUsed(c.db.verifications, hash, now)));
      if c.db.users[record.userId].emailVerified then (used, Ok(record.userId))
      else if record.usedAt.Some? || record.expiresAt < now then (c, Err(VerificationInvalid))
      else (used.(db := used.db.(users := MarkEmailVerified(used.db.users, record.userId))), Ok(record.userId))
  }

  // ---------------------------------------------------------------------------
  // Login
  // ---------------------------------------------------------------------------

  function SessionTtl(cfg: Config, rememberMe: bool): int {
    if rememberMe then cfg.refreshTtl else cfg.sessionTimeoutMinutes * 60
  }

  function IssueTokens(cfg: Config, s: Sys, now: Time, userId: Id, rememberMe: bool, e: Entropy): (Sys, Tokens) {
    var ttl := SessionTtl(cfg, rememberMe);
    (s.(accessTokens := s.accessTokens[e.access := AccessClaims(userId, e.uuid, now + cfg.accessTtl * 1000)],
        refreshTokens := s.refreshTokens[e.refresh := RefreshClaims(userId, e.uuid, now + ttl * 1000)],
        core := s.core.(db := s.core.db.(sessions :=
          s.core.db.sessions[e.uuid := Session(userId, Sha256(e.refresh), Active, now + ttl * 1000)]))),
     Tokens(e.access, e.refresh, ttl))
  }

  datatype LoginOutcome =
    | Rejected(error: Error)
    | LoggedIn(userId: Id, tokens: Tokens, deviceToken: Option<string>)
    | Challenged(userId: Id, challenge: Challenge)

  predicate LockedOut(user: User, now: Time) {
    user.status.LOCKED? && user.lockedUntil.Some? && user.lockedUntil.value > now
  }

  /** The branches before the password: `None` means the password is compared. */
  function Refusal(user: User, now: Time): Option<Error> {
    if user.status.DISABLED? then Some(AccountDisabled)
    else if LockedOut(user, now) then Some(AccountLocked(SecondsUp(user.lockedUntil.value - now)))
    else if !user.emailVerified || user.status.PENDING_VERIFICATION? then Some(EmailNotVerified)
    else None
  }

  /** A lapsed lock is lifted in the row; the request goes on with the row it read before that. */
  function AfterUnlock(users: map<Id, User>, id: Id, now: Time): map<Id, User> {
    if id in users && users[id].status.LOCKED? && !LockedOut(users[id], now) then Unlock(users, id) else users
  }

  function FailedLogin(cfg: Config, users: map<Id, User>, id: Id, read: User, now: Time): map<Id, User> {
    var attempts := read.failedLoginAttempts + 1;
    var lockedUntil :=
      if attempts >= cfg.loginMaxAttempts then Some(now + cfg.loginLockoutMinutes * 60000) else None;
    RecordFailedLogin(users, id, attempts, lockedUntil)
  }

  /** Past the password: tokens, or a challenge if the row that was read asks for a second factor. */
  function PasswordAccepted(cfg: Config, s: Sys, now: Time, id: Id, read: User, rememberMe: bool,
                            device: Option<string>, e: Entropy): (Sys, LoginOutcome)
  {
    var s1 := s.(core := s.core.(db := s.core.db.(users := MarkLoginSuccess(s.core.db.users, id))));
    if read.mfaEnabled && !DeviceTrusted(s1.core, id, device) then
      var (core, challenge) := IssueLoginChallenge(cfg, s1.core, now, id, rememberMe, e.uuid);
      (s1.(core := core),
       match challenge
       case Ok(issued) => Challenged(id, issued)
       case Err(error) => Rejected(error))
    else
      var (s2, tokens) := IssueTokens(cfg, s1, now, id, rememberMe, e);
      (s2, LoggedIn(id, tokens, None))
  }

  /** Signing in to a known account. */
  function LoginKnown(cfg: Config, s: Sys, now: Time, id: Id, password: string, rememberMe: bool,
                      device: Option<string>, e: Entropy): (Sys, LoginOutcome)
    requires id in s.core.db.users
  {
    var user := s.core.db.users[id];
    var s1 := s.(core := s.core.(db := s.core.db.(users := AfterUnlock(s.core.db.users, id, now))));
    match Refusal(user, now)
    case Some(error) => (s1, Rejected(error))
    case None =>
      if !PasswordMatches(cfg, user, password) then
        (s1.(core := s1.core.(db := s1.core.db.(users := FailedLogin(cfg, s1.core.db.users, id, user, now)))),
         Rejected(InvalidCredentials(true)))
      else
        PasswordAccepted(cfg, s1, now, id, user, rememberMe, device, e)
  }

  function Login(cfg: Config, s: Sys, now: Time, email: string, password: string, rememberMe: bool,
                 device: Option<string>, e: Entropy): (Sys, LoginOutcome)
  {
    match FindByEmail(s.core.db, email)
    case None => (s, Rejected(InvalidCredentials(false)))
    case Some(id) => LoginKnown(cfg, s, now, id, password, rememberMe, device, e)
  }

  function FinishMfaLogin(cfg: Config, s: Sys, now: Time, userId: Id, deviceToken: Option<string>, e: Entropy)
    : (Sys, LoginOutcome)
  {
    if userId !in s.core.db.users then (s, Rejected(AccountMissing))
    else
      var (s1, tokens) := IssueTokens(cfg, s, now, userId, false, e);
      (s1, LoggedIn(userId, tokens, deviceToken))
  }

  function CompleteMfaTotp(cfg: Config, s: Sys, now: Time, challengeId: string, code: string, remember: bool, e: Entropy)
    : (Sys, LoginOutcome)
  {
    var (core, r) := VerifyTotpLogin(cfg, s.core, now, challengeId, code, remember, e.token);
    match r
    case Err(error) => (s.(core := core), Rejected(error))
    case Ok(v) => FinishMfaLogin(cfg, s.(core := core), now, v.userId, v.deviceToken, e)
  }

  function CompleteMfaRecovery(cfg: Config, s: Sys, now: Time, challengeId: string, code: string, e: Entropy)
    : (Sys, LoginOutcome)
  {
    var (core, r) := VerifyRecoveryLogin(s.core, now, challengeId, code);
    match r
    case Err(error) => (s.(core := core), Rejected(error))
    case Ok(userId) => FinishMfaLogin(cfg, s.(core := core), now, userId, None, e)
  }

  function CompleteWebAuthnMfa(cfg: Config, s: Sys, now: Time, challengeId: string, credentialId: string,
                               assertion: string, remember: bool, e: Entropy): (Sys, LoginOutcome)
  {
    var (core, r) := VerifyWebAuthnLogin(cfg, s.core, now, challengeId, credentialId, assertion, remember, e.token);
    match r
    case Err(error) => (s.(core := core), Rejected(error))
    case Ok(v) => FinishMfaLogin(cfg, s.(core := core), now, v.userId, v.deviceToken, e)
  }

  // ---------------------------------------------------------------------------
  // Refresh and logout
  // ---------------------------------------------------------------------------

  function WithSessions(s: Sys, sessions: map<Id, Session>): Sys {
    s.(core := s.core.(db := s.core.db.(sessions := sessions)))
  }

  /** An accepted refresh: a new pair of tokens, and their hash in the session row. */
  function Rotated(cfg: Config, s: Sys, now: Time, jti: Id, e: Entropy): Sys
    requires jti in s.core.db.sessions
  {
    var session := s.core.db.sessions[jti];
    var s1 := WithSessions(s, RotateToken(s.core.db.sessions, jti, Sha256(e.refresh), session.expiresAt));
    s1.(refreshTokens := s1.refreshTokens[e.refresh :=
          RefreshClaims(session.userId, jti, now + SecondsUp(session.expiresAt - now) * 1000)],
        accessTokens := s1.accessTokens[e.access := AccessClaims(session.userId, jti, now + cfg.accessTtl * 1000)])
  }

  function Refresh(cfg: Config, s: Sys, now: Time, token: string, e: Entropy): (Sys, Result<Tokens, Error>) {
    match VerifyRefreshToken(s, token, now)
    case None => (s, Err(TokenInvalid))
    case Some(claims) =>
      match FindActive(s.core.db, claims.jti)
      case None => (s, Err(SessionInactive))
      case Some((session, user)) =>
        if session.refreshTokenHash != Sha256(token) then
          (WithSessions(s, EndSession(s.core.db.sessions, claims.jti, Revoked)), Err(TokenReused))
        else if session.expiresAt < now then
          (WithSessions(s, EndSession(s.core.db.sessions, claims.jti, Expired)), Err(SessionExpired))
        else if user.status.DISABLED? then (s, Err(AccountDisabled))
        else
          (Rotated(cfg, s, now, claims.jti, e), Ok(Tokens(e.access, e.refresh, SecondsUp(session.expiresAt - now))))
  }

  /** The session a logout names: by its refresh token, or failing that by its access token. */
  function LogoutTarget(s: Sys, now: Time, refresh: Option<string>, access: Option<string>): Option<Id> {
    if refresh.Some? && VerifyRefreshToken(s, refresh.value, now).Some?
    then Some(VerifyRefreshToken(s, refresh.value, now).value.jti)
    else if access.Some? && VerifyAccessToken(s, access.value, now).Some?
    then Some(VerifyAccessToken(s, access.value, now).value.sessionId)
    else None
  }

  function Logout(s: Sys, now: Time, refresh: Option<string>, access: Option<string>): (Sys, bool) {
    match LogoutTarget(s, now, refresh, access)
    case None => (s, false)
    case Some(id) => (WithSessions(s, EndSession(s.core.db.sessions, id, Revoked)), true)
  }

  // ---------------------------------------------------------------------------
  // Authenticated requests
  // ---------------------------------------------------------------------------

  /** The middleware: the account behind an access token, re-read from the rows. */
  function Authenticate(s: Sys, now: Time, token: string): Result<Id, Error> {
    match VerifyAccessToken(s, token, now)
    case None => Err(TokenInvalid)
    case Some(claims) =>
      if claims.sub !in s.core.db.users then Err(AccountMissing)
      else if s.core.db.users[claims.sub].status.DISABLED? then Err(AccountDisabled)
      else if !SessionActive(s.core.db.sessions, claims.sessionId, claims.sub, now) then Err(SessionInactive)
      else Ok(claims.sub)
  }

  function RequireAdmin(s: Sys, actor: Id): Result<Id, Error> {
    if actor in s.core.db.users && s.core.db.users[actor].role.ADMIN? then Ok(actor) else Err(AdminRequired)
  }

  function AllowedTransitions(status: Status): set<Status> {
    match status
    case ACTIVE => {LOCKED, DISABLED, PENDING_VERIFICATION}
    case LOCKED => {ACTIVE, DISABLED}
    case DISABLED => {ACTIVE}
    case PENDING_VERIFICATION => {ACTIVE, DISABLED}
  }

  /** 2999-12-31T23:59:59Z. */
  const FAR_FUTURE: Time := 32503679999000

  function SetUserRole(db: Tables, actor: Id, target: Id, role: Role): (Tables, Result<Role, Error>) {
    if target !in db.users then (db, Err(NotFound))
    else if target == actor && role != db.users[target].role then (db, Err(OwnRole))
    else (db.(users := SetRole(db.users, target, role)), Ok(role))
  }

  function SetUserStatus(db: Tables, actor: Id, target: Id, status: Status): (Tables, Result<Status, Error>) {
    if target !in db.users then (db, Err(NotFound))
    else if target == actor && status.DISABLED? then (db, Err(OwnAccount))
    else if status != db.users[target].status && status !in AllowedTransitions(db.users[target].status) then
      (db, Err(BadTransition))
    else
      (db.(users := SetStatus(db.users, target, status, if status.LOCKED? then Some(FAR_FUTURE) else None),
           sessions := if status.DISABLED? || status.LOCKED? then RevokeAllForUser(db.sessions, target) else db.sessions),
       Ok(status))
  }
}
