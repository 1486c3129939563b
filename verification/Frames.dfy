/** How each request changes each table: what it leaves alone and what it does to the rest. */
module Frames {
  import opened Wrappers
  import opened Rows
  import opened Cache
  import opened Protocol
  import opened Machine
  import opened Consistency

  // ---------------------------------------------------------------------------
  // Sign-in, second factor and refresh, table by table
  // ---------------------------------------------------------------------------

  /** The user rows after a sign-in attempt. */
  function LoginRows(cfg: Config, db: Tables, now: Time, email: string, password: string): map<Id, User> {
    match FindByEmail(db, email)
    case None => db.users
    case Some(id) =>
      var unlocked := AfterUnlock(db.users, id, now);
      if Refusal(db.users[id], now).Some? then unlocked
      else if !PasswordMatches(cfg, db.users[id], password) then FailedLogin(cfg, unlocked, id, db.users[id], now)
      else MarkLoginSuccess(unlocked, id)
  }

  lemma PasswordAcceptedFrame(cfg: Config, s: Sys, now: Time, id: Id, read: User, rememberMe: bool,
                              device: Option<string>, e: Entropy)
    ensures var s1 := PasswordAccepted(cfg, s, now, id, read, rememberMe, device, e).0;
            s1.core.db == s.core.db.(users := MarkLoginSuccess(s.core.db.users, id), sessions := s1.core.db.sessions)
  {
    hide MarkLoginSuccess;
  }

  lemma LoginFrame(cfg: Config, s: Sys, now: Time, email: string, password: string, rememberMe: bool,
                   device: Option<string>, e: Entropy)
    ensures var s1 := Protocol.Login(cfg, s, now, email, password, rememberMe, device, e).0;
            s1.core.db == s.core.db.(users := LoginRows(cfg, s.core.db, now, email, password), sessions := s1.core.db.sessions)
  {
    hide MarkLoginSuccess, AfterUnlock, FailedLogin, PasswordAccepted, PasswordMatches, Refusal;
    match FindByEmail(s.core.db, email)
    case None =>
    case Some(id) =>
      var s1 := s.(core := s.core.(db := s.core.db.(users := AfterUnlock(s.core.db.users, id, now))));
      PasswordAcceptedFrame(cfg, s1, now, id, s.core.db.users[id], rememberMe, device, e);
  }

  lemma FinishFrame(cfg: Config, s: Sys, now: Time, userId: Id, d: Option<string>, e: Entropy)
    ensures var s1 := FinishMfaLogin(cfg, s, now, userId, d, e).0;
            s1.core == s.core.(db := s.core.db.(sessions := s1.core.db.sessions))
  {
  }

  lemma ChallengeReadFrame(c: Core, now: Time, id: string)
    ensures ChallengeUser(c, now, id).0.db == c.db
  {
    hide GetItem, ChallengeKey;
  }

  lemma TotpLoginFrame(cfg: Config, c: Core, now: Time, id: string, code: string, remember: bool, token: string)
    ensures var db := VerifyTotpLogin(cfg, c, now, id, code, remember, token).0.db; db == c.db.(devices := db.devices)
  {
    hide ChallengeUser, ChallengeKey;
    ChallengeReadFrame(c, now, id);
  }

  lemma RecoveryLoginFrame(c: Core, now: Time, id: string, code: string)
    ensures var db := VerifyRecoveryLogin(c, now, id, code).0.db; db == c.db.(recovery := db.recovery)
  {
    hide ChallengeUser, ChallengeKey, ConsumeRecoveryCode, Normalize;
    ChallengeReadFrame(c, now, id);
  }

  lemma CounterKeepsKeys(credentials: map<string, Credential>, key: string, counter: int)
    ensures forall u :: CredentialsOf(UpdateCounter(credentials, key, counter), u) == CredentialsOf(credentials, u)
  {
  }

  /** The same keys with the same owners; the counter of one may differ. */
  ghost predicate SameKeys(a: map<string, Credential>, b: map<string, Credential>) {
    forall u :: CredentialsOf(a, u) == CredentialsOf(b, u)
  }

  lemma KeyLoginFrame(cfg: Config, c: Core, now: Time, id: string, key: string, assertion: string, remember: bool, token: string)
    ensures var db := VerifyWebAuthnLogin(cfg, c, now, id, key, assertion, remember, token).0.db;
            db == c.db.(credentials := db.credentials, devices := db.devices) && SameKeys(db.credentials, c.db.credentials)
  {
    forall counter ensures SameKeys(UpdateCounter(c.db.credentials, key, counter), c.db.credentials) {
      CounterKeepsKeys(c.db.credentials, key, counter);
    }
    assert SameKeys(c.db.credentials, c.db.credentials);
    hide ChallengeUser, ChallengeKey, CeremonyKey, GetItem, UpdateCounter, SameKeys, CredentialsOf;
    ChallengeReadFrame(c, now, id);
  }

  lemma AnswerCoreFrame(cfg: Config, c: Core, now: Time, id: string, code: string, key: string, remember: bool, token: string)
    ensures var db := VerifyTotpLogin(cfg, c, now, id, code, remember, token).0.db; db == c.db.(devices := db.devices)
    ensures var db := VerifyRecoveryLogin(c, now, id, code).0.db; db == c.db.(recovery := db.recovery)
    ensures var db := VerifyWebAuthnLogin(cfg, c, now, id, key, code, remember, token).0.db;
            && db == c.db.(credentials := db.credentials, devices := db.devices)
            && forall u :: CredentialsOf(db.credentials, u) == CredentialsOf(c.db.credentials, u)
  {
    hide VerifyTotpLogin, VerifyRecoveryLogin, VerifyWebAuthnLogin, CredentialsOf;
    TotpLoginFrame(cfg, c, now, id, code, remember, token);
    RecoveryLoginFrame(c, now, id, code);
    KeyLoginFrame(cfg, c, now, id, key, code, remember, token);
  }

  lemma AnswerFrame(cfg: Config, s: Sys, now: Time, id: string, code: string, key: string, remember: bool, e: Entropy)
    ensures var db := CompleteMfaTotp(cfg, s, now, id, code, remember, e).0.core.db;
            db == s.core.db.(devices := db.devices, sessions := db.sessions)
    ensures var db := CompleteMfaRecovery(cfg, s, now, id, code, e).0.core.db;
            db == s.core.db.(recovery := db.recovery, sessions := db.sessions)
    ensures var db := CompleteWebAuthnMfa(cfg, s, now, id, key, code, remember, e).0.core.db;
            && db == s.core.db.(credentials := db.credentials, devices := db.devices, sessions := db.sessions)
            && forall u :: CredentialsOf(db.credentials, u) == CredentialsOf(s.core.db.credentials, u)
  {
    hide FinishMfaLogin, VerifyTotpLogin, VerifyRecoveryLogin, VerifyWebAuthnLogin;
    AnswerCoreFrame(cfg, s.core, now, id, code, key, remember, e.token);
    forall c1, u, d ensures var s1 := FinishMfaLogin(cfg, s.(core := c1), now, u, d, e).0;
                            s1.core.db == c1.db.(sessions := s1.core.db.sessions) {
      FinishFrame(cfg, s.(core := c1), now, u, d, e);
    }
  }

  lemma RotatedFrame(cfg: Config, s: Sys, now: Time, jti: Id, e: Entropy)
    requires jti in s.core.db.sessions
    ensures var s1 := Rotated(cfg, s, now, jti, e); s1.core == s.core.(db := s.core.db.(sessions := s1.core.db.sessions))
  {
    hide SecondsUp, RotateToken;
  }

  lemma FoundSession(db: Tables, id: Id)
    ensures FindActive(db, id).Some? ==> id in db.sessions
  {
  }

  lemma RefreshFrame(cfg: Config, s: Sys, now: Time, token: string, e: Entropy)
    ensures var s1 := Refresh(cfg, s, now, token, e).0; s1.core == s.core.(db := s.core.db.(sessions := s1.core.db.sessions))
  {
    hide SecondsUp, EndSession, Rotated, FindActive, VerifyRefreshToken;
    var claims := VerifyRefreshToken(s, token, now);
    if claims.Some? && FindActive(s.core.db, claims.value.jti).Some? {
      FoundSession(s.core.db, claims.value.jti);
      RotatedFrame(cfg, s, now, claims.value.jti, e);
    }
  }

  lemma LogoutFrame(s: Sys, now: Time, refresh: Option<string>, access: Option<string>)
    ensures var s1 := Logout(s, now, refresh, access).0;
            s1 == s.(core := s.core.(db := s.core.db.(sessions := s1.core.db.sessions)))
  {
    hide EndSession, LogoutTarget;
  }

  // ---------------------------------------------------------------------------
  // User rows
  // ---------------------------------------------------------------------------

  predicate SameLogin(a: User, b: User) {
    a.status == b.status && a.failedLoginAttempts == b.failedLoginAttempts && a.lockedUntil == b.lockedUntil
    && a.emailVerified == b.emailVerified
  }

  predicate SameFlags(a: User, b: User) {
    a.mfaEnabled == b.mfaEnabled && a.totpEnabled == b.totpEnabled && a.webauthnEnabled == b.webauthnEnabled
  }

  predicate SameIdentity(a: User, b: User) {
    a.email == b.email && a.passwordHash == b.passwordHash && a.role == b.role
  }

  /** The user table after a request, taken from the part of the protocol that writes it. */
  function UsersAfter(cfg: Config, s: Sys, now: Time, req: Request, e: Entropy): map<Id, User>
    requires HexDraw(e.hex)
  {
    var users := s.core.db.users;
    match req
    case SignUp(email, password) => Register(cfg, s.core, now, email, password, e.uuid, e.token).db.users
    case ConfirmEmail(token) => VerifyEmail(s.core, now, token).0.db.users
    case SignIn(email, password, _, _) => LoginRows(cfg, s.core.db, now, email, password)
    case Settings(access, action) =>
      var user := Authenticate(s, now, access);
      if user.Ok? then Act(cfg, s.core, now, user.value, action, e).0.db.users else users
    case Administer(access, command) =>
      var actor := Authenticate(s, now, access);
      if actor.Ok? && RequireAdmin(s, actor.value).Ok? then Order(s.core.db, actor.value, command).0.users else users
    case _ => users
  }

  lemma HandleUsers(cfg: Config, s: Sys, now: Time, req: Request, e: Entropy)
    requires HexDraw(e.hex)
    ensures Handle(cfg, s, now, req, e).0.core.db.users == UsersAfter(cfg, s, now, req, e)
  {
    hide HexDraw, Register, IssueVerificationToken, VerifyEmail, LoginRows, Authenticate, RequireAdmin, Act, Order, Protocol.Login,
      CompleteMfaTotp, CompleteMfaRecovery, CompleteWebAuthnMfa, Refresh, Logout;
    match req
    case Resend(email) => ResendFrame(cfg, s.core, now, email, e.token);
    case SignIn(email, password, rememberMe, device) => LoginFrame(cfg, s, now, email, password, rememberMe, device, e);
    case AnswerTotp(id, code, remember) => AnswerFrame(cfg, s, now, id, code, "", remember, e);
    case AnswerRecovery(id, code) => AnswerFrame(cfg, s, now, id, code, "", false, e);
    case StartAssertion(id) => AssertionFrame(cfg, s.core, now, id, e.token);
    case AnswerWebAuthn(id, key, assertion, remember) => AnswerFrame(cfg, s, now, id, assertion, key, remember, e);
    case RefreshSession(token) => RefreshFrame(cfg, s, now, token, e);
    case SignOut(refresh, access) => LogoutFrame(s, now, refresh, access);
    case _ =>
  }

  lemma ResendFrame(cfg: Config, c: Core, now: Time, email: string, token: string)
    ensures var c1 := ResendVerification(cfg, c, now, email, token);
            c1 == c.(db := c.db.(verifications := c1.db.verifications))
  {
  }

  lemma AssertionFrame(cfg: Config, c: Core, now: Time, id: string, random: string)
    ensures BeginWebAuthnLogin(cfg, c, now, id, random).0.db == c.db
  {
  }

  /** Only the flags of `user` may differ. */
  predicate OnlyFlags(a: map<Id, User>, b: map<Id, User>, user: Id) {
    && a.Keys == b.Keys
    && (forall u | u in a && u != user :: b[u] == a[u])
    && (user in a ==> SameLogin(a[user], b[user]) && SameIdentity(a[user], b[user]))
  }

  lemma SetFlagsOnly(users: map<Id, User>, user: Id, totp: Option<bool>, webauthn: Option<bool>, mfa: Option<bool>)
    ensures OnlyFlags(users, SetFlags(users, user, totp, webauthn, mfa), user)
  {
  }

  lemma FinishTotpUsers(cfg: Config, c: Core, now: Time, user: Id, code: string, hex: seq<string>)
    requires HexDraw(hex)
    ensures OnlyFlags(c.db.users, CompleteTotpEnrollment(cfg, c, now, user, code, hex).0.db.users, user)
  {
    hide EnsureRecoveryCodes, SetFlags, HexDraw, EnableTotp;
    SetFlagsOnly(c.db.users, user, Some(true), None, Some(true));
    RegenerateFrame(c.(db := c.db.(totp := EnableTotp(c.db.totp, user),
                                   users := SetFlags(c.db.users, user, Some(true), None, Some(true)))), user, hex);
  }

  lemma AddedKey(credentials: map<string, Credential>, key: string, credential: Credential)
    requires key !in credentials
    ensures forall u :: CredentialsOf(credentials[key := credential], u)
                     == CredentialsOf(credentials, u) + if u == credential.userId then {key} else {}
  {
  }

  /** The tables once `user` has one more key. */
  ghost predicate KeyAdded(a: Tables, b: Tables, user: Id) {
    && b == a.(credentials := b.credentials, users := b.users, recovery := b.recovery)
    && b.users == SetFlags(a.users, user, None, Some(true), Some(true))
    && CredentialsOf(b.credentials, user) != {}
    && forall u | u != user :: CredentialsOf(b.credentials, u) == CredentialsOf(a.credentials, u)
  }

  lemma RegisteredKeyAdded(c: Core, challengeId: string, id: string, credential: Credential, recovery: map<Hash, RecoveryCode>)
    requires id !in c.db.credentials
    ensures KeyAdded(c.db, RegisterKey(c, challengeId, id, credential).db.(recovery := recovery), credential.userId)
  {
    hide SetFlags, CredentialsOf, CeremonyKey;
    AddedKey(c.db.credentials, id, credential);
    assert id in CredentialsOf(c.db.credentials, credential.userId) + {id};
  }

  lemma FinishWebAuthnFrame(cfg: Config, c: Core, now: Time, id: string, user: Id, registration: string, hex: seq<string>)
    requires HexDraw(hex)
    ensures var db := CompleteWebAuthnRegistration(cfg, c, now, id, user, registration, hex).0.db;
            db == c.db || KeyAdded(c.db, db, user)
  {
    hide EnsureRecoveryCodes, HexDraw, GetItem, CeremonyKey, RegisterKey, KeyAdded;
    var (cache, ceremony) := GetItem(c.cache, CeremonyKey(id), now);
    var c1 := c.(cache := cache);
    if ceremony.Some? && ceremony.value.Ceremony? {
      var credential := cfg.registrationOk(registration, ceremony.value.expectedChallenge);
      if credential.Some? && credential.value.0 !in c1.db.credentials {
        var (key, publicKey, counter) := credential.value;
        var c2 := RegisterKey(c1, id, key, Credential(user, publicKey, counter));
        var c3 := EnsureRecoveryCodes(c2, user, hex).0;
        RegenerateFrame(c2, user, hex);
        RegisteredKeyAdded(c1, id, key, Credential(user, publicKey, counter), c3.db.recovery);
      }
    }
  }

  lemma FinishWebAuthnUsers(cfg: Config, c: Core, now: Time, id: string, user: Id, registration: string, hex: seq<string>)
    requires HexDraw(hex)
    ensures OnlyFlags(c.db.users, CompleteWebAuthnRegistration(cfg, c, now, id, user, registration, hex).0.db.users, user)
  {
    hide HexDraw, CompleteWebAuthnRegistration, SetFlags, OnlyFlags;
    FinishWebAuthnFrame(cfg, c, now, id, user, registration, hex);
    SetFlagsOnly(c.db.users, user, None, Some(true), Some(true));
    NoFlags(c.db.users, user);
  }

  lemma RemoveKeyUsers(c: Core, user: Id, id: string)
    ensures OnlyFlags(c.db.users, RemoveWebAuthnCredential(c, user, id).0.db.users, user)
  {
    hide SetFlags, CredentialsOf, DeleteCredential, OnlyFlags;
    SetFlagsOnly(c.db.users, user, None, Some(false), Some(false));
    SetFlagsOnly(c.db.users, user, None, Some(false), None);
    SetFlagsOnly(c.db.users, user, None, None, None);
    NoFlags(c.db.users, user);
  }

  lemma NoFlags(users: map<Id, User>, user: Id)
    ensures OnlyFlags(users, users, user)
  {
  }

  lemma DisableUsers(cfg: Config, c: Core, user: Id, password: string)
    ensures OnlyFlags(c.db.users, Disable(cfg, c, user, password).0.db.users, user)
  {
    hide SetFlags, CredentialsOf, PasswordMatches, OnlyFlags;
    NoFlags(c.db.users, user);
    SetFlagsOnly(c.db.users, user, Some(false), Some(false), Some(false));
  }

  /** Settings change the flags of their own user and nothing else in the user table. */
  lemma ActUsers(cfg: Config, c: Core, now: Time, user: Id, action: Action, e: Entropy)
    requires HexDraw(e.hex)
    ensures OnlyFlags(c.db.users, Act(cfg, c, now, user, action, e).0.db.users, user)
  {
    hide HexDraw, CompleteTotpEnrollment, CompleteWebAuthnRegistration, RemoveWebAuthnCredential, Disable, RegenerateRecoveryCodes;
    match action
    case FinishTotp(code) => FinishTotpUsers(cfg, c, now, user, code, e.hex);
    case FinishWebAuthn(id, registration) => FinishWebAuthnUsers(cfg, c, now, id, user, registration, e.hex);
    case RegenerateCodes(password) => RegenerateFrame(c, user, e.hex);
    case RemoveKey(id) => RemoveKeyUsers(c, user, id);
    case DisableMfa(password) => DisableUsers(cfg, c, user, password);
    case _ =>
  }

  lemma RegenerateFrame(c: Core, user: Id, hex: seq<string>)
    requires HexDraw(hex)
    ensures var c1 := RegenerateRecoveryCodes(c, user, hex).0; c1 == c.(db := c.db.(recovery := c1.db.recovery))
    ensures var c1 := EnsureRecoveryCodes(c, user, hex).0; c1 == c.(db := c.db.(recovery := c1.db.recovery))
  {
  }

  lemma IssueVerificationFrame(cfg: Config, c: Core, now: Time, userId: Id, token: string)
    ensures var c1 := IssueVerificationToken(cfg, c, now, userId, token);
            c1 == c.(db := c.db.(verifications := c1.db.verifications))
  {
  }

  lemma RegisterUsers(cfg: Config, c: Core, now: Time, email: string, password: string, uuid: string, token: string)
    ensures var c1 := Register(cfg, c, now, email, password, uuid, token);
            var db := c1.db;
            && c1 == c.(db := c.db.(users := db.users, emails := db.emails, verifications := db.verifications))
            && (db.users == c.db.users || db.users == c.db.users[uuid := NewUser(cfg, email, password)])
  {
    hide IssueVerificationToken, NewUser;
    forall c1, u ensures IssueVerificationToken(cfg, c1, now, u, token)
                      == c1.(db := c1.db.(verifications := IssueVerificationToken(cfg, c1, now, u, token).db.verifications)) {
      IssueVerificationFrame(cfg, c1, now, u, token);
    }
  }

  lemma VerifyEmailFrame(c: Core, now: Time, token: string)
    ensures var c1 := VerifyEmail(c, now, token).0;
            c1 == c.(db := c.db.(users := c1.db.users, verifications := c1.db.verifications))
  {
  }

  lemma VerifyEmailUsers(c: Core, now: Time, token: string)
    ensures var users := VerifyEmail(c, now, token).0.db.users;
            && users.Keys == c.db.users.Keys
            && forall u | u in users ::
                 || users[u] == c.db.users[u]
                 || (!c.db.users[u].emailVerified && users[u] == c.db.users[u].(emailVerified := true, status := ACTIVE))
  {
  }

  /** One row may differ, in its sign-in columns; it is not disabled by that. */
  predicate OnlyLogin(a: map<Id, User>, b: map<Id, User>, user: Id) {
    && a.Keys == b.Keys
    && (forall u | u in a && u != user :: b[u] == a[u])
    && (user in a ==> SameFlags(a[user], b[user]) && SameIdentity(a[user], b[user])
                      && a[user].emailVerified == b[user].emailVerified
                      && (b[user].status.DISABLED? ==> a[user].status.DISABLED?))
  }

  lemma UnlockWrites(users: map<Id, User>, id: Id, now: Time)
    ensures OnlyLogin(users, AfterUnlock(users, id, now), id)
  {
  }

  lemma AttemptWrites(cfg: Config, users: map<Id, User>, id: Id, read: User, now: Time)
    ensures OnlyLogin(users, FailedLogin(cfg, users, id, read, now), id)
    ensures OnlyLogin(users, MarkLoginSuccess(users, id), id)
  {
  }

  lemma OnlyLoginTwice(a: map<Id, User>, b: map<Id, User>, c: map<Id, User>, id: Id)
    requires OnlyLogin(a, b, id) && OnlyLogin(b, c, id)
    ensures OnlyLogin(a, c, id)
  {
  }

  lemma RowWrites(cfg: Config, users: map<Id, User>, id: Id, read: User, now: Time)
    ensures OnlyLogin(users, AfterUnlock(users, id, now), id)
    ensures OnlyLogin(users, FailedLogin(cfg, AfterUnlock(users, id, now), id, read, now), id)
    ensures OnlyLogin(users, MarkLoginSuccess(AfterUnlock(users, id, now), id), id)
  {
    hide OnlyLogin, AfterUnlock, FailedLogin, MarkLoginSuccess;
    var unlocked := AfterUnlock(users, id, now);
    UnlockWrites(users, id, now);
    AttemptWrites(cfg, unlocked, id, read, now);
    OnlyLoginTwice(users, unlocked, FailedLogin(cfg, unlocked, id, read, now), id);
    OnlyLoginTwice(users, unlocked, MarkLoginSuccess(unlocked, id), id);
  }

  /** Signing in touches the sign-in columns of the addressed account only. */
  lemma LoginRowsChange(cfg: Config, db: Tables, now: Time, email: string, password: string)
    ensures match FindByEmail(db, email)
            case None => LoginRows(cfg, db, now, email, password) == db.users
            case Some(id) => OnlyLogin(db.users, LoginRows(cfg, db, now, email, password), id)
  {
    hide AfterUnlock, FailedLogin, MarkLoginSuccess, OnlyLogin, PasswordMatches, Refusal;
    if FindByEmail(db, email).Some? {
      var id := FindByEmail(db, email).value;
      RowWrites(cfg, db.users, id, db.users[id], now);
    }
  }

  predicate FlagsKeptIn(a: map<Id, User>, b: map<Id, User>) {
    a.Keys == b.Keys && forall u | u in a :: SameFlags(a[u], b[u])
  }

  lemma RoleAndStatusKeepFlags(users: map<Id, User>, target: Id, role: Role, status: Status, lockedUntil: Option<Time>)
    ensures FlagsKeptIn(users, SetRole(users, target, role))
    ensures FlagsKeptIn(users, SetStatus(users, target, status, lockedUntil))
  {
  }

  lemma NoFlagsChanged(users: map<Id, User>)
    ensures FlagsKeptIn(users, users)
  {
  }

  /** An administrator's order changes roles, statuses, locks and sessions, and nothing else. */
  lemma OrderFrame(db: Tables, actor: Id, command: Command)
    ensures var db1 := Order(db, actor, command).0; db1 == db.(users := db1.users, sessions := db1.sessions)
  {
    hide RevokeAllForUser, AllowedTransitions, SetRole, SetStatus;
  }

  lemma OrderKeepsFlags(db: Tables, actor: Id, command: Command)
    ensures FlagsKeptIn(db.users, Order(db, actor, command).0.users)
  {
    hide RevokeAllForUser, AllowedTransitions, SetRole, SetStatus, FlagsKeptIn;
    NoFlagsChanged(db.users);
    match command
    case ChangeRole(target, role) => RoleAndStatusKeepFlags(db.users, target, role, ACTIVE, None);
    case ChangeStatus(target, status) =>
      RoleAndStatusKeepFlags(db.users, target, USER, status, if status.LOCKED? then Some(FAR_FUTURE) else None);
  }

  // ---------------------------------------------------------------------------
  // One user row
  // ---------------------------------------------------------------------------

  /** The sign-in columns of `u` are untouched, or `u` was verified by email just now. */
  predicate RowUntouched(a: map<Id, User>, b: map<Id, User>, u: Id) {
    && u in a && u in b
    && (|| SameLogin(a[u], b[u])
        || (!a[u].emailVerified && SameLogin(a[u].(emailVerified := true, status := ACTIVE), b[u])))
  }

  predicate LeavesRow(a: map<Id, User>, b: map<Id, User>, u: Id) {
    RowUntouched(a, b, u) && SameIdentity(a[u], b[u])
  }

  lemma OthersUntouched(a: map<Id, User>, b: map<Id, User>, changed: Id, u: Id)
    requires u in a
    ensures LeavesRow(a, a, u)
    ensures OnlyFlags(a, b, changed) ==> LeavesRow(a, b, u)
    ensures OnlyLogin(a, b, changed) && changed != u ==> LeavesRow(a, b, u)
  {
  }

  lemma RegisteringUntouched(cfg: Config, c: Core, now: Time, email: string, password: string, uuid: string, token: string, u: Id)
    requires u in c.db.users && u != uuid
    ensures LeavesRow(c.db.users, Register(cfg, c, now, email, password, uuid, token).db.users, u)
  {
    hide Register, NewUser;
    RegisterUsers(cfg, c, now, email, password, uuid, token);
  }

  lemma VerifyingUntouched(c: Core, now: Time, token: string, u: Id)
    requires u in c.db.users
    ensures LeavesRow(c.db.users, VerifyEmail(c, now, token).0.db.users, u)
  {
    hide VerifyEmail;
    VerifyEmailUsers(c, now, token);
  }

  lemma SettingsUntouched(cfg: Config, s: Sys, now: Time, access: string, action: Action, e: Entropy, u: Id)
    requires HexDraw(e.hex) && u in s.core.db.users
    ensures LeavesRow(s.core.db.users, UsersAfter(cfg, s, now, Settings(access, action), e), u)
  {
    hide HexDraw, Act, Authenticate, OnlyFlags, LeavesRow;
    OthersUntouched(s.core.db.users, s.core.db.users, u, u);
    var user := Authenticate(s, now, access);
    if user.Ok? {
      ActUsers(cfg, s.core, now, user.value, action, e);
      OthersUntouched(s.core.db.users, Act(cfg, s.core, now, user.value, action, e).0.db.users, user.value, u);
    }
  }

  /** Only a sign-in to `u`, or an administrator, writes the sign-in columns of `u`. */
  lemma OthersLeaveRow(cfg: Config, s: Sys, now: Time, req: Request, e: Entropy, u: Id)
    requires Fits(s) && FreshDraw(s, e) && u in s.core.db.users && !req.Administer?
    requires !(req.SignIn? && FindByEmail(s.core.db, req.email) == Some(u))
    ensures LeavesRow(s.core.db.users, UsersAfter(cfg, s, now, req, e), u)
  {
    DrawnParts(e);
    NotYetUsedAsUser(s, e.uuid);
    assert u != e.uuid;
    hide Fits, FreshDraw, HexDraw, Register, VerifyEmail, LoginRows, FindByEmail, OnlyFlags, OnlyLogin, LeavesRow;
    var users, after := s.core.db.users, UsersAfter(cfg, s, now, req, e);
    OthersUntouched(users, users, u, u);
    if req.Settings? {
      SettingsUntouched(cfg, s, now, req.access, req.action, e, u);
    } else if req.SignIn? {
      LoginRowsChange(cfg, s.core.db, now, req.email, req.password);
      if FindByEmail(s.core.db, req.email).Some? {
        OthersUntouched(users, after, FindByEmail(s.core.db, req.email).value, u);
      }
    } else if req.SignUp? {
      RegisteringUntouched(cfg, s.core, now, req.email, req.password, e.uuid, e.token, u);
    } else if req.ConfirmEmail? {
      VerifyingUntouched(s.core, now, req.verification, u);
    }
  }

  lemma SettingsDoNotLogIn(cfg: Config, c: Core, now: Time, user: Id, action: Action, e: Entropy)
    requires HexDraw(e.hex)
    ensures !Act(cfg, c, now, user, action, e).1.Login?
  {
  }

  lemma OrdersDoNotLogIn(db: Tables, command: Command)
    ensures forall actor :: !Order(db, actor, command).1.Login?
  {
  }

  lemma EnrollmentKeepsVerifications(cfg: Config, c: Core, now: Time, user: Id, code: string, hex: seq<string>)
    requires HexDraw(hex)
    ensures CompleteTotpEnrollment(cfg, c, now, user, code, hex).0.db.verifications == c.db.verifications
  {
    hide HexDraw, EnsureRecoveryCodes, SetFlags, EnableTotp;
    RegenerateFrame(c.(db := c.db.(totp := EnableTotp(c.db.totp, user), users := SetFlags(c.db.users, user, Some(true), None, Some(true)))),
                    user, hex);
  }

  lemma ActKeepsVerifications(cfg: Config, c: Core, now: Time, user: Id, action: Action, e: Entropy)
    requires HexDraw(e.hex)
    ensures Act(cfg, c, now, user, action, e).0.db.verifications == c.db.verifications
  {
    hide HexDraw, CompleteTotpEnrollment, CompleteWebAuthnRegistration, RegenerateRecoveryCodes, SetFlags, CredentialsOf, PasswordMatches,
      CeremonyKey, SetItem;
    match action
    case FinishTotp(code) => EnrollmentKeepsVerifications(cfg, c, now, user, code, e.hex);
    case FinishWebAuthn(id, registration) => FinishWebAuthnFrame(cfg, c, now, id, user, registration, e.hex);
    case RegenerateCodes(_) => RegenerateFrame(c, user, e.hex);
    case _ =>
  }
}
