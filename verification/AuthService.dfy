/** Signed tokens, and the authentication service proved equal to its protocol functions. */
module AuthServices {
  import opened Wrappers
  import opened Rows
  import opened Repositories
  import opened MfaServices
  import P = Protocol

  /** Issues and verifies signed tokens. The tables stand for the signatures: only issued tokens verify. */
  class JwtService {
    var refreshTokens: map<string, P.RefreshClaims>
    var accessTokens: map<string, P.AccessClaims>
    const accessTtl: int

    constructor (accessTtl: int)
      ensures this.accessTtl == accessTtl && refreshTokens == map[] && accessTokens == map[]
    {
      this.accessTtl, refreshTokens, accessTokens := accessTtl, map[], map[];
    }

    method CreateAccessToken(userId: Id, sessionId: Id, token: string, now: Time)
      modifies this`accessTokens
      ensures accessTokens == old(accessTokens)[token := P.AccessClaims(userId, sessionId, now + accessTtl * 1000)]
    {
      accessTokens := accessTokens[token := P.AccessClaims(userId, sessionId, now + accessTtl * 1000)];
    }

    method CreateRefreshToken(userId: Id, jti: Id, expiresInSeconds: int, token: string, now: Time)
      modifies this`refreshTokens
      ensures refreshTokens == old(refreshTokens)[token := P.RefreshClaims(userId, jti, now + expiresInSeconds * 1000)]
    {
      refreshTokens := refreshTokens[token := P.RefreshClaims(userId, jti, now + expiresInSeconds * 1000)];
    }

    method VerifyAccessToken(token: string, now: Time) returns (r: Option<P.AccessClaims>)
      ensures r == if token in accessTokens && P.Fresh(accessTokens[token].exp, now)
                   then Some(accessTokens[token]) else None
    {
      if token !in accessTokens || !P.Fresh(accessTokens[token].exp, now) {
        return None;
      }
      return Some(accessTokens[token]);
    }

    method VerifyRefreshToken(token: string, now: Time) returns (r: Option<P.RefreshClaims>)
      ensures r == if token in refreshTokens && P.Fresh(refreshTokens[token].exp, now)
                   then Some(refreshTokens[token]) else None
    {
      if token !in refreshTokens || !P.Fresh(refreshTokens[token].exp, now) {
        return None;
      }
      return Some(refreshTokens[token]);
    }
  }

  class AuthService {
    const cfg: P.Config
    const jwt: JwtService
    const users: UserRepository
    const sessions: SessionRepository
    const emailVerifications: EmailVerificationRepository
    const mfa: MfaService
    ghost const drawn: set<string>

    constructor (cfg: P.Config, jwt: JwtService, users: UserRepository, sessions: SessionRepository,
                 emailVerifications: EmailVerificationRepository, mfa: MfaService)
      requires mfa.Wired() && mfa.cfg == cfg && jwt.accessTtl == cfg.accessTtl
      requires users.db == sessions.db == emailVerifications.db == mfa.mfa.db
      ensures Wired()
    {
      this.cfg, this.jwt, this.users, this.sessions := cfg, jwt, users, sessions;
      this.emailVerifications, this.mfa := emailVerifications, mfa;
    }

    ghost predicate Wired() {
      && mfa.Wired() && mfa.cfg == cfg && jwt.accessTtl == cfg.accessTtl
      && users.db == sessions.db == emailVerifications.db == mfa.mfa.db
    }

    ghost function State(): P.Sys
      reads mfa.mfa.db, mfa.cache, jwt
    {
      P.Sys(mfa.Core(), jwt.refreshTokens, jwt.accessTokens, drawn)
    }

    // -------------------------------------------------------------------------
    // Registration and email verification
    // -------------------------------------------------------------------------

    method IssueVerificationToken(userId: Id, token: string, now: Time)
      requires Wired() && Sha256(token) !in users.db.verifications
      modifies users.db`verifications
      ensures mfa.Core() == P.IssueVerificationToken(cfg, old(mfa.Core()), now, userId, token)
    {
      emailVerifications.RevokePending(userId, now);
      emailVerifications.Create(userId, Sha256(token), now + cfg.verificationTtl * 1000);
    }

    method Register(email: string, password: string, e: P.Entropy, now: Time)
      requires Wired() && Sha256(e.token) !in users.db.verifications && e.uuid !in users.db.users
      requires email in users.db.emails ==> users.db.emails[email] in users.db.users
      modifies users.db`users, users.db`emails, users.db`verifications
      ensures mfa.Core() == P.Register(cfg, old(mfa.Core()), now, email, password, e.uuid, e.token)
    {
      var existing := users.FindByEmail(email);
      if existing.Some? {
        if !existing.value.1.emailVerified {
          IssueVerificationToken(existing.value.0, e.token, now);
        }
        return;
      }
      var user := P.NewUser(cfg, email, password);
      users.Create(e.uuid, user);
      IssueVerificationToken(e.uuid, e.token, now);
    }

    method ResendVerification(email: string, e: P.Entropy, now: Time)
      requires Wired() && Sha256(e.token) !in users.db.verifications
      modifies users.db`verifications
      ensures mfa.Core() == P.ResendVerification(cfg, old(mfa.Core()), now, email, e.token)
    {
      var user := users.FindByEmail(email);
      if user.Some? && !user.value.1.emailVerified {
        IssueVerificationToken(user.value.0, e.token, now);
      }
    }

    method VerifyEmail(token: string, now: Time) returns (r: Result<Id, P.Error>)
      requires Wired()
      modifies users.db`users, users.db`verifications
      ensures (mfa.Core(), r) == P.VerifyEmail(old(mfa.Core()), now, token)
    {
      var record := emailVerifications.FindActiveByHash(Sha256(token));
      if record.None? {
        return Err(P.VerificationInvalid);
      }
      var (verification, user) := record.value;
      if user.emailVerified {
        emailVerifications.MarkUsed(Sha256(token), now);
        return Ok(verification.userId);
      }
      if verification.usedAt.Some? || verification.expiresAt < now {
        return Err(P.VerificationInvalid);
      }
      emailVerifications.MarkUsed(Sha256(token), now);
      users.MarkEmailVerified(verification.userId);
      return Ok(verification.userId);
    }

    // -------------------------------------------------------------------------
    // Login
    // -------------------------------------------------------------------------

    method IssueTokens(userId: Id, rememberMe: bool, e: P.Entropy, now: Time) returns (tokens: P.Tokens)
      requires Wired() && e.uuid !in users.db.sessions
      modifies users.db`sessions, jwt
      ensures (State(), tokens) == P.IssueTokens(cfg, old(State()), now, userId, rememberMe, e)
    {
      var refreshTtl := if rememberMe then cfg.refreshTtl else cfg.sessionTimeoutMinutes * 60;
      jwt.CreateAccessToken(userId, e.uuid, e.access, now);
      jwt.CreateRefreshToken(userId, e.uuid, refreshTtl, e.refresh, now);
      sessions.Create(e.uuid, Session(userId, Sha256(e.refresh), Active, now + refreshTtl * 1000));
      return P.Tokens(e.access, e.refresh, refreshTtl);
    }

    method PasswordAccepted(id: Id, read: User, rememberMe: bool, device: Option<string>, e: P.Entropy, now: Time)
      returns (r: P.LoginOutcome)
      requires Wired() && e.uuid !in users.db.sessions
      modifies users.db`users, users.db`sessions, jwt, mfa.cache
      ensures (State(), r) == P.PasswordAccepted(cfg, old(State()), now, id, read, rememberMe, device, e)
    {
      users.MarkLoginSuccess(id);
      if read.mfaEnabled {
        var trusted := mfa.IsDeviceTrusted(id, device);
        if !trusted {
          var challenge := mfa.IssueLoginChallenge(id, rememberMe, e.uuid, now);
          match challenge
          case Ok(issued) => return P.Challenged(id, issued);
          case Err(error) => return P.Rejected(error);
        }
      }
      var tokens := IssueTokens(id, rememberMe, e, now);
      return P.LoggedIn(id, tokens, None);
    }

    method Login(email: string, password: string, rememberMe: bool, device: Option<string>, e: P.Entropy, now: Time)
      returns (r: P.LoginOutcome)
      requires Wired() && e.uuid !in users.db.sessions
      modifies users.db`users, users.db`sessions, jwt, mfa.cache
      ensures (State(), r) == P.Login(cfg, old(State()), now, email, password, rememberMe, device, e)
    {
      var found := users.FindByEmail(email);
      if found.None? {
        return P.Rejected(P.InvalidCredentials(false));
      }
      r := LoginKnown(found.value.0, found.value.1, password, rememberMe, device, e, now);
    }

    /** The rest of `Login`, on the row it has read. */
    method LoginKnown(id: Id, user: User, password: string, rememberMe: bool, device: Option<string>, e: P.Entropy, now: Time)
      returns (r: P.LoginOutcome)
      requires Wired() && e.uuid !in users.db.sessions && id in users.db.users && users.db.users[id] == user
      modifies users.db`users, users.db`sessions, jwt, mfa.cache
      ensures (State(), r) == P.LoginKnown(cfg, old(State()), now, id, password, rememberMe, device, e)
    {
      hide P.PasswordMatches, P.PasswordAccepted, P.SecondsUp, Rows.Unlock, Rows.RecordFailedLogin;
      if user.status.DISABLED? {
        return P.Rejected(P.AccountDisabled);
      }
      if user.status.LOCKED? {
        if user.lockedUntil.Some? && user.lockedUntil.value > now {
          return P.Rejected(P.AccountLocked(P.SecondsUp(user.lockedUntil.value - now)));
        }
        users.Unlock(id);
      }
      if !user.emailVerified || user.status.PENDING_VERIFICATION? {
        return P.Rejected(P.EmailNotVerified);
      }
      if !P.PasswordMatches(cfg, user, password) {
        var attempts := user.failedLoginAttempts + 1;
        var shouldLock := attempts >= cfg.loginMaxAttempts;
        var lockedUntil := if shouldLock then Some(now + cfg.loginLockoutMinutes * 60000) else None;
        users.RecordFailedLogin(id, attempts, lockedUntil);
        return P.Rejected(P.InvalidCredentials(true));
      }
      r := PasswordAccepted(id, user, rememberMe, device, e, now);
    }

    method FinishMfaLogin(userId: Id, deviceToken: Option<string>, e: P.Entropy, now: Time) returns (r: P.LoginOutcome)
      requires Wired() && e.uuid !in users.db.sessions
      modifies users.db`sessions, jwt
      ensures (State(), r) == P.FinishMfaLogin(cfg, old(State()), now, userId, deviceToken, e)
    {
      var user := users.FindById(userId);
      if user.None? {
        return P.Rejected(P.AccountMissing);
      }
      var tokens := IssueTokens(userId, false, e, now);
      return P.LoggedIn(userId, tokens, deviceToken);
    }

    method CompleteMfaTotp(challengeId: string, code: string, rememberDevice: bool, e: P.Entropy, now: Time)
      returns (r: P.LoginOutcome)
      requires Wired() && e.uuid !in users.db.sessions
      modifies users.db`sessions, users.db`devices, jwt, mfa.cache
      ensures (State(), r) == P.CompleteMfaTotp(cfg, old(State()), now, challengeId, code, rememberDevice, e)
    {
      var verified := mfa.VerifyTotpLogin(challengeId, code, rememberDevice, e.token, now);
      match verified
      case Err(error) => return P.Rejected(error);
      case Ok(v) => r := FinishMfaLogin(v.userId, v.deviceToken, e, now);
    }

    method CompleteMfaRecovery(challengeId: string, code: string, e: P.Entropy, now: Time) returns (r: P.LoginOutcome)
      requires Wired() && e.uuid !in users.db.sessions
      modifies users.db`sessions, users.db`recovery, jwt, mfa.cache
      ensures (State(), r) == P.CompleteMfaRecovery(cfg, old(State()), now, challengeId, code, e)
    {
      var verified := mfa.VerifyRecoveryLogin(challengeId, code, now);
      match verified
      case Err(error) => return P.Rejected(error);
      case Ok(userId) => r := FinishMfaLogin(userId, None, e, now);
    }

    method CompleteWebAuthnMfa(challengeId: string, credentialId: string, assertion: string, rememberDevice: bool,
                               e: P.Entropy, now: Time) returns (r: P.LoginOutcome)
      requires Wired() && e.uuid !in users.db.sessions
      modifies users.db`sessions, users.db`devices, users.db`credentials, jwt, mfa.cache
      ensures (State(), r)
           == P.CompleteWebAuthnMfa(cfg, old(State()), now, challengeId, credentialId, assertion, rememberDevice, e)
    {
      var verified := mfa.VerifyWebAuthnLogin(challengeId, credentialId, assertion, rememberDevice, e.token, now);
      match verified
      case Err(error) => return P.Rejected(error);
      case Ok(v) => r := FinishMfaLogin(v.userId, v.deviceToken, e, now);
    }

    // -------------------------------------------------------------------------
    // Refresh and logout
    // -------------------------------------------------------------------------

    method Rotate(jti: Id, session: Session, remainingTtl: int, e: P.Entropy, now: Time)
      requires Wired() && jti in users.db.sessions && users.db.sessions[jti] == session
      requires remainingTtl == P.SecondsUp(session.expiresAt - now)
      modifies users.db`sessions, jwt
      ensures State() == P.Rotated(cfg, old(State()), now, jti, e)
    {
      hide P.SecondsUp;
      jwt.CreateRefreshToken(session.userId, jti, remainingTtl, e.refresh, now);
      jwt.CreateAccessToken(session.userId, jti, e.access, now);
      sessions.RotateToken(jti, Sha256(e.refresh), session.expiresAt);
    }

    method Refresh(token: string, e: P.Entropy, now: Time) returns (r: Result<P.Tokens, P.Error>)
      requires Wired()
      modifies users.db`sessions, jwt
      ensures (State(), r) == P.Refresh(cfg, old(State()), now, token, e)
    {
      hide P.SecondsUp, P.Fresh, P.Rotated, EndSession;
      var payload := jwt.VerifyRefreshToken(token, now);
      if payload.None? {
        return Err(P.TokenInvalid);
      }
      var jti := payload.value.jti;
      var found := sessions.FindActiveById(jti);
      if found.None? {
        return Err(P.SessionInactive);
      }
      var (session, user) := found.value;
      if session.refreshTokenHash != Sha256(token) {
        sessions.Revoke(jti);
        return Err(P.TokenReused);
      }
      if session.expiresAt < now {
        sessions.MarkExpired(jti);
        return Err(P.SessionExpired);
      }
      if user.status.DISABLED? {
        return Err(P.AccountDisabled);
      }
      var remainingTtl := P.SecondsUp(session.expiresAt - now);
      Rotate(jti, session, remainingTtl, e, now);
      return Ok(P.Tokens(e.access, e.refresh, remainingTtl));
    }

    method Logout(refreshToken: Option<string>, accessToken: Option<string>, now: Time) returns (revoked: bool)
      requires Wired()
      modifies users.db`sessions
      ensures (State(), revoked) == P.Logout(old(State()), now, refreshToken, accessToken)
    {
      var sessionId: Option<Id> := None;
      if refreshToken.Some? {
        var payload := jwt.VerifyRefreshToken(refreshToken.value, now);
        if payload.Some? {
          sessionId := Some(payload.value.jti);
        }
      }
      if sessionId.None? && accessToken.Some? {
        var payload := jwt.VerifyAccessToken(accessToken.value, now);
        if payload.Some? {
          sessionId := Some(payload.value.sessionId);
        }
      }
      if sessionId.Some? {
        sessions.Revoke(sessionId.value);
      }
      return sessionId.Some?;
    }

    /** The authentication middleware. */
    method Authenticate(token: string, now: Time) returns (r: Result<Id, P.Error>)
      requires Wired()
      ensures r == P.Authenticate(State(), now, token)
    {
      var payload := jwt.VerifyAccessToken(token, now);
      if payload.None? {
        return Err(P.TokenInvalid);
      }
      var user := users.FindById(payload.value.sub);
      var active := sessions.IsSessionActive(payload.value.sessionId, payload.value.sub, now);
      if user.None? {
        return Err(P.AccountMissing);
      }
      if user.value.status.DISABLED? {
        return Err(P.AccountDisabled);
      }
      if !active {
        return Err(P.SessionInactive);
      }
      return Ok(payload.value.sub);
    }
  }
}
