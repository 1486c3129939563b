/** Refresh tokens over whole runs: one use each, replay ends the session, no drift of the expiry. */
module Rotation {
  import opened Wrappers
  import opened Rows
  import opened Protocol
  import opened Machine
  import opened Consistency
  import opened Frames

  /** The refresh token a response carries. */
  function HandedOut(out: Outcome): Option<string> {
    match out
    case Login(LoggedIn(_, tokens, _)) => Some(tokens.refresh)
    case Refreshed(tokens) => Some(tokens.refresh)
    case _ => None
  }

  predicate HandedFor(s: Sys, handed: Option<string>, id: Id) {
    handed.Some? && handed.value in s.refreshTokens && s.refreshTokens[handed.value].jti == id
  }

  // ---------------------------------------------------------------------------
  // One request
  // ---------------------------------------------------------------------------

  /** Owner and expiry stay, an ended session stays ended, and the hash follows the tokens handed out. */
  ghost predicate OldSessions(s: Sys, s1: Sys, handed: Option<string>) {
    forall id | id in s.core.db.sessions ::
      && id in s1.core.db.sessions
      && var a, b := s.core.db.sessions[id], s1.core.db.sessions[id];
         && b.userId == a.userId && b.expiresAt == a.expiresAt
         && (b.status.Active? ==> a.status.Active?)
         && b.refreshTokenHash == if HandedFor(s1, handed, id) then Sha256(handed.value) else a.refreshTokenHash
  }

  ghost predicate NewSessions(s: Sys, s1: Sys, handed: Option<string>) {
    forall id | id in s1.core.db.sessions && id !in s.core.db.sessions ::
      HandedFor(s1, handed, id) && s1.core.db.sessions[id].refreshTokenHash == Sha256(handed.value)
  }

  predicate NearExpiry(s: Sys, token: string)
    requires token in s.refreshTokens
  {
    var claims := s.refreshTokens[token];
    claims.jti in s.core.db.sessions &&
    s.core.db.sessions[claims.jti].expiresAt <= claims.exp <= s.core.db.sessions[claims.jti].expiresAt + 1000
  }

  ghost predicate TokensGrow(s: Sys, s1: Sys, handed: Option<string>) {
    && (forall t | t in s.refreshTokens :: t in s1.refreshTokens && s1.refreshTokens[t] == s.refreshTokens[t])
    && (forall t | t in s.accessTokens :: t in s1.accessTokens && s1.accessTokens[t] == s.accessTokens[t])
    && (forall t | t in s1.refreshTokens && t !in s.refreshTokens :: handed == Some(t) && NearExpiry(s1, t))
    && (handed.Some? ==> handed.value in s1.refreshTokens && handed.value !in s.refreshTokens)
  }

  ghost predicate Evolves(s: Sys, s1: Sys, handed: Option<string>) {
    OldSessions(s, s1, handed) && NewSessions(s, s1, handed) && TokensGrow(s, s1, handed)
  }

  /** Only the sessions and the tokens matter. */
  predicate SameSessions(a: Sys, b: Sys) {
    a.core.db.sessions == b.core.db.sessions && a.refreshTokens == b.refreshTokens && a.accessTokens == b.accessTokens
  }

  lemma EvolvesIgnores(s: Sys, t: Sys, s1: Sys, t1: Sys, handed: Option<string>)
    requires SameSessions(s, t) && SameSessions(s1, t1) && Evolves(s, s1, handed)
    ensures Evolves(t, t1, handed)
  {
  }

  lemma NothingEvolves(s: Sys, s1: Sys)
    requires SameSessions(s, s1)
    ensures Evolves(s, s1, None)
  {
  }

  lemma EndedEvolves(s: Sys, id: Id, status: SessionStatus)
    requires !status.Active?
    ensures Evolves(s, WithSessions(s, EndSession(s.core.db.sessions, id, status)), None)
  {
  }

  lemma RevokedEvolves(s: Sys, userId: Id, s1: Sys)
    requires SameSessions(WithSessions(s, RevokeAllForUser(s.core.db.sessions, userId)), s1)
    ensures Evolves(s, s1, None)
  {
  }

  /** One session row written together with a new pair of tokens for it. */
  lemma PairEvolves(s: Sys, s1: Sys, id: Id, session: Session, token: string, claims: RefreshClaims, access: string, accessClaims: AccessClaims)
    requires token !in s.refreshTokens && access !in s.accessTokens
    requires s1.core.db.sessions == s.core.db.sessions[id := session]
    requires s1.refreshTokens == s.refreshTokens[token := claims] && s1.accessTokens == s.accessTokens[access := accessClaims]
    requires session.refreshTokenHash == Sha256(token) && claims.jti == id
    requires session.expiresAt <= claims.exp <= session.expiresAt + 1000
    requires id in s.core.db.sessions ==>
               var old_ := s.core.db.sessions[id];
               session.userId == old_.userId && session.expiresAt == old_.expiresAt && session.status == old_.status
    ensures Evolves(s, s1, Some(token))
  {
  }

  lemma IssueEvolves(cfg: Config, s: Sys, now: Time, userId: Id, rememberMe: bool, e: Entropy)
    requires SessionsFit(s) && {e.uuid, e.access, e.refresh} !! s.drawn
    ensures Evolves(s, IssueTokens(cfg, s, now, userId, rememberMe, e).0, Some(e.refresh))
  {
    NotYetUsed(s, e.uuid);
    NotYetUsed(s, e.access);
    NotYetUsed(s, e.refresh);
    hide SessionsFit, Evolves, SessionTtl;
    var expiresAt := now + SessionTtl(cfg, rememberMe) * 1000;
    PairEvolves(s, IssueTokens(cfg, s, now, userId, rememberMe, e).0, e.uuid, Session(userId, Sha256(e.refresh), Active, expiresAt),
                e.refresh, RefreshClaims(userId, e.uuid, expiresAt),
                e.access, AccessClaims(userId, e.uuid, now + cfg.accessTtl * 1000));
  }

  lemma SecondsUpNear(ms: int)
    requires ms >= 0
    ensures ms <= SecondsUp(ms) * 1000 <= ms + 1000
  {
  }

  lemma RotatedEvolves(cfg: Config, s: Sys, now: Time, jti: Id, e: Entropy)
    requires SessionsFit(s) && {e.access, e.refresh} !! s.drawn
    requires jti in s.core.db.sessions && s.core.db.sessions[jti].expiresAt >= now
    ensures Evolves(s, Rotated(cfg, s, now, jti, e), Some(e.refresh))
  {
    NotYetUsed(s, e.access);
    NotYetUsed(s, e.refresh);
    var session := s.core.db.sessions[jti];
    SecondsUpNear(session.expiresAt - now);
    hide SessionsFit, SecondsUp, Evolves;
    PairEvolves(s, Rotated(cfg, s, now, jti, e), jti, session.(refreshTokenHash := Sha256(e.refresh)),
                e.refresh, RefreshClaims(session.userId, jti, now + SecondsUp(session.expiresAt - now) * 1000),
                e.access, AccessClaims(session.userId, jti, now + cfg.accessTtl * 1000));
  }

  lemma FinishEvolves(cfg: Config, s: Sys, core: Core, now: Time, userId: Id, device: Option<string>, e: Entropy)
    requires SessionsFit(s) && {e.uuid, e.access, e.refresh} !! s.drawn && core.db.sessions == s.core.db.sessions
    requires s.core.db.users.Keys <= core.db.users.Keys
    ensures var (s1, out) := FinishMfaLogin(cfg, s.(core := core), now, userId, device, e); Evolves(s, s1, HandedOut(Login(out)))
  {
    hide SessionsFit, Evolves, IssueTokens;
    var t := s.(core := core);
    SessionsKept(s, core, s.drawn);
    if userId in core.db.users {
      IssueEvolves(cfg, t, now, userId, false, e);
      EvolvesIgnores(t, s, IssueTokens(cfg, t, now, userId, false, e).0, IssueTokens(cfg, t, now, userId, false, e).0, Some(e.refresh));
      HandedByIssue(cfg, t, now, userId, false, e);
    } else {
      NothingEvolves(s, t);
    }
  }

  lemma HandedByIssue(cfg: Config, s: Sys, now: Time, userId: Id, rememberMe: bool, e: Entropy)
    ensures IssueTokens(cfg, s, now, userId, rememberMe, e).1.refresh == e.refresh
  {
  }

  lemma PasswordAcceptedEvolves(cfg: Config, s: Sys, now: Time, id: Id, read: User, rememberMe: bool, device: Option<string>, e: Entropy)
    requires SessionsFit(s) && {e.uuid, e.access, e.refresh} !! s.drawn
    ensures var (s1, out) := PasswordAccepted(cfg, s, now, id, read, rememberMe, device, e); Evolves(s, s1, HandedOut(Login(out)))
  {
    hide SessionsFit, Evolves, IssueTokens, DeviceTrusted, MarkLoginSuccess, AvailableMethods;
    var t := s.(core := s.core.(db := s.core.db.(users := MarkLoginSuccess(s.core.db.users, id))));
    LoginKeepsAccounts(s.core.db.users, id);
    SessionsKept(s, t.core, s.drawn);
    if read.mfaEnabled && !DeviceTrusted(t.core, id, device) {
      NothingEvolves(s, PasswordAccepted(cfg, s, now, id, read, rememberMe, device, e).0);
    } else {
      IssueEvolves(cfg, t, now, id, rememberMe, e);
      EvolvesIgnores(t, s, IssueTokens(cfg, t, now, id, rememberMe, e).0, IssueTokens(cfg, t, now, id, rememberMe, e).0, Some(e.refresh));
      HandedByIssue(cfg, t, now, id, rememberMe, e);
    }
  }

  lemma LoginKeepsAccounts(users: map<Id, User>, id: Id)
    ensures MarkLoginSuccess(users, id).Keys == users.Keys
  {
  }

  lemma SignInEvolves(cfg: Config, s: Sys, now: Time, email: string, password: string, rememberMe: bool,
                      device: Option<string>, e: Entropy)
    requires SessionsFit(s) && {e.uuid, e.access, e.refresh} !! s.drawn
    ensures var (s1, out) := Protocol.Login(cfg, s, now, email, password, rememberMe, device, e);
            Evolves(s, s1, HandedOut(Login(out)))
  {
    hide SessionsFit, Evolves, PasswordAccepted, AfterUnlock, FailedLogin, PasswordMatches, Refusal;
    var (s1, out) := Protocol.Login(cfg, s, now, email, password, rememberMe, device, e);
    if FindByEmail(s.core.db, email).Some? {
      var id := FindByEmail(s.core.db, email).value;
      var user := s.core.db.users[id];
      if Refusal(user, now).Some? || !PasswordMatches(cfg, user, password) {
        NothingEvolves(s, s1);
      } else {
        LoginAccounts(cfg, s.core.db.users, id, user, now);
        var t := s.(core := s.core.(db := s.core.db.(users := AfterUnlock(s.core.db.users, id, now))));
        SessionsKept(s, t.core, s.drawn);
        PasswordAcceptedEvolves(cfg, t, now, id, user, rememberMe, device, e);
        EvolvesIgnores(t, s, s1, s1, HandedOut(Login(out)));
      }
    } else {
      NothingEvolves(s, s1);
    }
  }

  lemma AnswersEvolve(cfg: Config, s: Sys, now: Time, id: string, code: string, key: string, remember: bool, e: Entropy)
    requires SessionsFit(s) && {e.uuid, e.access, e.refresh} !! s.drawn
    ensures var (s1, out) := CompleteMfaTotp(cfg, s, now, id, code, remember, e); Evolves(s, s1, HandedOut(Login(out)))
    ensures var (s1, out) := CompleteMfaRecovery(cfg, s, now, id, code, e); Evolves(s, s1, HandedOut(Login(out)))
    ensures var (s1, out) := CompleteWebAuthnMfa(cfg, s, now, id, key, code, remember, e); Evolves(s, s1, HandedOut(Login(out)))
  {
    RejectedHandsOutNothing();
    hide SessionsFit, Evolves, HandedOut, FinishMfaLogin, VerifyTotpLogin, VerifyRecoveryLogin, VerifyWebAuthnLogin, CredentialsOf;
    AnswerCoreFrame(cfg, s.core, now, id, code, key, remember, e.token);
    AnswerEvolves(cfg, s, VerifyTotpLogin(cfg, s.core, now, id, code, remember, e.token).0, now, e);
    AnswerEvolves(cfg, s, VerifyRecoveryLogin(s.core, now, id, code).0, now, e);
    AnswerEvolves(cfg, s, VerifyWebAuthnLogin(cfg, s.core, now, id, key, code, remember, e.token).0, now, e);
  }

  lemma RejectedHandsOutNothing()
    ensures forall error :: HandedOut(Login(Rejected(error))).None?
  {
  }

  lemma AnswerEvolves(cfg: Config, s: Sys, core: Core, now: Time, e: Entropy)
    requires SessionsFit(s) && {e.uuid, e.access, e.refresh} !! s.drawn
    requires core.db.sessions == s.core.db.sessions && core.db.users == s.core.db.users
    ensures Evolves(s, s.(core := core), None)
    ensures forall u, d :: var (s1, out) := FinishMfaLogin(cfg, s.(core := core), now, u, d, e); Evolves(s, s1, HandedOut(Login(out)))
  {
    hide SessionsFit, Evolves, FinishMfaLogin;
    NothingEvolves(s, s.(core := core));
    forall u, d ensures var (s1, out) := FinishMfaLogin(cfg, s.(core := core), now, u, d, e); Evolves(s, s1, HandedOut(Login(out))) {
      FinishEvolves(cfg, s, core, now, u, d, e);
    }
  }

  lemma RefreshEvolves(cfg: Config, s: Sys, now: Time, token: string, e: Entropy)
    requires SessionsFit(s) && {e.access, e.refresh} !! s.drawn
    ensures var (s1, r) := Refresh(cfg, s, now, token, e);
            Evolves(s, s1, if r.Ok? then Some(r.value.refresh) else None)
  {
    hide SessionsFit, Evolves, EndSession, Rotated, SecondsUp;
    NothingEvolves(s, s);
    if token in s.refreshTokens {
      var jti := s.refreshTokens[token].jti;
      EndedEvolves(s, jti, Revoked);
      EndedEvolves(s, jti, Expired);
      if jti in s.core.db.sessions && s.core.db.sessions[jti].expiresAt >= now {
        RotatedEvolves(cfg, s, now, jti, e);
      }
    }
  }

  lemma LogoutEvolves(s: Sys, now: Time, refresh: Option<string>, access: Option<string>)
    ensures Evolves(s, Logout(s, now, refresh, access).0, None)
  {
    hide Evolves, EndSession;
    NothingEvolves(s, s);
    if LogoutTarget(s, now, refresh, access).Some? {
      EndedEvolves(s, LogoutTarget(s, now, refresh, access).value, Revoked);
    }
  }

  lemma OrderEvolves(s: Sys, actor: Id, command: Command)
    ensures Evolves(s, s.(core := s.core.(db := Order(s.core.db, actor, command).0)), None)
    ensures HandedOut(Order(s.core.db, actor, command).1).None?
  {
    hide Evolves, RevokeAllForUser, SetRole, SetStatus, AllowedTransitions;
    var s1 := s.(core := s.core.(db := Order(s.core.db, actor, command).0));
    if s1.core.db.sessions == s.core.db.sessions {
      NothingEvolves(s, s1);
    } else {
      RevokedEvolves(s, command.target, s1);
    }
  }

  lemma CoreRequestsEvolve(cfg: Config, s: Sys, now: Time, email: string, password: string, text: string, e: Entropy)
    requires Fits(s) && FreshDraw(s, e)
    ensures Evolves(s, s.(core := Register(cfg, s.core, now, email, password, e.uuid, e.token)), None)
    ensures Evolves(s, s.(core := ResendVerification(cfg, s.core, now, email, e.token)), None)
    ensures Evolves(s, s.(core := VerifyEmail(s.core, now, text).0), None)
    ensures Evolves(s, s.(core := BeginWebAuthnLogin(cfg, s.core, now, text, e.token).0), None)
  {
    hide Fits, FreshDraw, Evolves, Register, ResendVerification, BeginWebAuthnLogin;
    RegisterUsers(cfg, s.core, now, email, password, e.uuid, e.token);
    ResendFrame(cfg, s.core, now, email, e.token);
    AssertionFrame(cfg, s.core, now, text, e.token);
    NothingEvolves(s, s.(core := Register(cfg, s.core, now, email, password, e.uuid, e.token)));
    NothingEvolves(s, s.(core := ResendVerification(cfg, s.core, now, email, e.token)));
    NothingEvolves(s, s.(core := VerifyEmail(s.core, now, text).0));
    NothingEvolves(s, s.(core := BeginWebAuthnLogin(cfg, s.core, now, text, e.token).0));
  }

  lemma ActEvolves(cfg: Config, s: Sys, now: Time, user: Id, action: Action, e: Entropy)
    requires Fits(s) && FreshDraw(s, e) && user in s.core.db.users
    ensures Evolves(s, s.(core := Act(cfg, s.core, now, user, action, e).0), None)
    ensures HandedOut(Act(cfg, s.core, now, user, action, e).1).None?
  {
    FitsParts(s);
    hide Fits, CoreFits, SessionsFit, Drawn, HexDraw, Act, Evolves;
    DrawMore(s.core, s.drawn, Drawn(e));
    ActFits(cfg, s.core, s.drawn + Drawn(e), now, user, action, e);
    NothingEvolves(s, s.(core := Act(cfg, s.core, now, user, action, e).0));
    ActHandsOutNothing(cfg, s.core, now, user, action, e);
  }

  lemma ActHandsOutNothing(cfg: Config, c: Core, now: Time, user: Id, action: Action, e: Entropy)
    requires HexDraw(e.hex)
    ensures HandedOut(Act(cfg, c, now, user, action, e).1).None?
  {
  }

  lemma HandsOutNothing()
    ensures HandedOut(Accepted).None?
    ensures forall error :: HandedOut(Failed(error)).None?
    ensures forall user :: HandedOut(Confirmed(user)).None?
    ensures forall keys :: HandedOut(Keys(keys)).None?
    ensures forall revoked :: HandedOut(SignedOut(revoked)).None?
    ensures forall tokens :: HandedOut(Refreshed(tokens)) == Some(tokens.refresh)
  {
  }

  lemma AccountRequestEvolves(cfg: Config, s: Sys, now: Time, req: Request, e: Entropy)
    requires Fits(s) && FreshDraw(s, e)
    requires req.SignUp? || req.Resend? || req.ConfirmEmail? || req.StartAssertion?
    ensures var (s1, out) := Handle(cfg, s, now, req, e); Evolves(s, s1, HandedOut(out))
  {
    HandsOutNothing();
    hide Fits, FreshDraw, HandedOut, Evolves, HexDraw, Register, ResendVerification, VerifyEmail, BeginWebAuthnLogin;
    match req
    case SignUp(email, password) => CoreRequestsEvolve(cfg, s, now, email, password, "", e);
    case Resend(email) => CoreRequestsEvolve(cfg, s, now, email, "", "", e);
    case ConfirmEmail(token) => CoreRequestsEvolve(cfg, s, now, "", "", token, e);
    case StartAssertion(id) => CoreRequestsEvolve(cfg, s, now, "", "", id, e);
  }

  lemma AuthenticatedRequestEvolves(cfg: Config, s: Sys, now: Time, req: Request, e: Entropy)
    requires Fits(s) && FreshDraw(s, e)
    requires req.Settings? || req.Administer?
    ensures var (s1, out) := Handle(cfg, s, now, req, e); Evolves(s, s1, HandedOut(out))
  {
    HandsOutNothing();
    hide Fits, FreshDraw, HandedOut, Evolves, HexDraw, Act, Order, Authenticate, RequireAdmin;
    NothingEvolves(s, s);
    AuthenticatedUser(s, now, req.access);
    var user := Authenticate(s, now, req.access);
    if user.Ok? && req.Settings? {
      ActEvolves(cfg, s, now, user.value, req.action, e);
    } else if user.Ok? {
      OrderEvolves(s, user.value, req.command);
    }
  }

  lemma SessionRequestEvolves(cfg: Config, s: Sys, now: Time, req: Request, e: Entropy)
    requires Fits(s) && FreshDraw(s, e)
    requires req.SignIn? || req.AnswerTotp? || req.AnswerRecovery? || req.AnswerWebAuthn? || req.RefreshSession? || req.SignOut?
    ensures var (s1, out) := Handle(cfg, s, now, req, e); Evolves(s, s1, HandedOut(out))
  {
    FitsParts(s);
    assert {e.uuid, e.access, e.refresh} !! s.drawn by { DrawnParts(e); hide Fits; }
    HandsOutNothing();
    hide Fits, FreshDraw, HandedOut, CoreFits, SessionsFit, Evolves, Protocol.Login, CompleteMfaTotp, CompleteMfaRecovery,
      CompleteWebAuthnMfa, Refresh, Logout, HexDraw;
    match req
    case SignIn(email, password, rememberMe, device) => SignInEvolves(cfg, s, now, email, password, rememberMe, device, e);
    case AnswerTotp(id, code, remember) => AnswersEvolve(cfg, s, now, id, code, "", remember, e);
    case AnswerRecovery(id, code) => AnswersEvolve(cfg, s, now, id, code, "", false, e);
    case AnswerWebAuthn(id, key, assertion, remember) => AnswersEvolve(cfg, s, now, id, assertion, key, remember, e);
    case RefreshSession(token) => RefreshEvolves(cfg, s, now, token, e);
    case SignOut(refresh, access) => LogoutEvolves(s, now, refresh, access);
  }

  lemma HandleEvolves(cfg: Config, s: Sys, now: Time, req: Request, e: Entropy)
    requires Fits(s) && FreshDraw(s, e)
    ensures var (s1, out) := Handle(cfg, s, now, req, e); Evolves(s, s1, HandedOut(out))
  {
    hide Fits, FreshDraw, Handle, HandedOut, Evolves;
    if req.SignUp? || req.Resend? || req.ConfirmEmail? || req.StartAssertion? {
      AccountRequestEvolves(cfg, s, now, req, e);
    } else if req.Settings? || req.Administer? {
      AuthenticatedRequestEvolves(cfg, s, now, req, e);
    } else {
      SessionRequestEvolves(cfg, s, now, req, e);
    }
  }

  /** What every event does to sessions and tokens. */
  lemma EventEvolves(cfg: Config, ev: Event)
    requires ValidEvent(cfg, ev) && Fits(ev.pre)
    ensures Evolves(ev.pre, ev.post, HandedOut(ev.out))
  {
    hide Fits, Handle, HexDraw, Drawn, Evolves;
    HandleEvolves(cfg, ev.pre, ev.now, ev.req, ev.entropy);
    var s1 := Handle(cfg, ev.pre, ev.now, ev.req, ev.entropy).0;
    EvolvesIgnores(ev.pre, ev.pre, s1, ev.post, HandedOut(ev.out));
  }

  // ---------------------------------------------------------------------------
  // Whole runs
  // ---------------------------------------------------------------------------

  lemma RunEvolves(cfg: Config, run: seq<Event>, n: nat)
    requires ValidRun(cfg, run) && n < |run| && Fits(run[0].pre)
    ensures Fits(run[n].pre) && Evolves(run[n].pre, run[n].post, HandedOut(run[n].out))
    ensures run[n].pre == StateAt(run, n) && run[n].post == StateAt(run, n + 1)
  {
    hide Fits, ValidEvent, Evolves;
    RunFits(cfg, run, n);
    EventEvolves(cfg, run[n]);
  }

  /** Tokens are never withdrawn and sessions never forgotten; owner and expiry never change. */
  ghost predicate Later(s: Sys, s1: Sys) {
    && (forall t | t in s.refreshTokens :: t in s1.refreshTokens && s1.refreshTokens[t] == s.refreshTokens[t])
    && (forall t | t in s.accessTokens :: t in s1.accessTokens && s1.accessTokens[t] == s.accessTokens[t])
    && (forall id | id in s.core.db.sessions ::
          && id in s1.core.db.sessions
          && s1.core.db.sessions[id].userId == s.core.db.sessions[id].userId
          && s1.core.db.sessions[id].expiresAt == s.core.db.sessions[id].expiresAt
          && (s1.core.db.sessions[id].status.Active? ==> s.core.db.sessions[id].status.Active?))
  }

  /** Over any stretch of a run: an ended session stays ended, and its expiry is the one it was created with. */
  lemma {:induction false} SessionsOnlyEnd(cfg: Config, run: seq<Event>, i: nat, j: nat)
    requires ValidRun(cfg, run) && run != [] && i <= j <= |run| && Fits(run[0].pre)
    ensures Later(StateAt(run, i), StateAt(run, j))
    decreases j
  {
    hide Fits, ValidEvent;
    if i < j {
      SessionsOnlyEnd(cfg, run, i, j - 1);
      RunEvolves(cfg, run, j - 1);
      OneLater(StateAt(run, i), run[j - 1]);
    }
  }

  lemma OneLater(s: Sys, ev: Event)
    requires Later(s, ev.pre) && Evolves(ev.pre, ev.post, HandedOut(ev.out))
    ensures Later(s, ev.post)
  {
    hide NewSessions, HandedOut, HandedFor;
  }

  /** The last refresh token handed out for a session in the first `n` events. */
  function LastToken(run: seq<Event>, n: nat, id: Id): Option<string>
    requires n <= |run|
  {
    if n == 0 then None
    else if HandedFor(run[n - 1].post, HandedOut(run[n - 1].out), id) then HandedOut(run[n - 1].out)
    else LastToken(run, n - 1, id)
  }

  /**
   The stored hash is that of the last token handed out; a session that got none in this
   run is one the run began with, and has the hash it began with.
   */
  lemma {:induction false} StoredHashIsLastToken(cfg: Config, run: seq<Event>, n: nat, id: Id)
    requires ValidRun(cfg, run) && run != [] && n <= |run| && Fits(run[0].pre)
    requires id in StateAt(run, n).core.db.sessions
    ensures var hash := StateAt(run, n).core.db.sessions[id].refreshTokenHash;
            match LastToken(run, n, id)
            case Some(last) => hash == Sha256(last)
            case None => id in run[0].pre.core.db.sessions && hash == run[0].pre.core.db.sessions[id].refreshTokenHash
  {
    hide Fits, ValidEvent, HandedOut, TokensGrow;
    if n > 0 {
      RunEvolves(cfg, run, n - 1);
      if id in StateAt(run, n - 1).core.db.sessions {
        StoredHashIsLastToken(cfg, run, n - 1, id);
      }
    }
  }

  predicate Presents(ev: Event, token: string) {
    ev.req == RefreshSession(token)
  }

  predicate Accepts(ev: Event, token: string) {
    Presents(ev, token) && ev.out.Refreshed?
  }

  /** A token some newer one has replaced. */
  predicate Replaced(s: Sys, token: string) {
    && token in s.refreshTokens && s.refreshTokens[token].jti in s.core.db.sessions
    && s.core.db.sessions[s.refreshTokens[token].jti].refreshTokenHash != Sha256(token)
  }

  /** Unexpired, of an active session not past its expiry, of an account not disabled. */
  predicate Live(s: Sys, now: Time, token: string) {
    && VerifyRefreshToken(s, token, now).Some?
    && var found := FindActive(s.core.db, s.refreshTokens[token].jti);
       found.Some? && now <= found.value.0.expiresAt && !found.value.1.status.DISABLED?
  }

  predicate Acceptable(s: Sys, now: Time, token: string) {
    Live(s, now, token) && s.core.db.sessions[s.refreshTokens[token].jti].refreshTokenHash == Sha256(token)
  }

  lemma AcceptsIff(cfg: Config, ev: Event, token: string)
    requires ValidEvent(cfg, ev) && Presents(ev, token)
    ensures Accepts(ev, token) <==> Acceptable(ev.pre, ev.now, token)
    ensures Accepts(ev, token) ==>
              ev.post == Rotated(cfg, ev.pre, ev.now, ev.pre.refreshTokens[token].jti, ev.entropy).(drawn := ev.post.drawn)
  {
    hide HexDraw, Drawn, Rotated, EndSession, SecondsUp;
  }

  lemma AcceptableOrReplaced(s: Sys, now: Time, token: string)
    ensures Acceptable(s, now, token) <==> Live(s, now, token) && !Replaced(s, token)
  {
  }

  lemma ReplacedIffNotLast(cfg: Config, run: seq<Event>, n: nat, token: string, last: string)
    requires ValidRun(cfg, run) && n < |run| && Fits(run[0].pre) && token in run[n].pre.refreshTokens
    requires LastToken(run, n, run[n].pre.refreshTokens[token].jti) == Some(last)
    ensures Replaced(run[n].pre, token) <==> token != last
  {
    hide ValidEvent, CoreFits, LastToken;
    RunFits(cfg, run, n);
    TokenNamesSession(run[n].pre, token);
    hide Fits;
    StoredHashIsLastToken(cfg, run, n, run[n].pre.refreshTokens[token].jti);
  }

  /**
   A presented token is accepted exactly when it has not expired, its session is active and
   not past its expiry, its account is not disabled, and it is the last token handed out
   for that session.
   */
  lemma AcceptedIffLast(cfg: Config, run: seq<Event>, n: nat, token: string, last: string)
    requires ValidRun(cfg, run) && n < |run| && Fits(run[0].pre) && Presents(run[n], token)
    requires token in run[n].pre.refreshTokens
    requires LastToken(run, n, run[n].pre.refreshTokens[token].jti) == Some(last)
    ensures Accepts(run[n], token) <==> Live(run[n].pre, run[n].now, token) && token == last
  {
    hide ValidEvent, Fits, Accepts, Presents, LastToken, Live, Acceptable, Replaced;
    ReplacedIffNotLast(cfg, run, n, token, last);
    AcceptsIff(cfg, run[n], token);
    AcceptableOrReplaced(run[n].pre, run[n].now, token);
  }

  lemma RotatedReplaces(cfg: Config, s: Sys, now: Time, token: string, e: Entropy)
    requires SessionsFit(s) && token in s.refreshTokens && e.refresh !in s.drawn
    requires s.refreshTokens[token].jti in s.core.db.sessions
    ensures Replaced(Rotated(cfg, s, now, s.refreshTokens[token].jti, e), token)
  {
    hide SecondsUp;
  }

  lemma ReplacedIgnoresDrawn(s: Sys, drawn: set<string>, token: string)
    ensures Replaced(s.(drawn := drawn), token) == Replaced(s, token)
  {
  }

  lemma AcceptedIsReplaced(cfg: Config, ev: Event, token: string)
    requires ValidEvent(cfg, ev) && Fits(ev.pre) && Accepts(ev, token)
    ensures Replaced(ev.post, token)
  {
    assert ev.entropy.refresh !in ev.pre.drawn by { DrawnParts(ev.entropy); hide Fits, Step; }
    hide ValidEvent, Replaced, Rotated, CoreFits;
    AcceptsIff(cfg, ev, token);
    RotatedReplaces(cfg, ev.pre, ev.now, token, ev.entropy);
    ReplacedIgnoresDrawn(Rotated(cfg, ev.pre, ev.now, ev.pre.refreshTokens[token].jti, ev.entropy), ev.post.drawn, token);
  }

  lemma StaysReplaced(s: Sys, s1: Sys, handed: Option<string>, token: string)
    requires Evolves(s, s1, handed) && Replaced(s, token)
    ensures Replaced(s1, token)
  {
    hide NewSessions;
  }

  lemma {:induction false} ReplacedForGood(cfg: Config, run: seq<Event>, i: nat, j: nat, token: string)
    requires ValidRun(cfg, run) && run != [] && i <= j <= |run| && Fits(run[0].pre) && Replaced(StateAt(run, i), token)
    ensures Replaced(StateAt(run, j), token)
    decreases j
  {
    hide Fits, ValidEvent, Replaced, Evolves;
    if i < j {
      ReplacedForGood(cfg, run, i, j - 1, token);
      RunEvolves(cfg, run, j - 1);
      StaysReplaced(run[j - 1].pre, run[j - 1].post, HandedOut(run[j - 1].out), token);
    }
  }

  /** No refresh token is accepted twice. */
  lemma AcceptedOnce(cfg: Config, run: seq<Event>, i: nat, j: nat, token: string)
    requires ValidRun(cfg, run) && i < j < |run| && Fits(run[0].pre)
    ensures !(Accepts(run[i], token) && Accepts(run[j], token))
  {
    hide ValidEvent, Fits, Live, Acceptable, Replaced, Evolves;
    if Accepts(run[i], token) {
      RunEvolves(cfg, run, i);
      AcceptedIsReplaced(cfg, run[i], token);
      ReplacedForGood(cfg, run, i + 1, j, token);
      AcceptableOrReplaced(run[j].pre, run[j].now, token);
      if Presents(run[j], token) {
        AcceptsIff(cfg, run[j], token);
      }
    }
  }

  predicate Ended(s: Sys, id: Id) {
    id in s.core.db.sessions && !s.core.db.sessions[id].status.Active?
  }

  /** The account has no active session. */
  ghost predicate AllEnded(s: Sys, u: Id) {
    forall id | id in s.core.db.sessions && s.core.db.sessions[id].userId == u :: !s.core.db.sessions[id].status.Active?
  }

  /** The session an event needs active to succeed: that of the token it presents. */
  predicate UsesSession(ev: Event, id: Id) {
    match ev.req
    case RefreshSession(token) =>
      token in ev.pre.refreshTokens && ev.pre.refreshTokens[token].jti == id
    case Settings(access, _) => access in ev.pre.accessTokens && ev.pre.accessTokens[access].sessionId == id
    case Administer(access, _) => access in ev.pre.accessTokens && ev.pre.accessTokens[access].sessionId == id
    case _ => false
  }

  lemma EndedRefuses(cfg: Config, ev: Event, id: Id)
    requires ValidEvent(cfg, ev) && Ended(ev.pre, id) && UsesSession(ev, id)
    ensures ev.out.Failed? && ev.post.core == ev.pre.core
  {
    hide HexDraw, Drawn, Rotated, EndSession, SecondsUp, Act, Order;
  }

  /** Once a session has ended, no token of its family, refresh or access, gets anything done any more. */
  lemma EndedForGood(cfg: Config, run: seq<Event>, i: nat, j: nat, id: Id)
    requires ValidRun(cfg, run) && i <= j < |run| && Fits(run[0].pre)
    requires Ended(StateAt(run, i), id) && UsesSession(run[j], id)
    ensures run[j].out.Failed? && run[j].post.core == run[j].pre.core
  {
    SessionsOnlyEnd(cfg, run, i, j);
    assert ValidEvent(cfg, run[j]);
    EndedRefuses(cfg, run[j], id);
  }

  /** Locking or disabling an account, and signing out, end sessions; so `EndedForGood` applies to them. */
  lemma LockingEnds(cfg: Config, ev: Event, u: Id)
    requires ValidEvent(cfg, ev) && ev.req.Administer? && ev.out == Accepted
    requires ev.req.command.ChangeStatus? && ev.req.command.target == u
    requires ev.req.command.status.LOCKED? || ev.req.command.status.DISABLED?
    ensures forall id | id in ev.post.core.db.sessions && ev.post.core.db.sessions[id].userId == u :: Ended(ev.post, id)
  {
    hide HexDraw, Drawn, Authenticate, RequireAdmin, AllowedTransitions, SetStatus;
  }

  lemma SigningOutEnds(cfg: Config, ev: Event, id: Id)
    requires ValidEvent(cfg, ev) && Fits(ev.pre) && ev.req.SignOut?
    requires LogoutTarget(ev.pre, ev.now, ev.req.refreshCookie, ev.req.accessCookie) == Some(id)
    ensures ev.out == SignedOut(true) && Ended(ev.post, id)
  {
    hide Fits, HexDraw, Drawn, Logout, Ended;
    LogoutEnds(ev.pre, ev.now, ev.req.refreshCookie, ev.req.accessCookie, ev.post.drawn);
  }

  lemma LogoutEnds(s: Sys, now: Time, refresh: Option<string>, access: Option<string>, drawn: set<string>)
    requires Fits(s) && LogoutTarget(s, now, refresh, access).Some?
    ensures var (s1, revoked) := Logout(s, now, refresh, access);
            revoked && Ended(s1.(drawn := drawn), LogoutTarget(s, now, refresh, access).value)
  {
    TargetExists(s, now, refresh, access);
    hide Fits, LogoutTarget;
  }

  lemma TargetExists(s: Sys, now: Time, refresh: Option<string>, access: Option<string>)
    requires Fits(s) && LogoutTarget(s, now, refresh, access).Some?
    ensures LogoutTarget(s, now, refresh, access).value in s.core.db.sessions
  {
    hide CoreFits;
  }

  lemma ReplayRevokes(cfg: Config, ev: Event, token: string)
    requires ValidEvent(cfg, ev) && Presents(ev, token) && Replaced(ev.pre, token)
    requires VerifyRefreshToken(ev.pre, token, ev.now).Some? && FindActive(ev.pre.core.db, ev.pre.refreshTokens[token].jti).Some?
    ensures ev.out == Failed(TokenReused) && Ended(ev.post, ev.pre.refreshTokens[token].jti)
  {
    hide HexDraw, Drawn, Rotated, SecondsUp;
  }

  /**
   Presenting a token that is not the last one handed out, unexpired and of an active session,
   is answered as reuse, and from then on nothing of that family is accepted.
   */
  lemma ReplayEndsTheFamily(cfg: Config, run: seq<Event>, i: nat, j: nat, token: string, last: string)
    requires ValidRun(cfg, run) && i < j < |run| && Fits(run[0].pre)
    requires Presents(run[i], token) && VerifyRefreshToken(run[i].pre, token, run[i].now).Some?
    requires var id := run[i].pre.refreshTokens[token].jti;
             && LastToken(run, i, id) == Some(last) && last != token
             && id in run[i].pre.core.db.sessions && run[i].pre.core.db.sessions[id].status.Active?
    ensures run[i].out == Failed(TokenReused)
    ensures UsesSession(run[j], run[i].pre.refreshTokens[token].jti) ==> run[j].out.Failed?
  {
    var id := run[i].pre.refreshTokens[token].jti;
    hide Fits, ValidEvent, Replaced, LastToken, UsesSession, Ended, Evolves;
    RunEvolves(cfg, run, i);
    ReplacedIffNotLast(cfg, run, i, token, last);
    SessionHasUser(run[i].pre, id);
    ReplayRevokes(cfg, run[i], token);
    if UsesSession(run[j], id) {
      EndedForGood(cfg, run, i + 1, j, id);
    }
  }

  lemma SessionHasUser(s: Sys, id: Id)
    requires Fits(s) && id in s.core.db.sessions && s.core.db.sessions[id].status.Active?
    ensures FindActive(s.core.db, id).Some?
  {
  }

  ghost predicate AllNearExpiry(s: Sys) {
    forall t | t in s.refreshTokens :: NearExpiry(s, t)
  }

  lemma StaysNear(s: Sys, s1: Sys, handed: Option<string>)
    requires Evolves(s, s1, handed) && AllNearExpiry(s)
    ensures AllNearExpiry(s1)
  {
    hide NewSessions, HandedFor;
  }

  /**
   However often and whenever a session is refreshed, every token of it asks to expire
   within the second after the expiry the session was created with.
   */
  lemma {:induction false} NoExpiryDrift(cfg: Config, run: seq<Event>, n: nat)
    requires ValidRun(cfg, run) && run != [] && n <= |run| && Fits(run[0].pre) && AllNearExpiry(run[0].pre)
    ensures AllNearExpiry(StateAt(run, n))
  {
    hide Fits, ValidEvent, Evolves, AllNearExpiry;
    if n > 0 {
      NoExpiryDrift(cfg, run, n - 1);
      RunEvolves(cfg, run, n - 1);
      StaysNear(run[n - 1].pre, run[n - 1].post, HandedOut(run[n - 1].out));
    }
  }
}
