/** How long a session is created for, and what becomes of "remember me". */
module SessionLifetimes {
  import opened Wrappers
  import opened Rows
  import opened Cache
  import opened Protocol
  import opened Machine
  import opened Consistency
  import opened Lockout
  import opened Rotation
  import opened Provenance

  /** A login that was asked to be remembered and took no challenge. */
  predicate Remembered(ev: Event) {
    ev.req.SignIn? && ev.req.rememberMe
  }

  /** The login's session, as its token names it, is its account's, active, and created for `ttl` seconds. */
  predicate LastsFor(s: Sys, out: LoginOutcome, now: Time, ttl: int) {
    out.LoggedIn? ==>
      && out.tokens.expiresIn == ttl && out.tokens.refresh in s.refreshTokens
      && var id := s.refreshTokens[out.tokens.refresh].jti;
         && id in s.core.db.sessions && s.core.db.sessions[id].expiresAt == now + ttl * 1000
         && s.core.db.sessions[id].userId == out.userId && s.core.db.sessions[id].status.Active?
  }

  lemma IssuedLasts(cfg: Config, s: Sys, now: Time, u: Id, rememberMe: bool, e: Entropy, d: Option<string>)
    ensures var (s1, tokens) := IssueTokens(cfg, s, now, u, rememberMe, e);
            LastsFor(s1, LoggedIn(u, tokens, d), now, SessionTtl(cfg, rememberMe))
  {
    hide SessionTtl;
  }

  lemma FinishLasts(cfg: Config, s: Sys, now: Time, u: Id, d: Option<string>, e: Entropy)
    ensures var (s1, out) := FinishMfaLogin(cfg, s, now, u, d, e); LastsFor(s1, out, now, SessionTtl(cfg, false))
  {
    hide IssueTokens, SessionTtl;
    IssuedLasts(cfg, s, now, u, false, e, d);
  }

  lemma AnswersLast(cfg: Config, s: Sys, now: Time, id: string, code: string, key: string, remember: bool, e: Entropy)
    ensures var (s1, out) := CompleteMfaTotp(cfg, s, now, id, code, remember, e); LastsFor(s1, out, now, SessionTtl(cfg, false))
    ensures var (s1, out) := CompleteMfaRecovery(cfg, s, now, id, code, e); LastsFor(s1, out, now, SessionTtl(cfg, false))
    ensures var (s1, out) := CompleteWebAuthnMfa(cfg, s, now, id, key, code, remember, e); LastsFor(s1, out, now, SessionTtl(cfg, false))
  {
    hide FinishMfaLogin, VerifyTotpLogin, VerifyRecoveryLogin, VerifyWebAuthnLogin, SessionTtl;
    var (c1, r1) := VerifyTotpLogin(cfg, s.core, now, id, code, remember, e.token);
    if r1.Ok? {
      FinishLasts(cfg, s.(core := c1), now, r1.value.userId, r1.value.deviceToken, e);
    }
    var (c2, r2) := VerifyRecoveryLogin(s.core, now, id, code);
    if r2.Ok? {
      FinishLasts(cfg, s.(core := c2), now, r2.value, None, e);
    }
    var (c3, r3) := VerifyWebAuthnLogin(cfg, s.core, now, id, key, code, remember, e.token);
    if r3.Ok? {
      FinishLasts(cfg, s.(core := c3), now, r3.value.userId, r3.value.deviceToken, e);
    }
  }

  lemma AcceptedLasts(cfg: Config, s: Sys, now: Time, id: Id, row: User, rememberMe: bool, device: Option<string>, e: Entropy)
    ensures var (s1, out) := PasswordAccepted(cfg, s, now, id, row, rememberMe, device, e);
            LastsFor(s1, out, now, SessionTtl(cfg, rememberMe))
  {
    hide IssueTokens, DeviceTrusted, MarkLoginSuccess, AvailableMethods, SessionTtl, ChallengeKey, SetItem;
    IssuedLasts(cfg, s.(core := s.core.(db := s.core.db.(users := MarkLoginSuccess(s.core.db.users, id)))), now, id, rememberMe, e, None);
  }

  lemma SignInLasts(cfg: Config, s: Sys, now: Time, email: string, password: string, rememberMe: bool, device: Option<string>, e: Entropy)
    ensures var (s1, out) := Protocol.Login(cfg, s, now, email, password, rememberMe, device, e);
            LastsFor(s1, out, now, SessionTtl(cfg, rememberMe))
  {
    hide PasswordAccepted, AfterUnlock, FailedLogin, PasswordMatches, Refusal, SessionTtl;
    if FindByEmail(s.core.db, email).Some? {
      var id := FindByEmail(s.core.db, email).value;
      var t := s.(core := s.core.(db := s.core.db.(users := AfterUnlock(s.core.db.users, id, now))));
      AcceptedLasts(cfg, t, now, id, s.core.db.users[id], rememberMe, device, e);
    }
  }

  lemma LastingIgnoresDrawn(s: Sys, drawn: set<string>, out: LoginOutcome, now: Time, ttl: int)
    ensures LastsFor(s.(drawn := drawn), out, now, ttl) == LastsFor(s, out, now, ttl)
  {
  }

  /**
   A login gets the long lifetime exactly when it is a sign-in that asked to be remembered and
   was answered with tokens at once; any login by answering a challenge gets the short one.
   */
  lemma LoginLasts(cfg: Config, ev: Event, u: Id)
    requires ValidEvent(cfg, ev) && Fits(ev.pre) && LogsIn(ev, u)
    ensures LastsFor(ev.post, ev.out.login, ev.now, if Remembered(ev) then cfg.refreshTtl else cfg.sessionTimeoutMinutes * 60)
    ensures ev.req.SignIn? || Answers(ev.req)
  {
    hide ValidEvent, Fits, LastsFor, ChallengeStep, DeviceStep, LoginStep, LogsIn;
    EventSteps(cfg, ev);
    LoginComesFrom(cfg, ev, u);
    RequestLasts(cfg, ev);
    TtlIs(cfg);
  }

  lemma TtlIs(cfg: Config)
    ensures SessionTtl(cfg, true) == cfg.refreshTtl && SessionTtl(cfg, false) == cfg.sessionTimeoutMinutes * 60
  {
  }

  lemma RequestLasts(cfg: Config, ev: Event)
    requires ValidEvent(cfg, ev) && (ev.req.SignIn? || Answers(ev.req))
    ensures ev.out.Login? && LastsFor(ev.post, ev.out.login, ev.now, SessionTtl(cfg, Remembered(ev)))
  {
    hide HexDraw, Drawn, Protocol.Login, CompleteMfaTotp, CompleteMfaRecovery, CompleteWebAuthnMfa, LastsFor, SessionTtl;
    var s, now, e := ev.pre, ev.now, ev.entropy;
    var s1 := Handle(cfg, s, now, ev.req, e).0;
    match ev.req {
      case SignIn(email, password, rememberMe, device) => SignInLasts(cfg, s, now, email, password, rememberMe, device, e);
      case AnswerTotp(id, code, remember) => AnswersLast(cfg, s, now, id, code, "", remember, e);
      case AnswerRecovery(id, code) => AnswersLast(cfg, s, now, id, code, "", false, e);
      case AnswerWebAuthn(id, key, assertion, remember) => AnswersLast(cfg, s, now, id, assertion, key, remember, e);
    }
    LastingIgnoresDrawn(s1, ev.post.drawn, ev.out.login, now, SessionTtl(cfg, Remembered(ev)));
  }

  lemma LoginComesFrom(cfg: Config, ev: Event, u: Id)
    requires LoginStep(cfg, ev) && LogsIn(ev, u)
    ensures ev.req.SignIn? || Answers(ev.req)
  {
    hide FactorProven, PasswordMatches, Refusal;
  }

  /** Over runs: a session there ever is expires as long after its creation as its login was good for, and never otherwise. */
  ghost predicate CreatedFor(cfg: Config, run: seq<Event>, n: nat, id: Id, expiresAt: Time)
    requires n <= |run|
  {
    exists i, u | 0 <= i < n :: Creates(run[i], id, u) && expiresAt == CreationExpiry(cfg, run[i])
  }

  function CreationExpiry(cfg: Config, ev: Event): Time {
    ev.now + (if Remembered(ev) then cfg.refreshTtl else cfg.sessionTimeoutMinutes * 60) * 1000
  }

  lemma CreationLasts(cfg: Config, ev: Event, id: Id)
    requires ValidEvent(cfg, ev) && Fits(ev.pre) && Fits(ev.post)
    requires id in ev.post.core.db.sessions && id !in ev.pre.core.db.sessions
    ensures Creates(ev, id, ev.post.core.db.sessions[id].userId) && ev.post.core.db.sessions[id].expiresAt == CreationExpiry(cfg, ev)
  {
    hide ValidEvent, Fits;
    NewSessionCreated(cfg, ev, id);
    LoginLasts(cfg, ev, ev.post.core.db.sessions[id].userId);
  }

  lemma {:induction false} SessionsLast(cfg: Config, run: seq<Event>, n: nat, id: Id)
    requires ValidRun(cfg, run) && run != [] && n <= |run| && Start(run[0].pre)
    requires id in StateAt(run, n).core.db.sessions
    ensures CreatedFor(cfg, run, n, id, StateAt(run, n).core.db.sessions[id].expiresAt)
  {
    hide ValidEvent, Fits, Creates, NewSessions, TokensGrow, HandedOut, HandedFor, CreationExpiry;
    if n > 0 {
      RunEvolves(cfg, run, n - 1);
      RunFits(cfg, run, n);
      if id in run[n - 1].pre.core.db.sessions {
        SessionsLast(cfg, run, n - 1, id);
      } else {
        CreationLasts(cfg, run[n - 1], id);
      }
    }
  }

  /**
   So what the password step chose is lost: answering a challenge that was opened with
   "remember me" creates a session for the session timeout.
   */
  lemma RememberMeForgotten(cfg: Config, ev: Event, u: Id)
    requires ValidEvent(cfg, ev) && Fits(ev.pre) && Answers(ev.req) && FactorProven(cfg, ev, u)
    requires ChallengeKey(ChallengeOf(ev.req)) in ev.pre.core.cache
    requires var state := ev.pre.core.cache[ChallengeKey(ChallengeOf(ev.req))].value; state.LoginChallenge? && state.rememberMe
    ensures LogsIn(ev, u) && LastsFor(ev.post, ev.out.login, ev.now, cfg.sessionTimeoutMinutes * 60)
  {
    hide ValidEvent, Fits, FactorProven, LastsFor, ChallengeKey;
    AnswersIff(cfg, ev, u);
    LoginLasts(cfg, ev, u);
  }
}
