/** The second-factor flags of an account and the material behind them agree. */
module MfaMaterial {
  import opened Wrappers
  import opened Rows
  import opened Cache
  import opened Protocol
  import opened Machine
  import opened Consistency
  import opened Frames

  predicate HasKey(db: Tables, u: Id) {
    CredentialsOf(db.credentials, u) != {}
  }

  predicate TotpActive(db: Tables, u: Id) {
    u in db.totp && db.totp[u].enabled
  }

  /** `totpEnabled` alone does not say that a secret is active: starting over leaves it set. */
  predicate Backed(db: Tables, u: Id)
    requires u in db.users
  {
    var user := db.users[u];
    && (user.webauthnEnabled <==> HasKey(db, u))
    && (TotpActive(db, u) || HasKey(db, u) ==> user.mfaEnabled)
    && (user.mfaEnabled ==> u in db.totp || HasKey(db, u))
    && (user.totpEnabled ==> u in db.totp)
  }

  ghost predicate AllBacked(db: Tables) {
    forall u | u in db.users :: Backed(db, u)
  }

  /** The tables behind the flags of `u` and the flags themselves are as they were. */
  predicate SameMaterial(a: Tables, b: Tables, u: Id) {
    && u in a.users && u in b.users && SameFlags(a.users[u], b.users[u])
    && (u in a.totp <==> u in b.totp) && (u in a.totp ==> a.totp[u].enabled == b.totp[u].enabled)
    && CredentialsOf(a.credentials, u) == CredentialsOf(b.credentials, u)
  }

  lemma SameMaterialBacked(a: Tables, b: Tables, u: Id)
    requires SameMaterial(a, b, u) && Backed(a, u)
    ensures Backed(b, u)
  {
  }

  // Settings, one action at a time

  lemma FinishTotpBacked(cfg: Config, c: Core, now: Time, user: Id, code: string, e: Entropy)
    requires HexDraw(e.hex) && user in c.db.users && AllBacked(c.db)
    ensures AllBacked(CompleteTotpEnrollment(cfg, c, now, user, code, e.hex).0.db)
  {
    hide HexDraw, EnsureRecoveryCodes;
    var c1 := c.(db := c.db.(totp := EnableTotp(c.db.totp, user), users := SetFlags(c.db.users, user, Some(true), None, Some(true))));
    RegenerateFrame(c1, user, e.hex);
  }

  lemma KeyAddedBacked(a: Tables, b: Tables, user: Id)
    requires AllBacked(a) && KeyAdded(a, b, user)
    ensures AllBacked(b)
  {
    hide CredentialsOf;
  }

  lemma FinishWebAuthnBacked(cfg: Config, c: Core, now: Time, id: string, user: Id, registration: string, e: Entropy)
    requires HexDraw(e.hex) && AllBacked(c.db)
    ensures AllBacked(CompleteWebAuthnRegistration(cfg, c, now, id, user, registration, e.hex).0.db)
  {
    hide HexDraw, CompleteWebAuthnRegistration, AllBacked, KeyAdded;
    FinishWebAuthnFrame(cfg, c, now, id, user, registration, e.hex);
    var db := CompleteWebAuthnRegistration(cfg, c, now, id, user, registration, e.hex).0.db;
    if KeyAdded(c.db, db, user) {
      KeyAddedBacked(c.db, db, user);
    }
  }

  lemma RemovedKey(credentials: map<string, Credential>, user: Id, id: string)
    ensures forall u | u != user :: CredentialsOf(DeleteCredential(credentials, user, id), u) == CredentialsOf(credentials, u)
    ensures id in CredentialsOf(credentials, user) ==> CredentialsOf(credentials, user) != {}
  {
  }

  lemma RemoveKeyBacked(c: Core, user: Id, id: string)
    requires user in c.db.users && AllBacked(c.db)
    ensures AllBacked(RemoveWebAuthnCredential(c, user, id).0.db)
  {
    hide CredentialsOf, DeleteCredential;
    RemovedKey(c.db.credentials, user, id);
  }

  lemma DisableBacked(cfg: Config, c: Core, user: Id, password: string)
    requires user in c.db.users && AllBacked(c.db)
    ensures AllBacked(Disable(cfg, c, user, password).0.db)
  {
    hide PasswordMatches;
    var credentials := c.db.credentials - CredentialsOf(c.db.credentials, user);
    assert CredentialsOf(credentials, user) == {};
    assert forall u | u != user :: CredentialsOf(credentials, u) == CredentialsOf(c.db.credentials, u);
  }

  lemma ActBacked(cfg: Config, c: Core, now: Time, user: Id, action: Action, e: Entropy)
    requires HexDraw(e.hex) && user in c.db.users && AllBacked(c.db)
    ensures AllBacked(Act(cfg, c, now, user, action, e).0.db)
  {
    match action
    case StartTotp =>
    case FinishTotp(code) => FinishTotpBacked(cfg, c, now, user, code, e);
    case StartWebAuthn =>
    case FinishWebAuthn(id, registration) => FinishWebAuthnBacked(cfg, c, now, id, user, registration, e);
    case RegenerateCodes(password) => RegenerateFrame(c, user, e.hex);
    case RemoveKey(id) => RemoveKeyBacked(c, user, id);
    case DisableMfa(password) => DisableBacked(cfg, c, user, password);
  }

  // Everything else leaves flags and material as they were

  /** The same second-factor tables, as far as the flags can tell. */
  predicate SameFactors(a: Tables, b: Tables) {
    a.totp == b.totp && forall u | u in a.users :: CredentialsOf(a.credentials, u) == CredentialsOf(b.credentials, u)
  }

  lemma UnchangedFlagsBacked(a: Tables, b: Tables)
    requires AllBacked(a) && SameFactors(a, b) && FlagsKeptIn(a.users, b.users)
    ensures AllBacked(b)
  {
    forall u | u in b.users ensures Backed(b, u) {
      SameMaterialBacked(a, b, u);
    }
  }

  lemma SignUpBacked(cfg: Config, s: Sys, now: Time, email: string, password: string, e: Entropy)
    requires Fits(s) && FreshDraw(s, e) && AllBacked(s.core.db)
    ensures AllBacked(Register(cfg, s.core, now, email, password, e.uuid, e.token).db)
  {
    DrawnParts(e);
    NotYetUsedAsUser(s, e.uuid);
    assert CredentialsOf(s.core.db.credentials, e.uuid) == {};
    RegisterUsers(cfg, s.core, now, email, password, e.uuid, e.token);
  }

  lemma ConfirmBacked(c: Core, now: Time, token: string)
    requires AllBacked(c.db)
    ensures AllBacked(VerifyEmail(c, now, token).0.db)
  {
    var db := VerifyEmail(c, now, token).0.db;
    assert db == c.db.(users := db.users, verifications := db.verifications);
    VerifyEmailUsers(c, now, token);
    hide VerifyEmail, CredentialsOf;
    UnchangedFlagsBacked(c.db, db);
  }

  lemma SignInBacked(cfg: Config, s: Sys, now: Time, email: string, password: string, rememberMe: bool,
                     device: Option<string>, e: Entropy)
    requires AllBacked(s.core.db)
    ensures AllBacked(Protocol.Login(cfg, s, now, email, password, rememberMe, device, e).0.core.db)
  {
    hide Protocol.Login, LoginRows, CredentialsOf, AllBacked, FindByEmail;
    LoginFrame(cfg, s, now, email, password, rememberMe, device, e);
    LoginRowsChange(cfg, s.core.db, now, email, password);
    UnchangedFlagsBacked(s.core.db, Protocol.Login(cfg, s, now, email, password, rememberMe, device, e).0.core.db);
  }

  lemma OrderBacked(db: Tables, actor: Id, command: Command)
    requires AllBacked(db)
    ensures AllBacked(Order(db, actor, command).0)
  {
    hide AllBacked, CredentialsOf, Order, FlagsKeptIn;
    OrderFrame(db, actor, command);
    OrderKeepsFlags(db, actor, command);
    UnchangedFlagsBacked(db, Order(db, actor, command).0);
  }

  lemma AnswersBacked(cfg: Config, s: Sys, now: Time, id: string, code: string, key: string, remember: bool, e: Entropy)
    requires AllBacked(s.core.db)
    ensures AllBacked(CompleteMfaTotp(cfg, s, now, id, code, remember, e).0.core.db)
    ensures AllBacked(CompleteMfaRecovery(cfg, s, now, id, code, e).0.core.db)
    ensures AllBacked(CompleteWebAuthnMfa(cfg, s, now, id, key, code, remember, e).0.core.db)
  {
    hide AllBacked, CredentialsOf, CompleteMfaTotp, CompleteMfaRecovery, CompleteWebAuthnMfa;
    AnswerFrame(cfg, s, now, id, code, key, remember, e);
    UnchangedFlagsBacked(s.core.db, CompleteMfaTotp(cfg, s, now, id, code, remember, e).0.core.db);
    UnchangedFlagsBacked(s.core.db, CompleteMfaRecovery(cfg, s, now, id, code, e).0.core.db);
    UnchangedFlagsBacked(s.core.db, CompleteWebAuthnMfa(cfg, s, now, id, key, code, remember, e).0.core.db);
  }

  lemma OthersBacked(cfg: Config, s: Sys, now: Time, email: string, id: string, token: string, e: Entropy,
                     refresh: Option<string>, access: Option<string>)
    requires AllBacked(s.core.db)
    ensures AllBacked(ResendVerification(cfg, s.core, now, email, e.token).db)
    ensures AllBacked(BeginWebAuthnLogin(cfg, s.core, now, id, e.token).0.db)
    ensures AllBacked(Refresh(cfg, s, now, token, e).0.core.db)
    ensures AllBacked(Logout(s, now, refresh, access).0.core.db)
  {
    hide AllBacked, CredentialsOf, ResendVerification, BeginWebAuthnLogin, Refresh, Logout;
    ResendFrame(cfg, s.core, now, email, e.token);
    AssertionFrame(cfg, s.core, now, id, e.token);
    RefreshFrame(cfg, s, now, token, e);
    LogoutFrame(s, now, refresh, access);
    UnchangedFlagsBacked(s.core.db, ResendVerification(cfg, s.core, now, email, e.token).db);
    UnchangedFlagsBacked(s.core.db, Refresh(cfg, s, now, token, e).0.core.db);
    UnchangedFlagsBacked(s.core.db, Logout(s, now, refresh, access).0.core.db);
  }

  lemma StepBacked(cfg: Config, s: Sys, now: Time, req: Request, e: Entropy)
    requires Fits(s) && FreshDraw(s, e) && AllBacked(s.core.db)
    ensures AllBacked(Step(cfg, s, now, req, e).0.core.db)
  {
    hide Fits, AllBacked, Drawn, HexDraw, Act, Order, Protocol.Login, CompleteMfaTotp, CompleteMfaRecovery,
      CompleteWebAuthnMfa, Refresh, Logout, Register, ResendVerification, VerifyEmail, BeginWebAuthnLogin, Authenticate, RequireAdmin;
    match req
    case SignUp(email, password) => SignUpBacked(cfg, s, now, email, password, e);
    case Resend(email) => OthersBacked(cfg, s, now, email, "", "", e, None, None);
    case ConfirmEmail(token) => ConfirmBacked(s.core, now, token);
    case SignIn(email, password, rememberMe, device) => SignInBacked(cfg, s, now, email, password, rememberMe, device, e);
    case AnswerTotp(id, code, remember) => AnswersBacked(cfg, s, now, id, code, "", remember, e);
    case AnswerRecovery(id, code) => AnswersBacked(cfg, s, now, id, code, "", false, e);
    case StartAssertion(id) => OthersBacked(cfg, s, now, "", id, "", e, None, None);
    case AnswerWebAuthn(id, key, assertion, remember) => AnswersBacked(cfg, s, now, id, assertion, key, remember, e);
    case RefreshSession(token) => OthersBacked(cfg, s, now, "", "", token, e, None, None);
    case SignOut(refresh, access) => OthersBacked(cfg, s, now, "", "", "", e, refresh, access);
    case Settings(access, action) =>
      AuthenticatedUser(s, now, access);
      if Authenticate(s, now, access).Ok? {
        ActBacked(cfg, s.core, now, Authenticate(s, now, access).value, action, e);
      }
    case Administer(access, command) =>
      if Authenticate(s, now, access).Ok? {
        OrderBacked(s.core.db, Authenticate(s, now, access).value, command);
      }
  }

  /** Flags and material agree at every point of every run that starts so. */
  lemma {:induction false} MaterialAgrees(cfg: Config, run: seq<Event>, n: nat)
    requires ValidRun(cfg, run) && run != [] && n <= |run| && Fits(run[0].pre) && AllBacked(run[0].pre.core.db)
    ensures AllBacked(StateAt(run, n).core.db)
  {
    hide Fits, FreshDraw, Step, AllBacked;
    if n > 0 {
      MaterialAgrees(cfg, run, n - 1);
      RunFits(cfg, run, n - 1);
      var ev := run[n - 1];
      assert ValidEvent(cfg, ev);
      StepBacked(cfg, ev.pre, ev.now, ev.req, ev.entropy);
    }
  }

  /** So every method a challenge offers has something stored behind it when it is issued. */
  lemma OfferedMethodsAreBacked(cfg: Config, run: seq<Event>, n: nat)
    requires ValidRun(cfg, run) && n < |run| && Fits(run[0].pre) && AllBacked(run[0].pre.core.db)
    requires run[n].out.Login? && run[n].out.login.Challenged?
    ensures var db, u := run[n].post.core.db, run[n].out.login.userId;
            var offered := run[n].out.login.challenge.availableMethods;
            && (MethodTotp in offered ==> u in db.totp)
            && (MethodWebAuthn in offered ==> HasKey(db, u))
            && MethodRecovery in offered && run[n].out.login.challenge.method_ == offered[0]
  {
    hide ValidEvent, Fits, AllBacked;
    MaterialAgrees(cfg, run, n + 1);
    ChallengeReadsFlags(cfg, run[n]);
    BackedMethods(run[n].post.core.db, run[n].out.login.userId);
  }

  lemma BackedMethods(db: Tables, u: Id)
    requires AllBacked(db) && u in db.users
    ensures var offered := AvailableMethods(db.users[u]);
            (MethodTotp in offered ==> u in db.totp) && (MethodWebAuthn in offered ==> HasKey(db, u)) && MethodRecovery in offered
  {
    assert Backed(db, u);
  }

  /** Only a correct password leads to a challenge. */
  lemma OnlySignInChallenges(cfg: Config, ev: Event)
    requires ValidEvent(cfg, ev) && ev.out.Login? && ev.out.login.Challenged?
    ensures ev.req.SignIn?
  {
    hide Drawn, HexDraw, Protocol.Login, IssueTokens, VerifyTotpLogin, VerifyRecoveryLogin, VerifyWebAuthnLogin,
      Refresh, Logout, Act, Order, Authenticate, Register, ResendVerification, VerifyEmail, BeginWebAuthnLogin;
    assert ev.out == Handle(cfg, ev.pre, ev.now, ev.req, ev.entropy).1;
    match ev.req
    case Settings(access, action) =>
      if Authenticate(ev.pre, ev.now, access).Ok? {
        SettingsDoNotLogIn(cfg, ev.pre.core, ev.now, Authenticate(ev.pre, ev.now, access).value, action, ev.entropy);
      }
    case Administer(access, command) => OrdersDoNotLogIn(ev.pre.core.db, command);
    case _ =>
  }

  lemma ChallengeIssued(cfg: Config, s: Sys, now: Time, id: Id, read: User, rememberMe: bool, device: Option<string>, e: Entropy)
    requires PasswordAccepted(cfg, s, now, id, read, rememberMe, device, e).1.Challenged?
    ensures var (s1, out) := PasswordAccepted(cfg, s, now, id, read, rememberMe, device, e);
            && out.userId == id && id in s1.core.db.users
            && out.challenge.availableMethods == AvailableMethods(s1.core.db.users[id])
            && out.challenge.method_ == out.challenge.availableMethods[0]
  {
    hide MarkLoginSuccess, DeviceTrusted, AvailableMethods;
  }

  lemma ChallengeReadsFlags(cfg: Config, ev: Event)
    requires ValidEvent(cfg, ev) && ev.out.Login? && ev.out.login.Challenged?
    ensures var u, challenge := ev.out.login.userId, ev.out.login.challenge;
            && u in ev.post.core.db.users
            && challenge.availableMethods == AvailableMethods(ev.post.core.db.users[u])
            && challenge.method_ == challenge.availableMethods[0]
  {
    hide Drawn, HexDraw, AfterUnlock, FailedLogin, Refusal, PasswordAccepted, AvailableMethods, PasswordMatches;
    OnlySignInChallenges(cfg, ev);
    var req := ev.req;
    var id := FindByEmail(ev.pre.core.db, req.email).value;
    var db := ev.pre.core.db;
    var s1 := ev.pre.(core := ev.pre.core.(db := db.(users := AfterUnlock(db.users, id, ev.now))));
    ChallengeIssued(cfg, s1, ev.now, id, db.users[id], req.rememberMe, req.device, ev.entropy);
  }
}
