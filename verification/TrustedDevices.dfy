/** How long a trusted device lasts: exactly until its account disables second factors. */
module TrustedDevices {
  import opened Wrappers
  import opened Rows
  import opened Cache
  import opened Protocol
  import opened Machine
  import opened Consistency
  import opened Frames
  import opened Lockout
  import opened Provenance

  // ---------------------------------------------------------------------------
  // One event
  // ---------------------------------------------------------------------------

  lemma EnrollmentKeepsDevices(cfg: Config, c: Core, now: Time, user: Id, code: string, hex: seq<string>)
    requires HexDraw(hex)
    ensures CompleteTotpEnrollment(cfg, c, now, user, code, hex).0.db.devices == c.db.devices
  {
    hide HexDraw, EnsureRecoveryCodes, SetFlags, EnableTotp;
    RegenerateFrame(c.(db := c.db.(totp := EnableTotp(c.db.totp, user), users := SetFlags(c.db.users, user, Some(true), None, Some(true)))),
                    user, hex);
  }

  /** Of the settings only an accepted disabling touches the devices, and it drops exactly those of the account. */
  lemma ActDevices(cfg: Config, c: Core, now: Time, user: Id, action: Action, e: Entropy)
    requires HexDraw(e.hex)
    ensures var (c1, out) := Act(cfg, c, now, user, action, e);
            c1.db.devices == if action.DisableMfa? && out == Accepted then RevokeAllTrustedDevices(c.db.devices, user) else c.db.devices
  {
    hide HexDraw, CompleteTotpEnrollment, CompleteWebAuthnRegistration, RegenerateRecoveryCodes, SetFlags, CredentialsOf, PasswordMatches,
      CeremonyKey, SetItem, RevokeAllTrustedDevices;
    match action
    case FinishTotp(code) => EnrollmentKeepsDevices(cfg, c, now, user, code, e.hex);
    case FinishWebAuthn(id, registration) => FinishWebAuthnFrame(cfg, c, now, id, user, registration, e.hex);
    case RegenerateCodes(_) => RegenerateFrame(c, user, e.hex);
    case _ =>
  }

  ghost predicate KeptUnlessDisabled(ev: Event) {
    forall u, h :: (u, h) in ev.post.core.db.devices <==> (u, h) in ev.pre.core.db.devices && !Disables(ev, u)
  }

  lemma SettingsDevices(cfg: Config, ev: Event)
    requires ValidEvent(cfg, ev) && ev.req.Settings?
    ensures KeptUnlessDisabled(ev)
  {
    hide HexDraw, Drawn, Act, Authenticate;
    if Authenticate(ev.pre, ev.now, ev.req.access).Ok? {
      ActDevices(cfg, ev.pre.core, ev.now, Authenticate(ev.pre, ev.now, ev.req.access).value, ev.req.action, ev.entropy);
    }
  }

  lemma RestKeepsDevices(cfg: Config, ev: Event)
    requires ValidEvent(cfg, ev) && !ev.req.Settings? && !ev.req.SignIn? && !Answers(ev.req)
    ensures ev.post.core.db.devices == ev.pre.core.db.devices
  {
    hide HexDraw, Drawn, Register, ResendVerification, VerifyEmail, BeginWebAuthnLogin, Refresh, Logout, Order, Authenticate, RequireAdmin;
    var s, now, e := ev.pre, ev.now, ev.entropy;
    match ev.req
    case SignUp(email, password) => RegisterUsers(cfg, s.core, now, email, password, e.uuid, e.token);
    case Resend(email) => ResendFrame(cfg, s.core, now, email, e.token);
    case ConfirmEmail(token) => VerifyEmailFrame(s.core, now, token);
    case StartAssertion(id) => AssertionFrame(cfg, s.core, now, id, e.token);
    case RefreshSession(token) => RefreshFrame(cfg, s, now, token, e);
    case SignOut(refresh, access) => LogoutFrame(s, now, refresh, access);
    case Administer(access, command) =>
      if Authenticate(s, now, access).Ok? {
        OrderFrame(s.core.db, Authenticate(s, now, access).value, command);
      }
  }

  lemma SignInKeepsDevices(cfg: Config, ev: Event)
    requires ValidEvent(cfg, ev) && ev.req.SignIn?
    ensures ev.post.core.db.devices == ev.pre.core.db.devices
  {
    hide HexDraw, Drawn, Protocol.Login, LoginRows;
    LoginFrame(cfg, ev.pre, ev.now, ev.req.email, ev.req.password, ev.req.rememberMe, ev.req.device, ev.entropy);
  }

  /** A device is in the table after an event exactly if it was and its account did not disable, or it was trusted just now. */
  ghost predicate DevicesExact(cfg: Config, ev: Event) {
    forall u, h :: (u, h) in ev.post.core.db.devices <==>
                     ((u, h) in ev.pre.core.db.devices && !Disables(ev, u)) || Trusts(cfg, ev, u, h)
  }

  lemma AnswerDevices(cfg: Config, ev: Event)
    requires ValidEvent(cfg, ev) && Fits(ev.pre) && Answers(ev.req)
    ensures DevicesExact(cfg, ev)
  {
    hide ValidEvent, Fits, FactorProven, LiveChallenge, ChallengeKey, Fewer, AnswerEffect, Authenticate;
    AnswerEvent(cfg, ev);
    AnswerEffectDevices(ev.pre, ev.post, ev.now, ChallengeOf(ev.req), ev.out.login);
    AnswersIff(cfg, ev, if ev.out.login.LoggedIn? then ev.out.login.userId else "");
  }

  lemma AnswerEffectDevices(s: Sys, s1: Sys, now: Time, id: string, out: LoginOutcome)
    requires AnswerEffect(s, s1, now, id, out)
    ensures forall u, h :: (u, h) in s1.core.db.devices <==>
                             (u, h) in s.core.db.devices || (out.LoggedIn? && out.userId == u && out.deviceToken == Some(h.text))
  {
    hide Fewer, LiveChallenge;
    assert forall h: Hash :: Sha256(h.text) == h;
  }

  lemma OnlyAnswersTrust(cfg: Config, ev: Event)
    ensures forall u, h | Trusts(cfg, ev, u, h) :: Answers(ev.req)
  {
    hide LiveChallenge, TotpProven, KeyProven, Unused;
  }

  lemma EventDevices(cfg: Config, ev: Event)
    requires ValidEvent(cfg, ev) && Fits(ev.pre)
    ensures DevicesExact(cfg, ev)
  {
    hide ValidEvent, Fits, Trusts;
    if Answers(ev.req) {
      AnswerDevices(cfg, ev);
    } else {
      OnlyAnswersTrust(cfg, ev);
      if ev.req.Settings? {
        SettingsDevices(cfg, ev);
      } else if ev.req.SignIn? {
        SignInKeepsDevices(cfg, ev);
      } else {
        RestKeepsDevices(cfg, ev);
      }
    }
  }

  // ---------------------------------------------------------------------------
  // A device is trusted once
  // ---------------------------------------------------------------------------

  lemma FinishKeepsCookie(cfg: Config, s: Sys, now: Time, u: Id, d: Option<string>, e: Entropy)
    ensures var out := FinishMfaLogin(cfg, s, now, u, d, e).1; out.LoggedIn? ==> out.deviceToken == d
  {
  }

  lemma AnsweredCookie(cfg: Config, c: Core, now: Time, id: string, code: string, key: string, remember: bool, token: string)
    ensures var r := VerifyTotpLogin(cfg, c, now, id, code, remember, token).1; r.Ok? ==> r.value.deviceToken in {None, Some(token)}
    ensures var r := VerifyWebAuthnLogin(cfg, c, now, id, key, code, remember, token).1; r.Ok? ==> r.value.deviceToken in {None, Some(token)}
  {
    hide ChallengeUser, ChallengeKey, CeremonyKey, GetItem, UpdateCounter, CredentialsOf;
  }

  lemma CookieOfAnswers(cfg: Config, s: Sys, now: Time, id: string, code: string, key: string, remember: bool, e: Entropy)
    ensures var out := CompleteMfaTotp(cfg, s, now, id, code, remember, e).1; out.LoggedIn? ==> out.deviceToken in {None, Some(e.token)}
    ensures var out := CompleteMfaRecovery(cfg, s, now, id, code, e).1; out.LoggedIn? ==> out.deviceToken == None
    ensures var out := CompleteWebAuthnMfa(cfg, s, now, id, key, code, remember, e).1; out.LoggedIn? ==> out.deviceToken in {None, Some(e.token)}
  {
    hide VerifyTotpLogin, VerifyRecoveryLogin, VerifyWebAuthnLogin, FinishMfaLogin;
    AnsweredCookie(cfg, s.core, now, id, code, key, remember, e.token);
    var (c1, r1) := VerifyTotpLogin(cfg, s.core, now, id, code, remember, e.token);
    if r1.Ok? {
      FinishKeepsCookie(cfg, s.(core := c1), now, r1.value.userId, r1.value.deviceToken, e);
    }
    var (c2, r2) := VerifyRecoveryLogin(s.core, now, id, code);
    if r2.Ok? {
      FinishKeepsCookie(cfg, s.(core := c2), now, r2.value, None, e);
    }
    var (c3, r3) := VerifyWebAuthnLogin(cfg, s.core, now, id, key, code, remember, e.token);
    if r3.Ok? {
      FinishKeepsCookie(cfg, s.(core := c3), now, r3.value.userId, r3.value.deviceToken, e);
    }
  }

  /** The cookie of a newly trusted device is newly drawn. */
  lemma TrustsDrawn(cfg: Config, ev: Event, u: Id, h: Hash)
    requires ValidEvent(cfg, ev) && Trusts(cfg, ev, u, h)
    ensures h.text !in ev.pre.drawn
  {
    OnlyAnswersTrust(cfg, ev);
    DrawnParts(ev.entropy);
    hide HexDraw, Drawn, FactorProven, CompleteMfaTotp, CompleteMfaRecovery, CompleteWebAuthnMfa;
    var s, now, e := ev.pre, ev.now, ev.entropy;
    match ev.req
    case AnswerTotp(id, code, remember) => CookieOfAnswers(cfg, s, now, id, code, "", remember, e);
    case AnswerRecovery(id, code) => CookieOfAnswers(cfg, s, now, id, code, "", false, e);
    case AnswerWebAuthn(id, key, assertion, remember) => CookieOfAnswers(cfg, s, now, id, assertion, key, remember, e);
  }

  lemma DevicesDrawn(s: Sys, u: Id, h: Hash)
    requires Fits(s) && (u, h) in s.core.db.devices
    ensures h.text in s.drawn
  {
    hide UsersFit, CacheFits, SessionsFit;
  }

  lemma {:induction false} StaysDrawn(cfg: Config, run: seq<Event>, i: nat, j: nat)
    requires ValidRun(cfg, run) && run != [] && i <= j <= |run|
    ensures StateAt(run, i).drawn <= StateAt(run, j).drawn
    decreases j
  {
    hide HexDraw, Drawn, Handle;
    if i < j {
      StaysDrawn(cfg, run, i, j - 1);
      assert ValidEvent(cfg, run[j - 1]);
    }
  }

  // ---------------------------------------------------------------------------
  // Whole runs
  // ---------------------------------------------------------------------------

  ghost predicate NeverDisables(run: seq<Event>, i: nat, j: nat, u: Id)
    requires j <= |run|
  {
    forall k | i <= k < j :: !Disables(run[k], u)
  }

  /**
   A device in the table is in it at any later point, however late, if and only if its account
   has not disabled second factors in between.
   */
  lemma {:induction false} TrustedUntilDisabled(cfg: Config, run: seq<Event>, i: nat, j: nat, u: Id, h: Hash)
    requires ValidRun(cfg, run) && run != [] && i <= j <= |run| && Fits(run[0].pre) && (u, h) in StateAt(run, i).core.db.devices
    ensures (u, h) in StateAt(run, j).core.db.devices <==> NeverDisables(run, i, j, u)
    decreases j
  {
    hide ValidEvent, Fits, Disables, Trusts;
    if i < j {
      TrustedUntilDisabled(cfg, run, i, j - 1, u, h);
      RunFits(cfg, run, i);
      RunFits(cfg, run, j - 1);
      DevicesDrawn(StateAt(run, i), u, h);
      StaysDrawn(cfg, run, i, j - 1);
      var ev := run[j - 1];
      EventDevices(cfg, ev);
      if Trusts(cfg, ev, u, h) {
        TrustsDrawn(cfg, ev, u, h);
      }
    }
  }

  /** Of the runs of a service that starts with no devices: the table holds exactly those trusted and not disabled since. */
  lemma DevicesAreTrustedSince(cfg: Config, run: seq<Event>, n: nat, u: Id, h: Hash)
    requires ValidRun(cfg, run) && run != [] && n <= |run| && Start(run[0].pre)
    ensures (u, h) in StateAt(run, n).core.db.devices <==> TrustedSince(cfg, run, n, u, h)
  {
    hide ValidEvent, Fits, Disables, Trusts, ChallengeKey;
    if (u, h) in StateAt(run, n).core.db.devices {
      DevicesTrace(cfg, run, n, u, h);
    }
    if i :| 0 <= i < n && Trusts(cfg, run[i], u, h) && forall j | i < j < n :: !Disables(run[j], u) {
      RunFits(cfg, run, i);
      EventDevices(cfg, run[i]);
      TrustedUntilDisabled(cfg, run, i + 1, n, u, h);
    }
  }

  // ---------------------------------------------------------------------------
  // What the cookie is good for
  // ---------------------------------------------------------------------------

  /** The second-factor gate: a right password leads to a challenge exactly for an account with a second factor and no trusted device. */
  lemma GateIff(cfg: Config, ev: Event, u: Id)
    requires ValidEvent(cfg, ev) && PasswordProven(cfg, ev, u)
    ensures ev.out.Login? && !ev.out.login.Rejected? && ev.out.login.userId == u
    ensures ev.out.login.Challenged? <==> ev.pre.core.db.users[u].mfaEnabled && !DeviceTrusted(ev.pre.core, u, ev.req.device)
  {
    hide HexDraw, Drawn, PasswordAccepted, AfterUnlock, FailedLogin, PasswordMatches, Refusal, DeviceTrusted;
    var s, req := ev.pre, ev.req;
    var t := s.(core := s.core.(db := s.core.db.(users := AfterUnlock(s.core.db.users, u, ev.now))));
    LoginAccounts(cfg, s.core.db.users, u, s.core.db.users[u], ev.now);
    AcceptedGate(cfg, t, ev.now, u, s.core.db.users[u], req.rememberMe, req.device, ev.entropy);
    TrustReadsDevices(s.core, t.core, u, req.device);
  }

  lemma TrustReadsDevices(a: Core, b: Core, u: Id, device: Option<string>)
    requires a.db.devices == b.db.devices
    ensures DeviceTrusted(a, u, device) == DeviceTrusted(b, u, device)
  {
  }

  lemma AcceptedGate(cfg: Config, s: Sys, now: Time, u: Id, row: User, rememberMe: bool, device: Option<string>, e: Entropy)
    requires u in s.core.db.users
    ensures var out := PasswordAccepted(cfg, s, now, u, row, rememberMe, device, e).1;
            && !out.Rejected? && out.userId == u
            && (out.Challenged? <==> row.mfaEnabled && !DeviceTrusted(s.core, u, device))
  {
    hide IssueTokens, AvailableMethods;
    assert DeviceTrusted(s.core.(db := s.core.db.(users := MarkLoginSuccess(s.core.db.users, u))), u, device) == DeviceTrusted(s.core, u, device);
  }

  /**
   The stored row has no time to live: with the cookie of a device trusted at `i`, the password
   alone logs in at any later event, however much later, unless the account has disabled.
   */
  lemma CookieLogsInAtAnyTime(cfg: Config, run: seq<Event>, i: nat, n: nat, u: Id, cookie: string)
    requires ValidRun(cfg, run) && i < n < |run| && Fits(run[0].pre) && Trusts(cfg, run[i], u, Sha256(cookie)) && cookie != ""
    requires NeverDisables(run, i + 1, n, u)
    requires PasswordProven(cfg, run[n], u) && run[n].req.device == Some(cookie)
    ensures LogsIn(run[n], u)
  {
    hide ValidEvent, Fits, Disables, Trusts, PasswordProven;
    RunFits(cfg, run, i);
    EventDevices(cfg, run[i]);
    TrustedUntilDisabled(cfg, run, i + 1, n, u, Sha256(cookie));
    ProvenHasUser(cfg, run[n], u);
    GateIff(cfg, run[n], u);
  }
}
