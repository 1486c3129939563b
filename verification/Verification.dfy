/** How an address comes to be verified: only with the last token mailed to it, in time. */
module Verification {
  import opened Wrappers
  import opened Rows
  import opened Protocol
  import opened Machine
  import opened Consistency
  import opened Frames

  predicate AddressVerified(db: Tables, u: Id) {
    u in db.users && db.users[u].emailVerified
  }

  /** A request that mails a token to the address of `u`: signing up, or asking for another, while it is unverified. */
  predicate Mails(ev: Event, u: Id) {
    && (ev.req.SignUp? || ev.req.Resend?)
    && FindByEmail(ev.post.core.db, ev.req.email) == Some(u) && !ev.post.core.db.users[u].emailVerified
  }

  /** A row the event leaves usable was there before and no newer token was mailed, or it is of the token mailed just now. */
  ghost predicate TokenStep(cfg: Config, ev: Event) {
    var a, b := ev.pre.core.db.verifications, ev.post.core.db.verifications;
    forall h | h in b && b[h].usedAt.None? ::
      || (h in a && a[h] == b[h] && !Mails(ev, b[h].userId))
      || (Mails(ev, b[h].userId) && h == Sha256(ev.entropy.token) && b[h].expiresAt == ev.now + cfg.verificationTtl * 1000)
  }

  ghost predicate OnlyRevoked(a: map<Hash, EmailVerification>, b: map<Hash, EmailVerification>) {
    forall h | h in b && b[h].usedAt.None? :: h in a && a[h] == b[h]
  }

  lemma IssueStep(cfg: Config, c: Core, now: Time, u: Id, token: string)
    ensures var a, b := c.db.verifications, IssueVerificationToken(cfg, c, now, u, token).db.verifications;
            forall h | h in b && b[h].usedAt.None? ::
              || (h in a && a[h] == b[h] && b[h].userId != u)
              || (h == Sha256(token) && b[h].userId == u && b[h].expiresAt == now + cfg.verificationTtl * 1000)
  {
  }

  lemma RegisterStep(cfg: Config, c: Core, now: Time, email: string, password: string, uuid: string, token: string)
    ensures var c1 := Register(cfg, c, now, email, password, uuid, token);
            var u := FindByEmail(c1.db, email);
            && u.Some?
            && (if c1.db.users[u.value].emailVerified then c1.db.verifications == c.db.verifications
                else exists c0: Core :: c0.db.verifications == c.db.verifications
                       && c1.db.verifications == IssueVerificationToken(cfg, c0, now, u.value, token).db.verifications)
  {
    hide IssueVerificationToken;
    match FindByEmail(c.db, email)
    case Some(id) => IssueVerificationFrame(cfg, c, now, id, token);
    case None =>
      var c0 := c.(db := c.db.(users := c.db.users[uuid := NewUser(cfg, email, password)], emails := c.db.emails[email := uuid]));
      IssueVerificationFrame(cfg, c0, now, uuid, token);
  }

  lemma ResendStep(cfg: Config, c: Core, now: Time, email: string, token: string)
    ensures var c1 := ResendVerification(cfg, c, now, email, token);
            var u := FindByEmail(c1.db, email);
            if u.Some? && !c1.db.users[u.value].emailVerified
            then c1.db.verifications == IssueVerificationToken(cfg, c, now, u.value, token).db.verifications
            else c1.db.verifications == c.db.verifications
  {
    hide IssueVerificationToken;
    ResendFrame(cfg, c, now, email, token);
  }

  lemma ConfirmStep(c: Core, now: Time, token: string)
    ensures OnlyRevoked(c.db.verifications, VerifyEmail(c, now, token).0.db.verifications)
  {
  }

  lemma OthersKeepTokens(cfg: Config, ev: Event)
    requires ValidEvent(cfg, ev) && !ev.req.SignUp? && !ev.req.Resend? && !ev.req.ConfirmEmail?
    ensures ev.post.core.db.verifications == ev.pre.core.db.verifications
  {
    hide HexDraw, Drawn, Act, Order, Protocol.Login, CompleteMfaTotp, CompleteMfaRecovery, CompleteWebAuthnMfa, Refresh, Logout,
      BeginWebAuthnLogin, Authenticate, RequireAdmin, LoginRows, CredentialsOf;
    var s, now, e := ev.pre, ev.now, ev.entropy;
    match ev.req
    case SignIn(email, password, rememberMe, device) => LoginFrame(cfg, s, now, email, password, rememberMe, device, e);
    case AnswerTotp(id, code, remember) => AnswerFrame(cfg, s, now, id, code, "", remember, e);
    case AnswerRecovery(id, code) => AnswerFrame(cfg, s, now, id, code, "", false, e);
    case AnswerWebAuthn(id, key, assertion, remember) => AnswerFrame(cfg, s, now, id, assertion, key, remember, e);
    case StartAssertion(id) => AssertionFrame(cfg, s.core, now, id, e.token);
    case RefreshSession(token) => RefreshFrame(cfg, s, now, token, e);
    case SignOut(refresh, access) => LogoutFrame(s, now, refresh, access);
    case Settings(access, action) =>
      if Authenticate(s, now, access).Ok? {
        ActKeepsVerifications(cfg, s.core, now, Authenticate(s, now, access).value, action, e);
      }
    case Administer(access, command) =>
      if Authenticate(s, now, access).Ok? {
        OrderFrame(s.core.db, Authenticate(s, now, access).value, command);
      }
  }

  lemma MailingStep(cfg: Config, ev: Event)
    requires ValidEvent(cfg, ev) && (ev.req.SignUp? || ev.req.Resend?)
    ensures TokenStep(cfg, ev)
  {
    hide HexDraw, Drawn, Register, ResendVerification, IssueVerificationToken;
    var s, now, e := ev.pre, ev.now, ev.entropy;
    var found := FindByEmail(ev.post.core.db, ev.req.email);
    if ev.req.SignUp? {
      RegisterStep(cfg, s.core, now, ev.req.email, ev.req.password, e.uuid, e.token);
      if !ev.post.core.db.users[found.value].emailVerified {
        var c0: Core :| c0.db.verifications == s.core.db.verifications && ev.post.core.db.verifications
                          == IssueVerificationToken(cfg, c0, now, found.value, e.token).db.verifications;
        IssueStep(cfg, c0, now, found.value, e.token);
      }
    } else {
      ResendStep(cfg, s.core, now, ev.req.email, e.token);
      if found.Some? {
        IssueStep(cfg, s.core, now, found.value, e.token);
      }
    }
  }

  lemma EventTokens(cfg: Config, ev: Event)
    requires ValidEvent(cfg, ev)
    ensures TokenStep(cfg, ev)
  {
    if ev.req.SignUp? || ev.req.Resend? {
      hide ValidEvent, TokenStep;
      MailingStep(cfg, ev);
    } else if ev.req.ConfirmEmail? {
      hide HexDraw, Drawn, VerifyEmail;
      ConfirmStep(ev.pre.core, ev.now, ev.req.verification);
    } else {
      hide ValidEvent;
      OthersKeepTokens(cfg, ev);
    }
  }

  // Who becomes verified

  lemma OrderVerifiesNobody(db: Tables, actor: Id, command: Command, u: Id)
    ensures AddressVerified(Order(db, actor, command).0, u) ==> AddressVerified(db, u)
  {
    hide RevokeAllForUser, AllowedTransitions;
  }

  lemma FlagsVerifyNobody(a: Tables, b: Tables, changed: Id, u: Id)
    ensures OnlyFlags(a.users, b.users, changed) || OnlyLogin(a.users, b.users, changed) ==> AddressVerified(b, u) ==> AddressVerified(a, u)
  {
  }

  lemma SettingsVerifyNobody(cfg: Config, s: Sys, now: Time, access: string, action: Action, e: Entropy, u: Id)
    requires HexDraw(e.hex)
    ensures AddressVerified(s.core.db.(users := UsersAfter(cfg, s, now, Settings(access, action), e)), u) ==> AddressVerified(s.core.db, u)
  {
    hide HexDraw, Act, Authenticate, AddressVerified, OnlyFlags;
    var user := Authenticate(s, now, access);
    if user.Ok? {
      ActUsers(cfg, s.core, now, user.value, action, e);
      FlagsVerifyNobody(s.core.db, s.core.db.(users := Act(cfg, s.core, now, user.value, action, e).0.db.users), user.value, u);
    } else {
      assert s.core.db.(users := s.core.db.users) == s.core.db;
    }
  }

  lemma SignInVerifiesNobody(cfg: Config, db: Tables, now: Time, email: string, password: string, u: Id)
    ensures AddressVerified(db.(users := LoginRows(cfg, db, now, email, password)), u) ==> AddressVerified(db, u)
  {
    LoginRowsChange(cfg, db, now, email, password);
    hide LoginRows, OnlyLogin, AddressVerified;
    if FindByEmail(db, email).Some? {
      FlagsVerifyNobody(db, db.(users := LoginRows(cfg, db, now, email, password)), FindByEmail(db, email).value, u);
    } else {
      assert db.(users := db.users) == db;
    }
  }

  lemma SignUpVerifiesNobody(cfg: Config, c: Core, now: Time, email: string, password: string, uuid: string, token: string, u: Id)
    ensures AddressVerified(c.db.(users := Register(cfg, c, now, email, password, uuid, token).db.users), u) ==> AddressVerified(c.db, u)
  {
    RegisterUsers(cfg, c, now, email, password, uuid, token);
    hide Register;
  }

  lemma OthersVerifyNobody(cfg: Config, s: Sys, now: Time, req: Request, e: Entropy, u: Id)
    requires HexDraw(e.hex) && !req.ConfirmEmail?
    ensures AddressVerified(s.core.db.(users := UsersAfter(cfg, s, now, req, e)), u) ==> AddressVerified(s.core.db, u)
  {
    assert s.core.db.(users := s.core.db.users) == s.core.db;
    hide HexDraw, Register, LoginRows, Act, Order, Authenticate, RequireAdmin, AddressVerified;
    if req.SignUp? {
      SignUpVerifiesNobody(cfg, s.core, now, req.email, req.password, e.uuid, e.token, u);
    } else if req.SignIn? {
      SignInVerifiesNobody(cfg, s.core.db, now, req.email, req.password, u);
    } else if req.Settings? {
      SettingsVerifyNobody(cfg, s, now, req.access, req.action, e, u);
    } else if req.Administer? && Authenticate(s, now, req.access).Ok? {
      var actor := Authenticate(s, now, req.access).value;
      OrderVerifiesNobody(s.core.db, actor, req.command, u);
      VerifiedByUsers(s.core.db.(users := Order(s.core.db, actor, req.command).0.users), Order(s.core.db, actor, req.command).0, u);
    }
  }

  lemma VerifiedByUsers(a: Tables, b: Tables, u: Id)
    requires a.users == b.users
    ensures AddressVerified(a, u) == AddressVerified(b, u)
  {
  }

  /** Confirming with the token of a usable row verifies its account, and nothing else verifies anyone. */
  lemma VerifyingEvent(cfg: Config, ev: Event, u: Id)
    requires ValidEvent(cfg, ev) && AddressVerified(ev.post.core.db, u) && !AddressVerified(ev.pre.core.db, u)
    ensures ev.req.ConfirmEmail?
    ensures var rows, h := ev.pre.core.db.verifications, Sha256(ev.req.verification);
            h in rows && rows[h].userId == u && rows[h].usedAt.None? && ev.now <= rows[h].expiresAt
  {
    hide HexDraw, Drawn, Handle, AddressVerified, UsersAfter;
    HandleUsers(cfg, ev.pre, ev.now, ev.req, ev.entropy);
    VerifiedByUsers(ev.post.core.db, ev.pre.core.db.(users := UsersAfter(cfg, ev.pre, ev.now, ev.req, ev.entropy)), u);
    if ev.req.ConfirmEmail? {
      ConfirmUsers(cfg, ev.pre, ev.now, ev.req.verification, ev.entropy);
      VerifiedByUsers(ev.post.core.db, VerifyEmail(ev.pre.core, ev.now, ev.req.verification).0.db, u);
      ConfirmVerifies(ev.pre.core, ev.now, ev.req.verification, u);
    } else {
      OthersVerifyNobody(cfg, ev.pre, ev.now, ev.req, ev.entropy, u);
    }
  }

  lemma ConfirmUsers(cfg: Config, s: Sys, now: Time, token: string, e: Entropy)
    requires HexDraw(e.hex)
    ensures UsersAfter(cfg, s, now, ConfirmEmail(token), e) == VerifyEmail(s.core, now, token).0.db.users
  {
  }

  lemma ConfirmVerifies(c: Core, now: Time, token: string, u: Id)
    requires AddressVerified(VerifyEmail(c, now, token).0.db, u) && !AddressVerified(c.db, u)
    ensures var rows, h := c.db.verifications, Sha256(token);
            h in rows && rows[h].userId == u && rows[h].usedAt.None? && now <= rows[h].expiresAt
  {
  }

  // Whole runs

  /** The last token mailed to `u` in the first `n` events is `token`, and it is good until `deadline`. */
  ghost predicate LastMailed(cfg: Config, run: seq<Event>, n: nat, u: Id, token: string, deadline: Time)
    requires n <= |run|
  {
    exists i | 0 <= i < n ::
      && Mails(run[i], u) && run[i].entropy.token == token && deadline == run[i].now + cfg.verificationTtl * 1000
      && forall j | i < j < n :: !Mails(run[j], u)
  }

  /** A row still usable is that of the last token mailed to its account. */
  lemma {:induction false} UsableIsLastMailed(cfg: Config, run: seq<Event>, n: nat, h: Hash)
    requires ValidRun(cfg, run) && run != [] && n <= |run| && run[0].pre.core.db.verifications == map[]
    requires h in StateAt(run, n).core.db.verifications && StateAt(run, n).core.db.verifications[h].usedAt.None?
    ensures var row := StateAt(run, n).core.db.verifications[h];
            LastMailed(cfg, run, n, row.userId, h.text, row.expiresAt)
  {
    hide ValidEvent, Mails;
    if n > 0 {
      assert StateAt(run, n) == run[n - 1].post && StateAt(run, n - 1) == run[n - 1].pre;
      EventTokens(cfg, run[n - 1]);
      var rows := run[n - 1].pre.core.db.verifications;
      var row := run[n - 1].post.core.db.verifications[h];
      if h in rows && rows[h] == row && !Mails(run[n - 1], row.userId) {
        UsableIsLastMailed(cfg, run, n - 1, h);
      }
    }
  }

  /**
   An address becomes verified only by confirming the last token mailed to it, in its lifetime;
   no account is created verified, and no other request verifies one.
   */
  lemma VerifiedWithLastToken(cfg: Config, run: seq<Event>, n: nat, u: Id)
    requires ValidRun(cfg, run) && n < |run| && run[0].pre.core.db.verifications == map[]
    requires AddressVerified(run[n].post.core.db, u) && !AddressVerified(run[n].pre.core.db, u)
    ensures run[n].req.ConfirmEmail?
    ensures exists deadline :: run[n].now <= deadline && LastMailed(cfg, run, n, u, run[n].req.verification, deadline)
  {
    hide ValidEvent, LastMailed, AddressVerified;
    VerifyingEvent(cfg, run[n], u);
    UsableIsLastMailed(cfg, run, n, Sha256(run[n].req.verification));
  }
}
