/** What a sign-in answers and does, from the columns of the row it finds. */
module SignInAnswers {
  import opened Wrappers
  import opened Rows
  import opened Cache
  import opened Protocol
  import opened Machine
  import opened Frames
  import opened Columns

  predicate SignsIn(ev: Event, u: Id) {
    ev.req.SignIn? && AccountAt(ev.pre.core.db, ev.req.email, u)
  }

  predicate LockStands(row: User, now: Time) {
    row.status == LOCKED && row.lockedUntil != None && now < row.lockedUntil.value
  }

  predicate AsksPassword(row: User, now: Time) {
    row.status != DISABLED && !LockStands(row, now) && row.emailVerified && row.status != PENDING_VERIFICATION
  }

  predicate LockedAnswer(out: Outcome) {
    out.Login? && out.login.Rejected? && out.login.error.AccountLocked?
  }

  // ---------------------------------------------------------------------------
  // The answer
  // ---------------------------------------------------------------------------

  lemma RoundsUp(ms: int)
    ensures RoundedUp(ms, SecondsUp(ms))
  {
  }

  lemma RefusalRead(row: User, now: Time)
    ensures match Refusal(row, now)
            case None => AsksPassword(row, now)
            case Some(AccountDisabled) => row.status == DISABLED
            case Some(AccountLocked(r)) => LockStands(row, now) && RoundedUp(row.lockedUntil.value - now, r)
            case Some(EmailNotVerified) =>
              row.status != DISABLED && !LockStands(row, now) && (!row.emailVerified || row.status == PENDING_VERIFICATION)
            case _ => false
  {
    hide SecondsUp, RoundedUp;
    if row.lockedUntil.Some? {
      RoundsUp(row.lockedUntil.value - now);
    }
  }

  lemma AcceptedNotRejected(cfg: Config, s: Sys, now: Time, u: Id, row: User, rememberMe: bool, device: Option<string>, e: Entropy)
    requires u in s.core.db.users
    ensures !PasswordAccepted(cfg, s, now, u, row, rememberMe, device, e).1.Rejected?
  {
    hide IssueTokens, DeviceTrusted, AvailableMethods;
  }

  /** What is answered, as long as the password is not accepted. */
  lemma AnswerOfKnown(cfg: Config, s: Sys, now: Time, u: Id, password: string, rememberMe: bool, device: Option<string>, e: Entropy)
    requires u in s.core.db.users
    ensures var out := LoginKnown(cfg, s, now, u, password, rememberMe, device, e).1;
            var row := s.core.db.users[u];
            match Refusal(row, now)
            case Some(error) => out == Rejected(error)
            case None => if PasswordFits(cfg, row, password) then !out.Rejected? else out == Rejected(InvalidCredentials(true))
  {
    hide PasswordAccepted, Refusal, FailedLogin, LockedOut;
    var s1 := s.(core := s.core.(db := s.core.db.(users := AfterUnlock(s.core.db.users, u, now))));
    AcceptedNotRejected(cfg, s1, now, u, s.core.db.users[u], rememberMe, device, e);
  }

  lemma AnswerOfEvent(cfg: Config, ev: Event, u: Id)
    requires ValidEvent(cfg, ev) && SignsIn(ev, u)
    ensures ev.out == Login(LoginKnown(cfg, ev.pre, ev.now, u, ev.req.password, ev.req.rememberMe, ev.req.device, ev.entropy).1)
  {
    hide HexDraw, Drawn, LoginKnown;
  }

  /** The exact answer of every sign-in to a known address. */
  lemma SignInAnswer(cfg: Config, ev: Event, u: Id)
    requires ValidEvent(cfg, ev) && SignsIn(ev, u)
    ensures ev.out.Login?
    ensures var row := ev.pre.core.db.users[u];
            && (ev.out == Login(Rejected(AccountDisabled)) <==> row.status == DISABLED)
            && (LockedAnswer(ev.out) <==> LockStands(row, ev.now))
            && (LockStands(row, ev.now) ==> RoundedUp(row.lockedUntil.value - ev.now, ev.out.login.error.retryAfterSeconds))
            && (ev.out == Login(Rejected(EmailNotVerified)) <==>
                  && row.status != DISABLED && !LockStands(row, ev.now)
                  && (!row.emailVerified || row.status == PENDING_VERIFICATION))
            && (ev.out == Login(Rejected(InvalidCredentials(true))) <==>
                  AsksPassword(row, ev.now) && !PasswordFits(cfg, row, ev.req.password))
            && (!ev.out.login.Rejected? <==> AsksPassword(row, ev.now) && PasswordFits(cfg, row, ev.req.password))
  {
    hide ValidEvent, LoginKnown, Refusal, PasswordFits, RoundedUp;
    AnswerOfEvent(cfg, ev, u);
    RefusalRead(ev.pre.core.db.users[u], ev.now);
    AnswerOfKnown(cfg, ev.pre, ev.now, u, ev.req.password, ev.req.rememberMe, ev.req.device, ev.entropy);
  }

  /** An unknown address is answered as a wrong password is, and nothing happens. */
  lemma UnknownAddress(cfg: Config, ev: Event)
    requires ValidEvent(cfg, ev) && ev.req.SignIn? && forall u :: !AccountAt(ev.pre.core.db, ev.req.email, u)
    ensures ev.out == Login(Rejected(InvalidCredentials(false))) && NothingHappens(ev)
  {
    hide HexDraw, Drawn, LoginKnown;
    var db := ev.pre.core.db;
    if ev.req.email in db.emails {
      assert !AccountAt(db, ev.req.email, db.emails[ev.req.email]);
    }
  }

  // ---------------------------------------------------------------------------
  // The row
  // ---------------------------------------------------------------------------

  /** A lock that no longer stands is lifted, whatever the answer. */
  function Relieved(row: User, now: Time): User {
    if row.status == LOCKED && !LockStands(row, now)
    then row.(status := ACTIVE, lockedUntil := None, failedLoginAttempts := 0) else row
  }

  /** The counter goes one up from what was found, and at the limit a lock is set from now on. */
  function Failing(cfg: Config, row: User, now: Time): User {
    var attempts := row.failedLoginAttempts + 1;
    if attempts >= cfg.loginMaxAttempts
    then row.(failedLoginAttempts := attempts, status := LOCKED, lockedUntil := Some(now + cfg.loginLockoutMinutes * 60 * 1000))
    else row.(failedLoginAttempts := attempts, status := ACTIVE, lockedUntil := None)
  }

  lemma UnlockedRow(users: map<Id, User>, u: Id, now: Time)
    requires u in users
    ensures AfterUnlock(users, u, now) == users[u := Relieved(users[u], now)]
  {
  }

  lemma FailedRow(cfg: Config, users: map<Id, User>, u: Id, found: User, row: User, now: Time)
    requires row == Relieved(found, now) && AsksPassword(found, now)
    ensures FailedLogin(cfg, users[u := row], u, found, now) == users[u := Failing(cfg, found, now)]
  {
    var attempts := found.failedLoginAttempts + 1;
    var until := if attempts >= cfg.loginMaxAttempts then Some(now + cfg.loginLockoutMinutes * 60000) else None;
    assert row.(failedLoginAttempts := attempts, lockedUntil := until, status := if until.Some? then LOCKED else row.status)
        == Failing(cfg, found, now);
    hide Relieved, AsksPassword, Failing;
  }

  lemma SucceededRow(users: map<Id, User>, u: Id, found: User, row: User, now: Time)
    requires row == Relieved(found, now) && AsksPassword(found, now)
    ensures MarkLoginSuccess(users[u := row], u) == users[u := found.(status := ACTIVE, failedLoginAttempts := 0, lockedUntil := None)]
  {
  }

  lemma RowsAfter(cfg: Config, db: Tables, now: Time, email: string, password: string, u: Id)
    requires AccountAt(db, email, u)
    ensures var row := db.users[u];
            LoginRows(cfg, db, now, email, password) == db.users[u :=
              if !AsksPassword(row, now) then Relieved(row, now)
              else if !PasswordFits(cfg, row, password) then Failing(cfg, row, now)
              else row.(status := ACTIVE, failedLoginAttempts := 0, lockedUntil := None)]
  {
    var row := db.users[u];
    RefusalRead(row, now);
    hide AfterUnlock, FailedLogin, MarkLoginSuccess, Refusal, Relieved, Failing, AsksPassword, LockStands;
    UnlockedRow(db.users, u, now);
    if AsksPassword(row, now) {
      FailedRow(cfg, db.users, u, row, Relieved(row, now), now);
      SucceededRow(db.users, u, row, Relieved(row, now), now);
    }
  }

  /** The user table after every sign-in to a known address: no other row changes, and this one so. */
  lemma SignInRow(cfg: Config, ev: Event, u: Id)
    requires ValidEvent(cfg, ev) && SignsIn(ev, u)
    ensures var row := ev.pre.core.db.users[u];
            ev.post.core.db.users == ev.pre.core.db.users[u :=
              if !AsksPassword(row, ev.now) then Relieved(row, ev.now)
              else if !PasswordFits(cfg, row, ev.req.password) then Failing(cfg, row, ev.now)
              else row.(status := ACTIVE, failedLoginAttempts := 0, lockedUntil := None)]
  {
    hide HexDraw, Drawn, LoginRows, Protocol.Login, AsksPassword, Relieved, Failing, PasswordFits;
    var r := ev.req;
    LoginFrame(cfg, ev.pre, ev.now, r.email, r.password, r.rememberMe, r.device, ev.entropy);
    RowsAfter(cfg, ev.pre.core.db, ev.now, r.email, r.password, u);
  }

  // ---------------------------------------------------------------------------
  // Tokens or a challenge
  // ---------------------------------------------------------------------------

  predicate ShowsTrusted(db: Tables, u: Id, device: Option<string>) {
    device != None && device.value != "" && (u, Sha256(device.value)) in db.devices
  }

  function Offered(row: User): seq<Method> {
    match (row.totpEnabled, row.webauthnEnabled)
    case (true, true) => [MethodTotp, MethodWebAuthn, MethodRecovery]
    case (true, false) => [MethodTotp, MethodRecovery]
    case (false, true) => [MethodWebAuthn, MethodRecovery]
    case (false, false) => [MethodRecovery]
  }

  /** A pending login in the cache under the identifier answered, and no session. */
  predicate ChallengeOpened(cfg: Config, ev: Event, u: Id, rememberMe: bool, methods: seq<Method>) {
    && methods != [] && NoSessionOpened(ev)
    && ev.out == Login(Challenged(u, Challenge(ev.entropy.uuid, methods[0], methods, ev.now + cfg.challengeTtl * 1000)))
    && ev.post.core.cache == ev.pre.core.cache["mfa:login-challenge:" + ev.entropy.uuid :=
         EntryFor(LoginChallenge(u, rememberMe, methods), cfg.challengeTtl, ev.now)]
  }

  lemma OfferedAre(a: User, b: User)
    requires a.totpEnabled == b.totpEnabled && a.webauthnEnabled == b.webauthnEnabled
    ensures AvailableMethods(a) == Offered(b) && Offered(b) != []
  {
  }

  lemma AcceptedChallenges(cfg: Config, s: Sys, now: Time, u: Id, row: User, rememberMe: bool, device: Option<string>, e: Entropy)
    requires u in s.core.db.users && SameFlags(s.core.db.users[u], row)
    requires row.mfaEnabled && !ShowsTrusted(s.core.db, u, device)
    ensures var (s1, out) := PasswordAccepted(cfg, s, now, u, row, rememberMe, device, e);
            && s1 == s.(core := s1.core) && s1.core.db.sessions == s.core.db.sessions
            && out == Challenged(u, Challenge(e.uuid, Offered(row)[0], Offered(row), now + cfg.challengeTtl * 1000))
            && s1.core.cache == s.core.cache["mfa:login-challenge:" + e.uuid :=
                 EntryFor(LoginChallenge(u, rememberMe, Offered(row)), cfg.challengeTtl, now)]
  {
    hide AvailableMethods, Offered, IssueTokens;
    var c1 := s.core.(db := s.core.db.(users := MarkLoginSuccess(s.core.db.users, u)));
    OfferedAre(c1.db.users[u], row);
  }

  lemma AcceptedLogsIn(cfg: Config, s: Sys, now: Time, u: Id, row: User, rememberMe: bool, device: Option<string>, e: Entropy)
    requires !row.mfaEnabled || ShowsTrusted(s.core.db, u, device)
    ensures var (s1, out) := PasswordAccepted(cfg, s, now, u, row, rememberMe, device, e);
            && s1.core.cache == s.core.cache && out.LoggedIn? && out.userId == u && out.deviceToken == None
            && OpenedFrom(cfg, s, s1, now, u, out.tokens, e, if rememberMe then cfg.refreshTtl else cfg.sessionTimeoutMinutes * 60)
  {
    hide AvailableMethods, IssueLoginChallenge, MarkLoginSuccess;
  }

  lemma RelievedKeeps(row: User, now: Time)
    ensures SameFlags(Relieved(row, now), row)
  {
  }

  predicate RightPassword(cfg: Config, ev: Event, u: Id) {
    && SignsIn(ev, u)
    && AsksPassword(ev.pre.core.db.users[u], ev.now) && PasswordFits(cfg, ev.pre.core.db.users[u], ev.req.password)
  }

  predicate NeedsFactor(ev: Event, u: Id)
    requires SignsIn(ev, u)
  {
    ev.pre.core.db.users[u].mfaEnabled && !ShowsTrusted(ev.pre.core.db, u, ev.req.device)
  }

  /** A right password leads to a challenge if the account has a second factor and no trusted device is shown. */
  lemma RightPasswordChallenged(cfg: Config, ev: Event, u: Id)
    requires ValidEvent(cfg, ev) && RightPassword(cfg, ev, u) && NeedsFactor(ev, u)
    ensures ChallengeOpened(cfg, ev, u, ev.req.rememberMe, Offered(ev.pre.core.db.users[u]))
  {
    hide ValidEvent, PasswordAccepted, Relieved, Offered, ShowsTrusted, AsksPassword, PasswordFits;
    var row, s := ev.pre.core.db.users[u], ev.pre;
    RelievedKeeps(row, ev.now);
    OfferedAre(row, row);
    var s1 := s.(core := s.core.(db := s.core.db.(users := s.core.db.users[u := Relieved(row, ev.now)])));
    AcceptedEvent(cfg, ev, u, s1);
    SameDevices(s, s1, u, ev.req.device);
    AcceptedChallenges(cfg, s1, ev.now, u, row, ev.req.rememberMe, ev.req.device, ev.entropy);
  }

  /** And otherwise to tokens, for as long as was asked. */
  lemma RightPasswordLogsIn(cfg: Config, ev: Event, u: Id)
    requires ValidEvent(cfg, ev) && RightPassword(cfg, ev, u) && !NeedsFactor(ev, u)
    ensures ev.out.Login? && ev.out.login.LoggedIn? && ev.out.login.userId == u && ev.out.login.deviceToken == None
    ensures SessionOpened(cfg, ev, u, ev.out.login.tokens, if ev.req.rememberMe then cfg.refreshTtl else cfg.sessionTimeoutMinutes * 60)
    ensures ev.post.core.cache == ev.pre.core.cache
  {
    hide ValidEvent, PasswordAccepted, Relieved, ShowsTrusted, AsksPassword, PasswordFits;
    var row, s := ev.pre.core.db.users[u], ev.pre;
    var s1 := s.(core := s.core.(db := s.core.db.(users := s.core.db.users[u := Relieved(row, ev.now)])));
    AcceptedEvent(cfg, ev, u, s1);
    SameDevices(s, s1, u, ev.req.device);
    AcceptedLogsIn(cfg, s1, ev.now, u, row, ev.req.rememberMe, ev.req.device, ev.entropy);
  }

  lemma SameDevices(s: Sys, s1: Sys, u: Id, device: Option<string>)
    requires s1.core.db.devices == s.core.db.devices
    ensures ShowsTrusted(s1.core.db, u, device) == ShowsTrusted(s.core.db, u, device)
  {
  }

  lemma AcceptedEvent(cfg: Config, ev: Event, u: Id, s1: Sys)
    requires ValidEvent(cfg, ev) && SignsIn(ev, u)
    requires var row := ev.pre.core.db.users[u];
             && AsksPassword(row, ev.now) && PasswordFits(cfg, row, ev.req.password)
             && s1 == ev.pre.(core := ev.pre.core.(db := ev.pre.core.db.(users := ev.pre.core.db.users[u := Relieved(row, ev.now)])))
    ensures var r := PasswordAccepted(cfg, s1, ev.now, u, ev.pre.core.db.users[u], ev.req.rememberMe, ev.req.device, ev.entropy);
            ev.post == r.0.(drawn := ev.post.drawn) && ev.out == Login(r.1)
  {
    hide HexDraw, Drawn, PasswordAccepted, AfterUnlock, Relieved, FailedLogin, LockStands;
    RefusalRead(ev.pre.core.db.users[u], ev.now);
    hide Refusal;
    UnlockedRow(ev.pre.core.db.users, u, ev.now);
  }

  /** A refused sign-in opens nothing. */
  lemma RefusedOpensNothing(cfg: Config, ev: Event, u: Id)
    requires ValidEvent(cfg, ev) && SignsIn(ev, u) && ev.out.Login? && ev.out.login.Rejected?
    ensures NoSessionOpened(ev) && ev.post.core.cache == ev.pre.core.cache
  {
    hide HexDraw, Drawn, PasswordAccepted, AfterUnlock, Refusal, FailedLogin;
    var s := ev.pre;
    var s1 := s.(core := s.core.(db := s.core.db.(users := AfterUnlock(s.core.db.users, u, ev.now))));
    UnlockedRow(s.core.db.users, u, ev.now);
    AcceptedNotRejected(cfg, s1, ev.now, u, s.core.db.users[u], ev.req.rememberMe, ev.req.device, ev.entropy);
  }

  /** The other tables stay as they are. */
  lemma SignInTables(cfg: Config, ev: Event)
    requires ValidEvent(cfg, ev) && ev.req.SignIn?
    ensures ev.post.core.db == ev.pre.core.db.(users := ev.post.core.db.users, sessions := ev.post.core.db.sessions)
  {
    hide HexDraw, Drawn, LoginRows, Protocol.Login;
    LoginFrame(cfg, ev.pre, ev.now, ev.req.email, ev.req.password, ev.req.rememberMe, ev.req.device, ev.entropy);
  }
}
