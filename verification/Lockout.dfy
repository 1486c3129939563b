/** How many wrong passwords an account takes: a bound over whole runs. */
module Lockout {
  import opened Wrappers
  import opened Arithmetic
  import opened Rows
  import opened Protocol
  import opened Machine
  import opened Consistency
  import opened Frames

  function LockoutMs(cfg: Config): int {
    cfg.loginLockoutMinutes * 60000
  }

  function Attempts(cfg: Config): int {
    if cfg.loginMaxAttempts > 1 then cfg.loginMaxAttempts else 1
  }

  predicate SignsInTo(ev: Event, u: Id) {
    ev.req.SignIn? && FindByEmail(ev.pre.core.db, ev.req.email) == Some(u)
  }

  /** The password was compared with the account's and was wrong. */
  predicate WrongPassword(ev: Event, u: Id) {
    SignsInTo(ev, u) && ev.out == Login(Rejected(InvalidCredentials(true)))
  }

  predicate RightPassword(ev: Event, u: Id) {
    SignsInTo(ev, u) && ev.out.Login? && !ev.out.login.Rejected?
  }

  predicate StatusChanged(ev: Event, u: Id) {
    ev.req.Administer? && ev.req.command.ChangeStatus? && ev.req.command.target == u && ev.out == Accepted
  }

  function WrongPasswords(run: seq<Event>, u: Id): nat {
    if run == [] then 0
    else WrongPasswords(run[..|run| - 1], u) + if WrongPassword(run[|run| - 1], u) then 1 else 0
  }

  lemma AdministerRow(cfg: Config, ev: Event, u: Id)
    requires ValidEvent(cfg, ev) && u in ev.pre.core.db.users && ev.req.Administer? && !StatusChanged(ev, u)
    ensures RowUntouched(ev.pre.core.db.users, ev.post.core.db.users, u)
  {
    hide Drawn, HexDraw, Authenticate, RequireAdmin, Order;
    if Authenticate(ev.pre, ev.now, ev.req.access).Ok? {
      OrderRow(ev.pre.core.db, Authenticate(ev.pre, ev.now, ev.req.access).value, ev.req.command, u);
    }
  }

  /** What one event can do to the sign-in columns of `u`. */
  lemma RowStep(cfg: Config, ev: Event, u: Id)
    requires ValidEvent(cfg, ev) && Fits(ev.pre) && u in ev.pre.core.db.users && !StatusChanged(ev, u)
    ensures SignsInTo(ev, u) ==>
              ev.post.core.db.users == LoginRows(cfg, ev.pre.core.db, ev.now, ev.req.email, ev.req.password)
    ensures !SignsInTo(ev, u) ==> RowUntouched(ev.pre.core.db.users, ev.post.core.db.users, u)
  {
    if ev.req.Administer? {
      AdministerRow(cfg, ev, u);
    } else {
      hide Fits, Drawn, HexDraw, Handle, RowUntouched, LoginRows, Authenticate, Act, Order;
      HandleUsers(cfg, ev.pre, ev.now, ev.req, ev.entropy);
      if !SignsInTo(ev, u) {
        OthersLeaveRow(cfg, ev.pre, ev.now, ev.req, ev.entropy, u);
      }
    }
  }

  lemma OrderRow(db: Tables, actor: Id, command: Command, u: Id)
    requires u in db.users
    ensures var (db1, out) := Order(db, actor, command);
            && u in db1.users
            && (!(command.ChangeStatus? && command.target == u && out == Accepted) ==> SameLogin(db.users[u], db1.users[u]))
  {
    hide RevokeAllForUser, AllowedTransitions;
  }

  lemma AcceptedOutcome(cfg: Config, s: Sys, now: Time, id: Id, read: User, rememberMe: bool, device: Option<string>, e: Entropy)
    requires id in s.core.db.users
    ensures !PasswordAccepted(cfg, s, now, id, read, rememberMe, device, e).1.Rejected?
  {
    hide IssueTokens, DeviceTrusted;
  }

  /** A sign-in counts as a comparison exactly when nothing refuses it and the password is wrong. */
  lemma OutcomeOfSignIn(cfg: Config, ev: Event, u: Id)
    requires ValidEvent(cfg, ev) && SignsInTo(ev, u)
    ensures var user := ev.pre.core.db.users[u];
            && (WrongPassword(ev, u) <==> Refusal(user, ev.now).None? && !PasswordMatches(cfg, user, ev.req.password))
            && (RightPassword(ev, u) <==> Refusal(user, ev.now).None? && PasswordMatches(cfg, user, ev.req.password))
  {
    hide Drawn, HexDraw, FailedLogin, IssueTokens, DeviceTrusted, PasswordAccepted, PasswordMatches, LockedOut, SecondsUp;
    var db := ev.pre.core.db;
    var s1 := ev.pre.(core := ev.pre.core.(db := db.(users := AfterUnlock(db.users, u, ev.now))));
    AcceptedOutcome(cfg, s1, ev.now, u, db.users[u], ev.req.rememberMe, ev.req.device, ev.entropy);
  }

  /** Below the limit the counter has seen every comparison; at it, each further one costs a whole lockout. */
  predicate Counted(cfg: Config, row: User, comparisons: nat, start: Time, now: Time) {
    && (!row.emailVerified ==> comparisons == 0)
    && (|| (comparisons <= row.failedLoginAttempts && comparisons < Attempts(cfg))
        || (&& row.status.LOCKED? && row.lockedUntil.Some? && row.failedLoginAttempts >= cfg.loginMaxAttempts
            && row.lockedUntil.value - LockoutMs(cfg) <= now
            && (comparisons - Attempts(cfg)) * LockoutMs(cfg) <= row.lockedUntil.value - LockoutMs(cfg) - start))
  }

  lemma SignInCounted(cfg: Config, db: Tables, now: Time, email: string, password: string, u: Id, comparisons: nat, start: Time, before: Time)
    requires LockoutMs(cfg) > 0 && FindByEmail(db, email) == Some(u) && start <= before <= now
    requires Counted(cfg, db.users[u], comparisons, start, before)
    requires Refusal(db.users[u], now).None? ==> !PasswordMatches(cfg, db.users[u], password)
    ensures var row := LoginRows(cfg, db, now, email, password)[u];
            Counted(cfg, row, comparisons + (if Refusal(db.users[u], now).None? then 1 else 0), start, now)
  {
    var user := db.users[u];
    hide PasswordMatches, LockoutMs;
    assert LockoutMs(cfg) == cfg.loginLockoutMinutes * 60000 by { LockoutIs(cfg); }
    if Refusal(user, now).None? {
      assert (comparisons + 1 - Attempts(cfg)) * LockoutMs(cfg) == (comparisons - Attempts(cfg)) * LockoutMs(cfg) + LockoutMs(cfg);
      Multiple(comparisons + 1 - Attempts(cfg), LockoutMs(cfg));
    }
  }

  lemma LockoutIs(cfg: Config)
    ensures LockoutMs(cfg) == cfg.loginLockoutMinutes * 60000
  {
  }

  lemma EventCounted(cfg: Config, ev: Event, u: Id, comparisons: nat, start: Time, before: Time)
    requires ValidEvent(cfg, ev) && Fits(ev.pre) && u in ev.pre.core.db.users
    requires LockoutMs(cfg) > 0 && start <= before <= ev.now
    requires !StatusChanged(ev, u) && !RightPassword(ev, u)
    requires Counted(cfg, ev.pre.core.db.users[u], comparisons, start, before)
    ensures u in ev.post.core.db.users
    ensures Counted(cfg, ev.post.core.db.users[u], comparisons + (if WrongPassword(ev, u) then 1 else 0), start, ev.now)
  {
    hide ValidEvent, Fits;
    RowStep(cfg, ev, u);
    if SignsInTo(ev, u) {
      LoginRowsChange(cfg, ev.pre.core.db, ev.now, ev.req.email, ev.req.password);
      hide LoginRows, Refusal, FindByEmail, PasswordMatches;
      OutcomeOfSignIn(cfg, ev, u);
      SignInCounted(cfg, ev.pre.core.db, ev.now, ev.req.email, ev.req.password, u, comparisons, start, before);
    }
  }

  ghost predicate Undisturbed(run: seq<Event>, u: Id) {
    forall i | 0 <= i < |run| :: !StatusChanged(run[i], u) && !RightPassword(run[i], u)
  }

  lemma {:induction false} RunCounted(cfg: Config, run: seq<Event>, u: Id)
    requires ValidRun(cfg, run) && run != [] && Fits(run[0].pre) && u in run[0].pre.core.db.users
    requires LockoutMs(cfg) > 0 && Undisturbed(run, u)
    ensures Fits(run[|run| - 1].post) && u in run[|run| - 1].post.core.db.users
    ensures Counted(cfg, run[|run| - 1].post.core.db.users[u], WrongPasswords(run, u), run[0].now, run[|run| - 1].now)
  {
    hide Fits, ValidEvent, WrongPassword, RightPassword, StatusChanged, Counted;
    var n := |run| - 1;
    var ev := run[n];
    RunFits(cfg, run, |run|);
    if n == 0 {
      InitiallyCounted(cfg, ev.pre.core.db.users[u], ev.now);
      EventCounted(cfg, ev, u, 0, ev.now, ev.now);
      assert run[..n] == [];
    } else {
      RunCounted(cfg, run[..n], u);
      ClockMonotone(cfg, run, 0, n - 1);
      EventCounted(cfg, ev, u, WrongPasswords(run[..n], u), run[0].now, run[n - 1].now);
    }
  }

  lemma InitiallyCounted(cfg: Config, row: User, now: Time)
    ensures Counted(cfg, row, 0, now, now)
  {
  }

  /**
   In every run with no correct password for the account and no change of its status by
   an administrator, whatever else happens, the wrong passwords compared number at most
   the configured attempts plus one for each whole lockout that fits in the time taken.
   Any stretch of a longer run is a run, so this bounds every span.
   */
  lemma BruteForceBound(cfg: Config, run: seq<Event>, u: Id)
    requires ValidRun(cfg, run) && run != [] && Fits(run[0].pre) && u in run[0].pre.core.db.users
    requires LockoutMs(cfg) > 0 && Undisturbed(run, u)
    ensures WrongPasswords(run, u) <= Attempts(cfg) + (run[|run| - 1].now - run[0].now) / LockoutMs(cfg)
  {
    hide ValidEvent, Fits, LockoutMs;
    RunCounted(cfg, run, u);
    ClockMonotone(cfg, run, 0, |run| - 1);
    var span := run[|run| - 1].now - run[0].now;
    var c, k := WrongPasswords(run, u) - Attempts(cfg), LockoutMs(cfg);
    if c > 0 {
      assert c * k <= span;
      DivMonotone(c * k, span, k);
      DivUnique(c * k, k, c, 0);
    } else {
      DivMonotone(0, span, k);
    }
  }

  /** The first wrong password after a lock that failures caused has lapsed locks the account again. */
  lemma RelocksAtOnce(cfg: Config, db: Tables, now: Time, email: string, password: string, u: Id)
    requires FindByEmail(db, email) == Some(u) && LockoutMs(cfg) > 0
    requires var row := db.users[u];
             && row.status.LOCKED? && row.lockedUntil.Some? && row.lockedUntil.value <= now && row.emailVerified
             && row.failedLoginAttempts >= cfg.loginMaxAttempts && !PasswordMatches(cfg, row, password)
    ensures var row := LoginRows(cfg, db, now, email, password)[u];
            && row.status == LOCKED && row.lockedUntil == Some(now + LockoutMs(cfg)) && now < now + LockoutMs(cfg)
            && row.failedLoginAttempts == db.users[u].failedLoginAttempts + 1
  {
    hide PasswordMatches;
  }
}
