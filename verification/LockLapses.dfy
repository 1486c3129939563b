/** How long the lock that wrong passwords cause lasts, over runs: exactly the configured time. */
module LockLapses {
  import opened Wrappers
  import opened Rows
  import opened Protocol
  import opened Machine
  import opened Consistency
  import opened Frames
  import opened Lockout
  import opened Columns
  import opened SignInAnswers
  import opened OrderAnswers

  /** A wrong password that reaches the limit. */
  predicate Locks(cfg: Config, ev: Event, u: Id) {
    && SignsIn(ev, u)
    && var row := ev.pre.core.db.users[u];
       AsksPassword(row, ev.now) && !PasswordFits(cfg, row, ev.req.password) && row.failedLoginAttempts + 1 >= cfg.loginMaxAttempts
  }

  function LockEnd(cfg: Config, ev: Event): Time {
    ev.now + cfg.loginLockoutMinutes * 60 * 1000
  }

  predicate LockedTill(s: Sys, u: Id, until: Time, hash: Option<string>) {
    && u in s.core.db.users
    && var row := s.core.db.users[u];
       row.status == LOCKED && row.lockedUntil == Some(until) && row.emailVerified && row.passwordHash == hash
  }

  lemma LockSet(cfg: Config, ev: Event, u: Id)
    requires ValidEvent(cfg, ev) && Locks(cfg, ev, u)
    ensures LockedTill(ev.post, u, LockEnd(cfg, ev), ev.pre.core.db.users[u].passwordHash)
  {
    hide ValidEvent, PasswordFits;
    SignInRow(cfg, ev, u);
  }

  lemma SignsInBoth(ev: Event, u: Id)
    ensures SignsInTo(ev, u) <==> SignsIn(ev, u)
  {
  }

  lemma LockStays(cfg: Config, ev: Event, u: Id, until: Time, hash: Option<string>)
    requires ValidEvent(cfg, ev) && Fits(ev.pre) && LockedTill(ev.pre, u, until, hash)
    requires !SignsIn(ev, u) && !StatusChanged(ev, u)
    ensures LockedTill(ev.post, u, until, hash)
  {
    hide ValidEvent, Fits, SignsIn, SignsInTo, StatusChanged, RoleOrder;
    SignsInBoth(ev, u);
    RowStep(cfg, ev, u);
    EventIdentities(cfg, ev);
  }

  /** Nobody signs in to `u` and no administrator changes its status in the events from `i` to `j`. */
  ghost predicate LeftAlone(run: seq<Event>, i: nat, j: nat, u: Id)
    requires j <= |run|
  {
    forall k | i <= k < j :: !SignsIn(run[k], u) && !StatusChanged(run[k], u)
  }

  lemma {:induction false} LockPersists(cfg: Config, run: seq<Event>, i: nat, j: nat, u: Id)
    requires ValidRun(cfg, run) && i < j <= |run| && Fits(run[0].pre)
    requires Locks(cfg, run[i], u) && LeftAlone(run, i + 1, j, u)
    ensures u in run[i].pre.core.db.users
    ensures LockedTill(StateAt(run, j), u, LockEnd(cfg, run[i]), run[i].pre.core.db.users[u].passwordHash)
    decreases j
  {
    hide ValidEvent, Fits, SignsIn, StatusChanged, LockedTill, LockEnd;
    LocksKnown(cfg, run[i], u);
    if j == i + 1 {
      LockSet(cfg, run[i], u);
    } else {
      LockPersists(cfg, run, i, j - 1, u);
      RunFits(cfg, run, j - 1);
      LockStays(cfg, run[j - 1], u, LockEnd(cfg, run[i]), run[i].pre.core.db.users[u].passwordHash);
    }
  }

  lemma LocksKnown(cfg: Config, ev: Event, u: Id)
    requires Locks(cfg, ev, u)
    ensures u in ev.pre.core.db.users
  {
  }

  /**
   The wrong password that reaches the limit locks the account for the configured minutes and no longer: at the
   next sign-in to it, unless an administrator changed its status, any password is refused as locked before
   that time, and from that time on the right one is accepted, and exactly that one.
   */
  lemma LockLastsExactly(cfg: Config, run: seq<Event>, i: nat, j: nat, u: Id)
    requires ValidRun(cfg, run) && i < j < |run| && Fits(run[0].pre)
    requires Locks(cfg, run[i], u) && LeftAlone(run, i + 1, j, u) && SignsIn(run[j], u)
    ensures u in run[i].pre.core.db.users && run[j].out.Login?
    ensures LockedAnswer(run[j].out) <==> run[j].now < run[i].now + cfg.loginLockoutMinutes * 60 * 1000
    ensures !run[j].out.login.Rejected? <==>
              && run[j].now >= run[i].now + cfg.loginLockoutMinutes * 60 * 1000
              && PasswordFits(cfg, run[i].pre.core.db.users[u], run[j].req.password)
  {
    hide ValidEvent, Fits, StatusChanged;
    LockPersists(cfg, run, i, j, u);
    SignInAnswer(cfg, run[j], u);
  }
}
