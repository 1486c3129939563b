/** What an administrator's orders answer and do, from the columns; how accounts come by their role. */
module OrderAnswers {
  import opened Wrappers
  import opened Rows
  import opened Cache
  import opened Protocol
  import opened Machine
  import opened Consistency
  import opened Frames
  import opened Columns
  import opened SessionAnswers
  import opened SettingsAnswers
  import opened AccountAnswers

  /** `a` is signed in, and is or is not an administrator. */
  predicate Commands(ev: Event, a: Id, command: Command) {
    && ev.req.Administer? && ev.req.command == command && SignedIn(ev.pre, ev.now, ev.req.access, a)
    && ev.pre.core.db.users[a].role == ADMIN
  }

  predicate Pretends(ev: Event, a: Id) {
    ev.req.Administer? && SignedIn(ev.pre, ev.now, ev.req.access, a) && ev.pre.core.db.users[a].role != ADMIN
  }

  /** Nobody but an administrator gives orders. */
  lemma OnlyAdministrators(cfg: Config, ev: Event, a: Id)
    requires ValidEvent(cfg, ev) && Pretends(ev, a)
    ensures ev.out == Failed(AdminRequired) && NothingHappens(ev)
  {
    AdmittedIff(ev.pre, ev.now, ev.req.access);
    hide HexDraw, Drawn, Authenticate, Order;
  }

  lemma CommandGiven(cfg: Config, ev: Event, a: Id, command: Command)
    requires ValidEvent(cfg, ev) && Commands(ev, a, command)
    ensures SameTokens(ev.pre, ev.post)
    ensures (ev.post.core, ev.out) == (ev.pre.core.(db := Order(ev.pre.core.db, a, command).0), Order(ev.pre.core.db, a, command).1)
  {
    AdmittedIff(ev.pre, ev.now, ev.req.access);
    hide HexDraw, Drawn, Authenticate, Order;
  }

  // ---------------------------------------------------------------------------
  // Roles
  // ---------------------------------------------------------------------------

  /** Any role to any account there is, but a different one to oneself. */
  lemma RoleAnswer(cfg: Config, ev: Event, a: Id, target: Id, role: Role)
    requires ValidEvent(cfg, ev) && Commands(ev, a, ChangeRole(target, role))
    ensures var users := ev.pre.core.db.users;
            if target !in users then ev.out == Failed(NotFound) && NothingHappens(ev)
            else if target == a && role != users[target].role then ev.out == Failed(OwnRole) && NothingHappens(ev)
            else
              && ev.out == Accepted && SameTokens(ev.pre, ev.post)
              && ev.post.core == ev.pre.core.(db := ev.pre.core.db.(users := users[target := users[target].(role := role)]))
  {
    CommandGiven(cfg, ev, a, ChangeRole(target, role));
    hide ValidEvent, SignedIn;
  }

  // ---------------------------------------------------------------------------
  // Status
  // ---------------------------------------------------------------------------

  /** The changes of status there are: these eight, and leaving it as it is. */
  predicate MayBecome(from: Status, to: Status) {
    from == to ||
    (from, to) in {(ACTIVE, LOCKED), (ACTIVE, DISABLED), (ACTIVE, PENDING_VERIFICATION), (LOCKED, ACTIVE), (LOCKED, DISABLED),
                   (DISABLED, ACTIVE), (PENDING_VERIFICATION, ACTIVE), (PENDING_VERIFICATION, DISABLED)}
  }

  /** One second before the year 3000 in UTC: 1030 years after 1970, with 250 leap days. */
  const LAST_SECOND_OF_2999: Time := ((365 * 1030 + 250) * 86400 - 1) * 1000

  /** The row with the status ordered; a lock goes as far as dates are used, and any other status lifts a lock. */
  function Ordered(row: User, status: Status): User {
    row.(status := status, lockedUntil := if status == LOCKED then Some(LAST_SECOND_OF_2999) else None)
  }

  /** Locking or disabling ends every active session of the account and no other. */
  ghost predicate SessionsOrdered(a: map<Id, Session>, b: map<Id, Session>, target: Id, status: Status) {
    if status == LOCKED || status == DISABLED then
      b.Keys == a.Keys && forall id | id in a ::
        b[id] == if a[id].userId == target && a[id].status == Active then a[id].(status := Revoked) else a[id]
    else b == a
  }

  lemma StatusOrdered(db: Tables, a: Id, target: Id, status: Status)
    ensures var (db1, r) := SetUserStatus(db, a, target, status);
            if target !in db.users then r == Err(NotFound) && db1 == db
            else if target == a && status == DISABLED then r == Err(OwnAccount) && db1 == db
            else if !MayBecome(db.users[target].status, status) then r == Err(BadTransition) && db1 == db
            else
              && r == Ok(status) && SessionsOrdered(db.sessions, db1.sessions, target, status)
              && db1 == db.(users := db.users[target := Ordered(db.users[target], status)], sessions := db1.sessions)
  {
  }

  /** An order on a status is carried out exactly if it is one of the listed changes and not one's own disabling. */
  lemma StatusAnswer(cfg: Config, ev: Event, a: Id, target: Id, status: Status)
    requires ValidEvent(cfg, ev) && Commands(ev, a, ChangeStatus(target, status))
    ensures var users := ev.pre.core.db.users;
            if target !in users then ev.out == Failed(NotFound) && NothingHappens(ev)
            else if target == a && status == DISABLED then ev.out == Failed(OwnAccount) && NothingHappens(ev)
            else if !MayBecome(users[target].status, status) then ev.out == Failed(BadTransition) && NothingHappens(ev)
            else
              && ev.out == Accepted && SameTokens(ev.pre, ev.post)
              && SessionsOrdered(ev.pre.core.db.sessions, ev.post.core.db.sessions, target, status)
              && ev.post.core == ev.pre.core.(db := ev.pre.core.db.(
                   users := users[target := Ordered(users[target], status)], sessions := ev.post.core.db.sessions))
  {
    CommandGiven(cfg, ev, a, ChangeStatus(target, status));
    hide ValidEvent, SignedIn, SessionsOrdered, Ordered, MayBecome, SetUserStatus;
    StatusOrdered(ev.pre.core.db, a, target, status);
  }

  /** In particular an administrator's unlocking is accepted, and leaves the account active and without a lock. */
  lemma Unlocking(cfg: Config, ev: Event, a: Id, target: Id)
    requires ValidEvent(cfg, ev) && Commands(ev, a, ChangeStatus(target, ACTIVE))
    requires target in ev.pre.core.db.users && ev.pre.core.db.users[target].status == LOCKED
    ensures ev.out == Accepted && target in ev.post.core.db.users
    ensures ev.post.core.db.users[target].status == ACTIVE && ev.post.core.db.users[target].lockedUntil == None
  {
    hide ValidEvent, SessionsOrdered;
    StatusAnswer(cfg, ev, a, target, ACTIVE);
  }

  // ---------------------------------------------------------------------------
  // Who has which role
  // ---------------------------------------------------------------------------

  predicate RoleOrder(ev: Event, u: Id) {
    ev.req.Administer? && ev.req.command.ChangeRole? && ev.req.command.target == u && ev.out == Accepted
  }

  /** Address, password and role of an account that was there; an account that was not is a newcomer. */
  ghost predicate IdentityStep(cfg: Config, ev: Event) {
    var a, b := ev.pre.core.db.users, ev.post.core.db.users;
    && (forall u | u in a ::
          && u in b && b[u].email == a[u].email && b[u].passwordHash == a[u].passwordHash
          && b[u].role == if RoleOrder(ev, u) then ev.req.command.role else a[u].role)
    && (forall u | u in b && u !in a :: ev.req.SignUp? && b[u] == Newcomer(cfg, ev.req.email, ev.req.password))
  }

  ghost predicate SameIdentities(a: map<Id, User>, b: map<Id, User>) {
    a.Keys == b.Keys && forall u | u in a :: SameIdentity(a[u], b[u])
  }

  lemma SameIdentitiesStep(cfg: Config, ev: Event)
    requires SameIdentities(ev.pre.core.db.users, ev.post.core.db.users) && forall u :: !RoleOrder(ev, u)
    ensures IdentityStep(cfg, ev)
  {
  }

  lemma RowChangesKeep(a: map<Id, User>, b: map<Id, User>, u: Id)
    ensures OnlyLogin(a, b, u) ==> SameIdentities(a, b)
    ensures OnlyFlags(a, b, u) ==> SameIdentities(a, b)
    ensures a == b ==> SameIdentities(a, b)
  {
  }

  lemma ConfirmingKeeps(c: Core, now: Time, token: string)
    ensures SameIdentities(c.db.users, VerifyEmail(c, now, token).0.db.users)
  {
    hide VerifyEmail;
    VerifyEmailUsers(c, now, token);
  }

  lemma NewIdentity(s: Sys, e: Entropy)
    requires Fits(s) && FreshDraw(s, e)
    ensures e.uuid !in s.core.db.users
  {
    DrawnParts(e);
    hide Drawn, Fits;
    NotYetUsedAsUser(s, e.uuid);
  }

  lemma NewcomerStep(cfg: Config, ev: Event, u: Id)
    requires ev.req.SignUp? && u !in ev.pre.core.db.users
    requires ev.post.core.db.users == ev.pre.core.db.users[u := Newcomer(cfg, ev.req.email, ev.req.password)]
    ensures IdentityStep(cfg, ev)
  {
    hide Newcomer;
  }

  lemma UntouchedStep(cfg: Config, ev: Event)
    requires ev.req.SignUp? && ev.post.core.db.users == ev.pre.core.db.users
    ensures IdentityStep(cfg, ev)
  {
    hide Newcomer;
  }

  lemma SignUpStep(cfg: Config, ev: Event)
    requires ValidEvent(cfg, ev) && Fits(ev.pre) && ev.req.SignUp?
    ensures IdentityStep(cfg, ev)
  {
    EventDraws(cfg, ev);
    hide ValidEvent, Fits, FreshDraw, AccountAt, Newcomer, Mailed, IdentityStep, SameTokens;
    NewIdentity(ev.pre, ev.entropy);
    if u :| AccountAt(ev.pre.core.db, ev.req.email, u) {
      AccountIsThere(ev.pre.core.db, ev.req.email, u);
      SignUpAgain(cfg, ev, u);
      UntouchedStep(cfg, ev);
    } else {
      SignUpNew(cfg, ev);
      NewcomerStep(cfg, ev, ev.entropy.uuid);
    }
  }

  lemma AccountIsThere(db: Tables, email: string, u: Id)
    requires AccountAt(db, email, u)
    ensures u in db.users
  {
  }

  lemma OrderStep(cfg: Config, ev: Event)
    requires ValidEvent(cfg, ev) && ev.req.Administer?
    ensures IdentityStep(cfg, ev)
  {
    hide ValidEvent, SignedIn, SessionsOrdered, MayBecome;
    if a :| SignedIn(ev.pre, ev.now, ev.req.access, a) {
      AdmittedThere(ev.pre, ev.now, ev.req.access, a);
      if ev.pre.core.db.users[a].role != ADMIN {
        OnlyAdministrators(cfg, ev, a);
      } else if ev.req.command.ChangeRole? {
        RoleAnswer(cfg, ev, a, ev.req.command.target, ev.req.command.role);
      } else {
        StatusAnswer(cfg, ev, a, ev.req.command.target, ev.req.command.status);
      }
    } else {
      NotSignedIn(cfg, ev);
    }
  }

  lemma RestKeeps(cfg: Config, ev: Event)
    requires ValidEvent(cfg, ev) && !ev.req.SignUp? && !ev.req.Administer?
    ensures SameIdentities(ev.pre.core.db.users, ev.post.core.db.users)
  {
    var s, now, e, users := ev.pre, ev.now, ev.entropy, ev.pre.core.db.users;
    EventUsers(cfg, ev);
    var after := ev.post.core.db.users;
    hide ValidEvent, HexDraw, SameIdentities, OnlyLogin, OnlyFlags, LoginRows, Act, Authenticate, FindByEmail, VerifyEmail;
    RowChangesKeep(users, after, "");
    match ev.req
    case ConfirmEmail(token) => ConfirmingKeeps(s.core, now, token);
    case SignIn(email, password, _, _) =>
      LoginRowsChange(cfg, s.core.db, now, email, password);
      if FindByEmail(s.core.db, email).Some? {
        RowChangesKeep(users, after, FindByEmail(s.core.db, email).value);
      }
    case Settings(access, action) =>
      if Authenticate(s, now, access).Ok? {
        ActUsers(cfg, s.core, now, Authenticate(s, now, access).value, action, e);
        RowChangesKeep(users, after, Authenticate(s, now, access).value);
      }
    case _ =>
  }

  lemma EventUsers(cfg: Config, ev: Event)
    requires ValidEvent(cfg, ev)
    ensures HexDraw(ev.entropy.hex) && ev.post.core.db.users == UsersAfter(cfg, ev.pre, ev.now, ev.req, ev.entropy)
  {
    hide HexDraw, Drawn, Handle, UsersAfter;
    HandleUsers(cfg, ev.pre, ev.now, ev.req, ev.entropy);
  }

  /** No request but an accepted order changes a role, none changes an address or a password, and only a sign-up adds an account. */
  lemma EventIdentities(cfg: Config, ev: Event)
    requires ValidEvent(cfg, ev) && Fits(ev.pre)
    ensures IdentityStep(cfg, ev)
  {
    hide ValidEvent, Fits, IdentityStep, SameIdentities;
    if ev.req.SignUp? {
      SignUpStep(cfg, ev);
    } else if ev.req.Administer? {
      OrderStep(cfg, ev);
    } else {
      RestKeeps(cfg, ev);
      SameIdentitiesStep(cfg, ev);
    }
  }

  /** An accepted order on a role was given by an administrator, to somebody else unless it changes nothing. */
  lemma RoleGivenBy(cfg: Config, ev: Event, u: Id) returns (a: Id)
    requires ValidEvent(cfg, ev) && RoleOrder(ev, u)
    ensures Commands(ev, a, ev.req.command) && u in ev.pre.core.db.users
    ensures a == u ==> ev.req.command.role == ev.pre.core.db.users[u].role
    ensures u in ev.post.core.db.users && ev.post.core.db.users[u].role == ev.req.command.role
  {
    hide ValidEvent, SignedIn;
    if b :| SignedIn(ev.pre, ev.now, ev.req.access, b) {
      a := b;
      AdmittedIff(ev.pre, ev.now, ev.req.access);
      AdmittedThere(ev.pre, ev.now, ev.req.access, b);
      if ev.pre.core.db.users[b].role == ADMIN {
        RoleAnswer(cfg, ev, b, u, ev.req.command.role);
      } else {
        OnlyAdministrators(cfg, ev, b);
      }
    } else {
      NotSignedIn(cfg, ev);
    }
  }

  lemma AdmittedThere(s: Sys, now: Time, access: string, u: Id)
    requires SignedIn(s, now, access, u)
    ensures u in s.core.db.users
  {
  }

  /** The last role ordered for `u` in the first `n` events. */
  function LastRole(run: seq<Event>, n: nat, u: Id): Option<Role>
    requires n <= |run|
  {
    if n == 0 then None
    else if RoleOrder(run[n - 1], u) then Some(run[n - 1].req.command.role)
    else LastRole(run, n - 1, u)
  }

  function FirstRole(s: Sys, u: Id): Role {
    if u in s.core.db.users then s.core.db.users[u].role else USER
  }

  /** Over runs: a role is the last one an administrator ordered, and without an order the first, which is USER for a newcomer. */
  lemma {:induction false} RoleIsLastOrdered(cfg: Config, run: seq<Event>, n: nat, u: Id)
    requires ValidRun(cfg, run) && run != [] && n <= |run| && Fits(run[0].pre)
    requires u in StateAt(run, n).core.db.users
    ensures StateAt(run, n).core.db.users[u].role
         == if LastRole(run, n, u) != None then LastRole(run, n, u).value else FirstRole(run[0].pre, u)
  {
    hide ValidEvent, Fits, RoleOrder;
    if n > 0 {
      var ev := run[n - 1];
      RunFits(cfg, run, n - 1);
      EventIdentities(cfg, ev);
      if u in ev.pre.core.db.users {
        RoleIsLastOrdered(cfg, run, n - 1, u);
      } else {
        NoRoleBefore(cfg, run, n - 1, u);
        NotOrderedYet(cfg, ev, u);
      }
    }
  }

  lemma NotOrderedYet(cfg: Config, ev: Event, u: Id)
    requires ValidEvent(cfg, ev) && u !in ev.pre.core.db.users
    ensures !RoleOrder(ev, u)
  {
    hide ValidEvent;
    if RoleOrder(ev, u) {
      var a := RoleGivenBy(cfg, ev, u);
      assert false;
    }
  }

  lemma {:induction false} NoRoleBefore(cfg: Config, run: seq<Event>, n: nat, u: Id)
    requires ValidRun(cfg, run) && run != [] && n <= |run| && Fits(run[0].pre) && u !in StateAt(run, n).core.db.users
    ensures LastRole(run, n, u) == None && u !in run[0].pre.core.db.users
  {
    hide ValidEvent, Fits, RoleOrder;
    if n > 0 {
      RunFits(cfg, run, n - 1);
      EventIdentities(cfg, run[n - 1]);
      NoRoleBefore(cfg, run, n - 1, u);
      NotOrderedYet(cfg, run[n - 1], u);
    }
  }

  /** So an administrator was one at the start, or was made one by an administrator. */
  lemma {:induction false} AdministratorsAreMade(cfg: Config, run: seq<Event>, n: nat, u: Id)
    requires ValidRun(cfg, run) && run != [] && n <= |run| && Fits(run[0].pre)
    requires u in StateAt(run, n).core.db.users && StateAt(run, n).core.db.users[u].role == ADMIN
    ensures (u in run[0].pre.core.db.users && run[0].pre.core.db.users[u].role == ADMIN)
         || exists i, a | 0 <= i < n :: Commands(run[i], a, ChangeRole(u, ADMIN)) && run[i].out == Accepted
  {
    hide ValidEvent, Fits, Commands;
    if n > 0 {
      var ev := run[n - 1];
      RunFits(cfg, run, n - 1);
      EventIdentities(cfg, ev);
      if RoleOrder(ev, u) {
        var a := RoleGivenBy(cfg, ev, u);
        assert Commands(run[n - 1], a, ChangeRole(u, ADMIN));
      } else if u in ev.pre.core.db.users {
        AdministratorsAreMade(cfg, run, n - 1, u);
      }
    }
  }

  /** Without an administrator at the start there never is one. */
  lemma {:induction false} NoneFromNone(cfg: Config, run: seq<Event>, n: nat, u: Id)
    requires ValidRun(cfg, run) && run != [] && n <= |run| && Fits(run[0].pre)
    requires forall v | v in run[0].pre.core.db.users :: run[0].pre.core.db.users[v].role == USER
    requires u in StateAt(run, n).core.db.users
    ensures StateAt(run, n).core.db.users[u].role == USER
    decreases n
  {
    hide ValidEvent, Fits, Commands;
    if StateAt(run, n).core.db.users[u].role == ADMIN {
      AdministratorsAreMade(cfg, run, n, u);
      var i, a :| 0 <= i < n && Commands(run[i], a, ChangeRole(u, ADMIN));
      CommandsIs(run[i], a, ChangeRole(u, ADMIN));
      NoneFromNone(cfg, run, i, a);
    }
  }

  lemma CommandsIs(ev: Event, a: Id, command: Command)
    requires Commands(ev, a, command)
    ensures a in ev.pre.core.db.users && ev.pre.core.db.users[a].role == ADMIN
  {
  }
}
