/** An administrator always remains. */
module Admins {
  import opened Wrappers
  import opened Rows
  import opened Protocol
  import opened Machine
  import opened Consistency
  import opened Frames

  predicate Administrator(users: map<Id, User>, u: Id) {
    u in users && users[u].role.ADMIN? && !users[u].status.DISABLED?
  }

  ghost predicate SomeAdministrator(users: map<Id, User>) {
    exists u :: Administrator(users, u)
  }

  lemma RowsKeepAdministrator(a: map<Id, User>, b: map<Id, User>, changed: Id, u: Id)
    requires Administrator(a, u)
    ensures LeavesRow(a, b, u) || OnlyLogin(a, b, changed) ==> Administrator(b, u)
  {
  }

  /** No request but an administrator's takes the role away or disables an account. */
  lemma OthersKeepAdministrators(cfg: Config, s: Sys, now: Time, req: Request, e: Entropy, u: Id)
    requires Fits(s) && FreshDraw(s, e) && !req.Administer? && Administrator(s.core.db.users, u)
    ensures Administrator(UsersAfter(cfg, s, now, req, e), u)
  {
    DrawnParts(e);
    hide Fits, Drawn, HexDraw, LeavesRow, OnlyLogin, LoginRows, FindByEmail;
    RowsKeepAdministrator(s.core.db.users, UsersAfter(cfg, s, now, req, e), u, u);
    if req.SignIn? && FindByEmail(s.core.db, req.email) == Some(u) {
      LoginRowsChange(cfg, s.core.db, now, req.email, req.password);
    } else {
      hide UsersAfter, Administrator;
      OthersLeaveRow(cfg, s, now, req, e, u);
    }
  }

  /** An administrator's own request leaves that administrator in place. */
  lemma ActorRemains(s: Sys, now: Time, access: string, command: Command)
    requires Authenticate(s, now, access).Ok? && RequireAdmin(s, Authenticate(s, now, access).value).Ok?
    ensures var actor := Authenticate(s, now, access).value;
            Administrator(Order(s.core.db, actor, command).0.users, actor)
  {
  }

  lemma RequestKeepsAdministrator(cfg: Config, s: Sys, now: Time, req: Request, e: Entropy)
    requires Fits(s) && FreshDraw(s, e) && SomeAdministrator(s.core.db.users)
    ensures SomeAdministrator(UsersAfter(cfg, s, now, req, e))
  {
    var u :| Administrator(s.core.db.users, u);
    hide Fits, FreshDraw, HexDraw, Order, Authenticate, RequireAdmin, Administrator, UsersAfter;
    var after := UsersAfter(cfg, s, now, req, e);
    if req.Administer? {
      var actor := Authenticate(s, now, req.access);
      AdministerUsers(cfg, s, now, req, e);
      if actor.Ok? && RequireAdmin(s, actor.value).Ok? {
        ActorRemains(s, now, req.access, req.command);
        assert Administrator(after, actor.value);
      } else {
        assert Administrator(after, u);
      }
    } else {
      OthersKeepAdministrators(cfg, s, now, req, e, u);
      assert Administrator(after, u);
    }
  }

  lemma AdministerUsers(cfg: Config, s: Sys, now: Time, req: Request, e: Entropy)
    requires HexDraw(e.hex) && req.Administer?
    ensures var actor := Authenticate(s, now, req.access);
            var allowed := actor.Ok? && RequireAdmin(s, actor.value).Ok?;
            && (allowed ==> UsersAfter(cfg, s, now, req, e) == Order(s.core.db, actor.value, req.command).0.users)
            && (!allowed ==> UsersAfter(cfg, s, now, req, e) == s.core.db.users)
  {
  }

  lemma StepKeepsAdministrator(cfg: Config, s: Sys, now: Time, req: Request, e: Entropy)
    requires Fits(s) && FreshDraw(s, e) && SomeAdministrator(s.core.db.users)
    ensures SomeAdministrator(Step(cfg, s, now, req, e).0.core.db.users)
  {
    hide Fits, Drawn, HexDraw, Handle, UsersAfter, SomeAdministrator;
    RequestKeepsAdministrator(cfg, s, now, req, e);
    HandleUsers(cfg, s, now, req, e);
  }

  /**
   Whatever requests are made, by whomever, a service that starts with an administrator
   who is not disabled has one after every request.
   */
  lemma {:induction false} AnAdministratorRemains(cfg: Config, run: seq<Event>, n: nat)
    requires ValidRun(cfg, run) && run != [] && n <= |run|
    requires Fits(run[0].pre) && SomeAdministrator(run[0].pre.core.db.users)
    ensures SomeAdministrator(StateAt(run, n).core.db.users)
  {
    hide Fits, FreshDraw, Step, SomeAdministrator;
    if n > 0 {
      AnAdministratorRemains(cfg, run, n - 1);
      RunFits(cfg, run, n - 1);
      var ev := run[n - 1];
      assert ValidEvent(cfg, ev);
      StepKeepsAdministrator(cfg, ev.pre, ev.now, ev.req, ev.entropy);
    }
  }
}
