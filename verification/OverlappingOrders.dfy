/** Whether an administrator remains when administrators' orders overlap. */
module OverlappingOrders {
  import opened Wrappers
  import opened Rows
  import opened Cache
  import opened Protocol
  import opened Machine
  import opened Admins
  import opened Interleaving
  import opened WorldInvariant
  import opened OverlappingSignIns

  /** An order that can cost an administrator: a demotion or a disabling. */
  predicate Dangerous(command: Command) {
    (command.ChangeRole? && command.role.USER?) || (command.ChangeStatus? && command.status.DISABLED?)
  }

  /** A dangerous order past the read that let its administrator in, and not yet carried out. */
  predicate Threatens(flight: Flight) {
    || (flight.Admitting? && flight.administrator && flight.order.Some? && Dangerous(flight.order.value))
    || (flight.Ordering? && Dangerous(flight.command))
    || (flight.Changing? && Dangerous(flight.command))
  }

  function ActorOf(flight: Flight): Id
    requires Threatens(flight)
  {
    match flight
    case Admitting(u, _, _, _, _) => u
    case Ordering(actor, _) => actor
    case Changing(actor, _) => actor
  }

  ghost predicate OneThreat(w: World) {
    forall f, g | f in w.flights && g in w.flights && Threatens(w.flights[f]) && Threatens(w.flights[g]) :: f == g
  }

  /** Whoever gives a dangerous order is an administrator, and not its target once that is checked. */
  predicate Guarded(users: map<Id, User>, flight: Flight) {
    Threatens(flight) ==>
      Administrator(users, ActorOf(flight)) && (flight.Changing? ==> flight.command.target != flight.actor)
  }

  ghost predicate AllGuarded(w: World) {
    forall f | f in w.flights :: Guarded(w.sys.core.db.users, w.flights[f])
  }

  // ---------------------------------------------------------------------------
  // What takes an administrator away
  // ---------------------------------------------------------------------------

  /** Only carrying out a dangerous order takes an administrator away, and then it is the target. */
  lemma WritesKeepAdministrator(cfg: Config, users: map<Id, User>, flight: Flight, u: Id)
    requires WritesUsers(flight) && Administrator(users, u)
    requires !(Threatens(flight) && flight.Changing? && flight.command.target == u)
    ensures Administrator(GoUsers(cfg, users, flight).0, u)
  {
    hide Compare;
  }

  lemma ContinueKeepsAdministrator(cfg: Config, s: Sys, flight: Flight, e: Entropy, u: Id)
    requires Administrator(s.core.db.users, u)
    requires !(Threatens(flight) && flight.Changing? && flight.command.target == u)
    ensures Administrator(Continue(cfg, s, flight, e).0.core.db.users, u)
  {
    hide Continue, GoUsers, Administrator;
    ContinueUsers(cfg, s, flight, e);
    if WritesUsers(flight) {
      WritesKeepAdministrator(cfg, s.core.db.users, flight, u);
    }
  }

  lemma StageKeepsAdministrator(cfg: Config, st: Stage, u: Id)
    requires ValidStage(cfg, st) && Administrator(st.pre.sys.core.db.users, u)
    requires Flying(st).Some? ==> !(Threatens(Flying(st).value) && Flying(st).value.Changing? && Flying(st).value.command.target == u)
    ensures Administrator(st.post.sys.core.db.users, u)
  {
    StageParts(cfg, st);
    hide ValidStage, Continue, Departure, Single, Administrator, Threatens;
    if Flying(st).Some? {
      ContinueKeepsAdministrator(cfg, st.pre.sys, Flying(st).value, st.move.entropy, u);
    } else {
      UsersOnlyByFlights(cfg, st.pre.sys, st.move);
    }
  }

  // ---------------------------------------------------------------------------
  // Where threats come from
  // ---------------------------------------------------------------------------

  lemma DepartureThreat(cfg: Config, s: Sys, m: Move)
    requires Begins(m)
    ensures var r := Departure(cfg, s, m).1;
            r.Ok? && Threatens(r.value) ==> r.value.Admitting? && Administrator(s.core.db.users, ActorOf(r.value))
  {
    hide ChallengeUser, PasswordMatches, SecondsUp, LockedOut, Dangerous;
  }

  lemma WritersThreatenNobody(cfg: Config, s: Sys, flight: Flight, e: Entropy)
    requires WritesSessions(flight) || WritesUsers(flight) || WritesCodes(flight) || WritesCache(flight)
    ensures var next := Continue(cfg, s, flight, e).1; next.On? ==> !Threatens(next.flight)
    ensures var next := Continue(cfg, s, flight, e).1; next.On? ==> !next.flight.Changing?
  {
    hide GoSession, PasswordMatches, MarkLoginSuccess, Unlock, FailedLogin, Changed, MarkEmailVerified, SetItem, GetItem, ChallengeKey,
      CeremonyKey, ConsumeRecoveryCode, DeleteRecoveryCodes, CreateRecoveryCodes, Insertable, RecoveryHashes, HexDraw, Dangerous, GoElse;
    if WritesSessions(flight) {
      GoSessionFrame(cfg, s, flight, e);
    }
  }

  /** A threat goes on as a threat of the same administrator; no other flight becomes one. */
  lemma ContinueThreat(cfg: Config, s: Sys, flight: Flight, e: Entropy)
    ensures var next := Continue(cfg, s, flight, e).1;
            next.On? && Threatens(next.flight) ==> Threatens(flight) && ActorOf(next.flight) == ActorOf(flight)
    ensures var next := Continue(cfg, s, flight, e).1;
            next.On? && next.flight.Changing? ==>
              flight.Ordering? && next.flight == Changing(flight.actor, flight.command)
              && Objection(s.core.db, flight.actor, flight.command).None?
  {
    if WritesSessions(flight) || WritesUsers(flight) || WritesCodes(flight) || WritesCache(flight) {
      hide Continue, Threatens, WritesSessions, WritesUsers, WritesCodes, WritesCache;
      WritersThreatenNobody(cfg, s, flight, e);
    } else {
      hide GoSession, GoUsers, GoCodes, GoCache, DeviceTrusted, AvailableMethods, UpdateCounter, MarkUsed, Objection, SessionActive, Dangerous,
        CredentialsOf;
    }
  }

  /** An administrator has no dangerous order against itself accepted. */
  lemma NotAgainstItself(db: Tables, actor: Id, command: Command)
    requires Dangerous(command) && Administrator(db.users, actor) && Objection(db, actor, command).None?
    ensures command.target != actor
  {
  }

  // ---------------------------------------------------------------------------
  // Guards
  // ---------------------------------------------------------------------------

  /** While at most one threat is in flight, its administrator stays one. */
  lemma OthersStayGuarded(cfg: Config, st: Stage, f: nat)
    requires ValidStage(cfg, st) && AllGuarded(st.pre) && OneThreat(st.pre)
    requires f in st.pre.flights && !(st.move.Go? && st.move.flight == f)
    ensures Guarded(st.post.sys.core.db.users, st.pre.flights[f])
  {
    hide ValidStage, Administrator;
    if Threatens(st.pre.flights[f]) {
      assert Guarded(st.pre.sys.core.db.users, st.pre.flights[f]);
      StageKeepsAdministrator(cfg, st, ActorOf(st.pre.flights[f]));
    }
  }

  lemma NextGuarded(cfg: Config, st: Stage)
    requires ValidStage(cfg, st) && AllGuarded(st.pre) && Flying(st).Some? && st.move.flight in st.post.flights
    ensures Guarded(st.post.sys.core.db.users, st.post.flights[st.move.flight])
  {
    StageParts(cfg, st);
    var flight, next := Flying(st).value, st.post.flights[st.move.flight];
    ContinueThreat(cfg, st.pre.sys, flight, st.move.entropy);
    assert Guarded(st.pre.sys.core.db.users, flight);
    hide ValidStage, Continue, Objection, Dangerous;
    if Threatens(next) {
      var actor := ActorOf(next);
      if next.Changing? {
        NotAgainstItself(st.pre.sys.core.db, actor, next.command);
      }
      ThreatLandsOnChange(cfg, st.pre.sys, flight, st.move.entropy);
      hide Administrator;
      StageKeepsAdministrator(cfg, st, actor);
    }
  }

  lemma ThreatLandsOnChange(cfg: Config, s: Sys, flight: Flight, e: Entropy)
    ensures var next := Continue(cfg, s, flight, e).1; flight.Changing? && next.On? ==> !Threatens(next.flight)
  {
    hide Changed;
  }

  lemma TakenOffGuarded(cfg: Config, st: Stage)
    requires ValidStage(cfg, st) && TakingOff(st).Some?
    ensures Guarded(st.post.sys.core.db.users, TakingOff(st).value)
  {
    StageParts(cfg, st);
    hide ValidStage, Departure, Administrator;
    DepartureThreat(cfg, st.pre.sys, st.move);
    UsersOnlyByFlights(cfg, st.pre.sys, st.move);
  }

  lemma StageGuarded(cfg: Config, st: Stage)
    requires ValidStage(cfg, st) && AllGuarded(st.pre) && OneThreat(st.pre)
    ensures AllGuarded(st.post)
  {
    StageParts(cfg, st);
    hide ValidStage, Continue, Departure, Single, Guarded, OneThreat;
    forall f | f in st.post.flights ensures Guarded(st.post.sys.core.db.users, st.post.flights[f]) {
      if Flying(st).Some? && st.move.flight == f {
        NextGuarded(cfg, st);
      } else if TakingOff(st).Some? && st.move.flight == f {
        TakenOffGuarded(cfg, st);
      } else {
        OthersStayGuarded(cfg, st, f);
      }
    }
  }

  lemma StageKeepsSome(cfg: Config, st: Stage)
    requires ValidStage(cfg, st) && AllGuarded(st.pre) && SomeAdministrator(st.pre.sys.core.db.users)
    ensures SomeAdministrator(st.post.sys.core.db.users)
  {
    var u :| Administrator(st.pre.sys.core.db.users, u);
    hide ValidStage, Administrator;
    if Flying(st).Some? && Threatens(Flying(st).value) && Flying(st).value.Changing? {
      var flight := Flying(st).value;
      assert Guarded(st.pre.sys.core.db.users, flight);
      StageKeepsAdministrator(cfg, st, flight.actor);
    } else {
      StageKeepsAdministrator(cfg, st, u);
    }
  }

  /**
   However calls of any requests interleave: as long as no two demotions or disablings are
   under way together, each from the read that lets its administrator in to its write, a
   service with an administrator who is not disabled keeps one.
   */
  lemma {:induction false} AnAdministratorRemainsOneByOne(cfg: Config, trace: seq<Stage>, n: nat)
    requires ValidTrace(cfg, trace) && trace != [] && n <= |trace|
    requires AllGuarded(trace[0].pre) && SomeAdministrator(trace[0].pre.sys.core.db.users)
    requires forall i | 0 <= i < |trace| :: OneThreat(trace[i].pre)
    ensures AllGuarded(WorldAt(trace, n)) && SomeAdministrator(WorldAt(trace, n).sys.core.db.users)
  {
    hide ValidStage, AllGuarded, OneThreat, SomeAdministrator;
    if n > 0 {
      AnAdministratorRemainsOneByOne(cfg, trace, n - 1);
      StageGuarded(cfg, trace[n - 1]);
      StageKeepsSome(cfg, trace[n - 1]);
    }
  }

  // ---------------------------------------------------------------------------
  // Two orders that overlap
  // ---------------------------------------------------------------------------

  /** The access token lets its account in now, and the account is an administrator. */
  predicate LetsIn(s: Sys, access: string, now: Time, u: Id) {
    access in s.accessTokens && Authenticate(s, now, access) == Ok(u) && Administrator(s.core.db.users, u)
  }

  function TwoOrders(f: nat, g: nat, ta: string, tb: string, a: Id, b: Id, now: Time, e: Entropy): seq<Move> {
    [ReadForAdmission(f, ta, Some(ChangeRole(b, USER)), now), ReadForAdmission(g, tb, Some(ChangeRole(a, USER)), now),
     Go(f, e), Go(g, e), Go(f, e), Go(g, e), Go(f, e), Go(g, e)]
  }

  lemma AdmissionCall(cfg: Config, w: World, f: nat, access: string, u: Id, command: Command, now: Time)
    requires f !in w.flights && LetsIn(w.sys, access, now, u)
    ensures access in w.sys.accessTokens
    ensures var m, id := ReadForAdmission(f, access, Some(command), now), w.sys.accessTokens[access].sessionId;
            && SessionActive(w.sys.core.db.sessions, id, u, now) && DrawnBy(w, m) == {}
            && Call(cfg, w, m).0 == w.(flights := w.flights[f := Admitting(u, id, true, Some(command), now)])
  {
    assert w.sys.(drawn := w.sys.drawn + {}) == w.sys;
  }

  lemma AdmitCall(cfg: Config, w: World, f: nat, e: Entropy)
    requires f in w.flights && w.flights[f].Admitting? && w.flights[f].administrator && w.flights[f].order.Some?
    requires SessionActive(w.sys.core.db.sessions, w.flights[f].id, w.flights[f].userId, w.flights[f].at)
    ensures DrawnBy(w, Go(f, e)) == {}
    ensures Call(cfg, w, Go(f, e)).0 == w.(flights := w.flights[f := Ordering(w.flights[f].userId, w.flights[f].order.value)])
  {
    hide GoSession, GoUsers, GoCodes, GoCache, SessionActive;
    assert w.sys.(drawn := w.sys.drawn + {}) == w.sys;
  }

  lemma OrderCall(cfg: Config, w: World, f: nat, e: Entropy)
    requires f in w.flights && w.flights[f].Ordering? && Objection(w.sys.core.db, w.flights[f].actor, w.flights[f].command).None?
    ensures DrawnBy(w, Go(f, e)) == {}
    ensures Call(cfg, w, Go(f, e)).0 == w.(flights := w.flights[f := Changing(w.flights[f].actor, w.flights[f].command)])
  {
    hide GoSession, GoUsers, GoCodes, GoCache, Objection;
    assert w.sys.(drawn := w.sys.drawn + {}) == w.sys;
  }

  lemma ChangeCall(cfg: Config, w: World, f: nat, target: Id, e: Entropy)
    requires f in w.flights && w.flights[f].Changing? && w.flights[f].command == ChangeRole(target, USER)
    ensures DrawnBy(w, Go(f, e)) == {}
    ensures Call(cfg, w, Go(f, e)).0 == World(WithUsers(w.sys, SetRole(w.sys.core.db.users, target, USER)), w.flights - {f})
  {
    hide GoSession, GoCodes, GoCache, GoElse, SetRole;
    assert w.sys.drawn + {} == w.sys.drawn;
  }

  /** The orders of both administrators have been checked against their targets. */
  function BothChanging(w: World, f: nat, g: nat, a: Id, b: Id): World {
    w.(flights := w.flights[f := Changing(a, ChangeRole(b, USER))][g := Changing(b, ChangeRole(a, USER))])
  }

  lemma NoObjection(db: Tables, actor: Id, target: Id)
    requires actor != target && target in db.users
    ensures Objection(db, actor, ChangeRole(target, USER)).None?
  {
  }

  function LetIn(s: Sys, access: string, u: Id, target: Id, now: Time): Flight
    requires access in s.accessTokens
  {
    Admitting(u, s.accessTokens[access].sessionId, true, Some(ChangeRole(target, USER)), now)
  }

  /** Both administrators have been let in. */
  function BothLetIn(w: World, f: nat, g: nat, ta: string, tb: string, a: Id, b: Id, now: Time): World
    requires ta in w.sys.accessTokens && tb in w.sys.accessTokens
  {
    w.(flights := w.flights[f := LetIn(w.sys, ta, a, b, now)][g := LetIn(w.sys, tb, b, a, now)])
  }

  lemma TwoLetIn(cfg: Config, w: World, f: nat, g: nat, ta: string, tb: string, a: Id, b: Id, now: Time)
    requires f != g && f !in w.flights && g !in w.flights && LetsIn(w.sys, ta, now, a) && LetsIn(w.sys, tb, now, b)
    ensures ta in w.sys.accessTokens && tb in w.sys.accessTokens
    ensures var m, n := ReadForAdmission(f, ta, Some(ChangeRole(b, USER)), now), ReadForAdmission(g, tb, Some(ChangeRole(a, USER)), now);
            var w1 := Call(cfg, w, m).0;
            && DrawnBy(w, m) == DrawnBy(w1, n) == {}
            && Call(cfg, w1, n).0 == BothLetIn(w, f, g, ta, tb, a, b, now)
  {
    AdmissionCall(cfg, w, f, ta, a, ChangeRole(b, USER), now);
    var w1 := w.(flights := w.flights[f := LetIn(w.sys, ta, a, b, now)]);
    AdmissionCall(cfg, w1, g, tb, b, ChangeRole(a, USER), now);
    hide Call, DrawnBy, Authenticate, Administrator, SessionActive;
  }

  lemma InSession(s: Sys, access: string, now: Time, u: Id)
    requires LetsIn(s, access, now, u)
    ensures SessionActive(s.core.db.sessions, s.accessTokens[access].sessionId, u, now)
  {
  }

  lemma TargetsExist(s: Sys, access: string, now: Time, u: Id)
    requires LetsIn(s, access, now, u)
    ensures u in s.core.db.users
  {
  }

  lemma ThenChecked(cfg: Config, w: World, f: nat, g: nat, ta: string, tb: string, a: Id, b: Id, now: Time, e: Entropy)
    requires f != g && a != b && LetsIn(w.sys, ta, now, a) && LetsIn(w.sys, tb, now, b)
    ensures ta in w.sys.accessTokens && tb in w.sys.accessTokens
    ensures var w2 := BothLetIn(w, f, g, ta, tb, a, b, now);
            var w3 := Call(cfg, w2, Go(f, e)).0;
            var w4 := Call(cfg, w3, Go(g, e)).0;
            var w5 := Call(cfg, w4, Go(f, e)).0;
            && Call(cfg, w5, Go(g, e)).0 == BothChanging(w, f, g, a, b)
            && DrawnBy(w2, Go(f, e)) == DrawnBy(w3, Go(g, e)) == DrawnBy(w4, Go(f, e)) == DrawnBy(w5, Go(g, e)) == {}
  {
    TargetsExist(w.sys, ta, now, a);
    TargetsExist(w.sys, tb, now, b);
    NoObjection(w.sys.core.db, a, b);
    NoObjection(w.sys.core.db, b, a);
    InSession(w.sys, ta, now, a);
    InSession(w.sys, tb, now, b);
    hide Call, DrawnBy, LetsIn, Objection, SessionActive;
    FourChecks(cfg, BothLetIn(w, f, g, ta, tb, a, b, now), f, g, a, b, e);
    Overwritten(w.flights, f, g, LetIn(w.sys, ta, a, b, now), LetIn(w.sys, tb, b, a, now), a, b);
  }

  lemma Overwritten(flights: map<nat, Flight>, f: nat, g: nat, x: Flight, y: Flight, a: Id, b: Id)
    requires f != g
    ensures var p, q := Changing(a, ChangeRole(b, USER)), Changing(b, ChangeRole(a, USER));
            flights[f := x][g := y][f := p][g := q] == flights[f := p][g := q]
  {
  }

  lemma FourChecks(cfg: Config, w: World, f: nat, g: nat, a: Id, b: Id, e: Entropy)
    requires f != g && f in w.flights && g in w.flights && w.flights[f].Admitting? && w.flights[g].Admitting?
    requires w.flights[f].administrator && w.flights[f].order == Some(ChangeRole(b, USER)) && w.flights[f].userId == a
    requires w.flights[g].administrator && w.flights[g].order == Some(ChangeRole(a, USER)) && w.flights[g].userId == b
    requires SessionActive(w.sys.core.db.sessions, w.flights[f].id, a, w.flights[f].at)
    requires SessionActive(w.sys.core.db.sessions, w.flights[g].id, b, w.flights[g].at)
    requires Objection(w.sys.core.db, a, ChangeRole(b, USER)).None? && Objection(w.sys.core.db, b, ChangeRole(a, USER)).None?
    ensures var w1 := Call(cfg, w, Go(f, e)).0;
            var w2 := Call(cfg, w1, Go(g, e)).0;
            var w3 := Call(cfg, w2, Go(f, e)).0;
            && Call(cfg, w3, Go(g, e)).0
               == w.(flights := w.flights[f := Changing(a, ChangeRole(b, USER))][g := Changing(b, ChangeRole(a, USER))])
            && DrawnBy(w, Go(f, e)) == DrawnBy(w1, Go(g, e)) == DrawnBy(w2, Go(f, e)) == DrawnBy(w3, Go(g, e)) == {}
  {
    hide Call, DrawnBy, Objection, SessionActive;
    AdmitCall(cfg, w, f, e);
    var w1 := w.(flights := w.flights[f := Ordering(a, ChangeRole(b, USER))]);
    AdmitCall(cfg, w1, g, e);
    var w2 := w1.(flights := w1.flights[g := Ordering(b, ChangeRole(a, USER))]);
    OrderCall(cfg, w2, f, e);
    var w3 := w2.(flights := w2.flights[f := Changing(a, ChangeRole(b, USER))]);
    OrderCall(cfg, w3, g, e);
    assert w3.flights[g := Changing(b, ChangeRole(a, USER))]
        == w.flights[f := Changing(a, ChangeRole(b, USER))][g := Changing(b, ChangeRole(a, USER))];
  }

  lemma TwoChanged(cfg: Config, w: World, f: nat, g: nat, a: Id, b: Id, e: Entropy)
    requires f != g
    ensures var w6 := BothChanging(w, f, g, a, b);
            var w7 := Call(cfg, w6, Go(f, e)).0;
            && DrawnBy(w6, Go(f, e)) == DrawnBy(w7, Go(g, e)) == {}
            && Call(cfg, w7, Go(g, e)).0.sys.core.db.users == SetRole(SetRole(w.sys.core.db.users, b, USER), a, USER)
  {
    hide Call, DrawnBy, SetRole;
    ChangeCall(cfg, BothChanging(w, f, g, a, b), f, b, e);
    ChangeCall(cfg, Call(cfg, BothChanging(w, f, g, a, b), Go(f, e)).0, g, a, e);
  }

  lemma DemotedIsNone(users: map<Id, User>, a: Id, b: Id, u: Id)
    ensures Administrator(SetRole(SetRole(users, b, USER), a, USER), u) ==> Administrator(users, u) && u != a && u != b
  {
  }

  lemma BothDemoted(users: map<Id, User>, a: Id, b: Id)
    requires forall u :: Administrator(users, u) ==> u == a || u == b
    ensures !SomeAdministrator(SetRole(SetRole(users, b, USER), a, USER))
  {
    hide Administrator, SetRole;
    forall u ensures !Administrator(SetRole(SetRole(users, b, USER), a, USER), u) {
      DemotedIsNone(users, a, b, u);
    }
  }

  lemma OrdersQuietly(cfg: Config, w: World, f: nat, g: nat, ta: string, tb: string, a: Id, b: Id, now: Time, e: Entropy)
    returns (worlds: seq<World>)
    requires f != g && f !in w.flights && g !in w.flights && a != b && LetsIn(w.sys, ta, now, a) && LetsIn(w.sys, tb, now, b)
    ensures AllQuietly(cfg, worlds, TwoOrders(f, g, ta, tb, a, b, now, e)) && |worlds| == 9 && worlds[0] == w
    ensures worlds[8].sys.core.db.users == SetRole(SetRole(w.sys.core.db.users, b, USER), a, USER)
  {
    hide Call, DrawnBy, LetsIn, LetIn, BothLetIn, BothChanging, SetRole;
    TwoLetIn(cfg, w, f, g, ta, tb, a, b, now);
    ThenChecked(cfg, w, f, g, ta, tb, a, b, now, e);
    TwoChanged(cfg, w, f, g, a, b, e);
    var w1 := Call(cfg, w, ReadForAdmission(f, ta, Some(ChangeRole(b, USER)), now)).0;
    var w2 := BothLetIn(w, f, g, ta, tb, a, b, now);
    var w3 := Call(cfg, w2, Go(f, e)).0;
    var w4 := Call(cfg, w3, Go(g, e)).0;
    var w5 := Call(cfg, w4, Go(f, e)).0;
    var w6 := BothChanging(w, f, g, a, b);
    var w7 := Call(cfg, w6, Go(f, e)).0;
    worlds := [w, w1, w2, w3, w4, w5, w6, w7, Call(cfg, w7, Go(g, e)).0];
  }

  /**
   With overlap none need remain: the only two administrators, both let in and both checked
   before either order is carried out, demote each other.
   */
  lemma NoneRemainsByOverlap(cfg: Config, w: World, f: nat, g: nat, ta: string, tb: string, a: Id, b: Id, now: Time, e: Entropy)
    requires f != g && f !in w.flights && g !in w.flights && a != b && LetsIn(w.sys, ta, now, a) && LetsIn(w.sys, tb, now, b)
    requires forall u :: Administrator(w.sys.core.db.users, u) ==> u == a || u == b
    ensures var trace := TraceOf(cfg, w, TwoOrders(f, g, ta, tb, a, b, now, e));
            && ValidTrace(cfg, trace) && |trace| == 8 && WorldAt(trace, 0) == w
            && !SomeAdministrator(WorldAt(trace, 8).sys.core.db.users)
  {
    hide LetsIn, SetRole, TraceOf, ValidTrace, AllQuietly, FreshAlong, After, SomeAdministrator;
    var worlds := OrdersQuietly(cfg, w, f, g, ta, tb, a, b, now, e);
    QuietTrace(cfg, worlds, TwoOrders(f, g, ta, tb, a, b, now, e));
    TraceOfIsValid(cfg, w, TwoOrders(f, g, ta, tb, a, b, now, e));
    BothDemoted(w.sys.core.db.users, a, b);
  }
}
