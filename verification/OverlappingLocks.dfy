/** Whether locking or disabling an account keeps it out when requests overlap. */
module OverlappingLocks {
  import opened Wrappers
  import opened Rows
  import opened Cache
  import opened Protocol
  import opened Machine
  import opened Consistency
  import opened Frames
  import opened Admins
  import opened Rotation
  import opened Provenance
  import opened Standing
  import opened Interleaving
  import opened WorldInvariant
  import opened OverlappingSessions
  import opened OverlappingSignIns
  import opened OverlappingOrders

  /** On the way to a session, or a challenge, for `u`: a sign-in past its read, or an answer. */
  predicate Entering(flight: Flight, u: Id) {
    match flight
    case Unlocking(v, _, _) => u == v
    case Failing(v, _, _) => u == v
    case Succeeding(v, _, _) => u == v
    case Gating(v, _) => u == v
    case Listing(v, _, _) => u == v
    case Opening(v, _, _, _) => u == v
    case Answering(_, v, answer, _) => u == v && !answer.ForKey?
    case Asserting(_, v, _, _, _, _, _) => u == v
    case Counting(_, v, _, _, _, _) => u == v
    case Clearing(_, v, _, _) => u == v
    case Dropping(_, v, _, _, _) => u == v
    case Trusting(v, _) => u == v
    case Finishing(v, _, _, _) => u == v
    case Creating(v, _, _, _, _) => u == v
    case _ => false
  }

  /**
   What whoever locks or disables can check: the account is held and its address verified, with
   no confirmation of it under way; no sign-in or answer of it is under way; and none of its
   challenges is live.
   */
  ghost predicate ShutOut(w: World, u: Id, now: Time) {
    && Settled(w, u) && Held(w.sys.core.db.users[u])
    && (forall f | f in w.flights :: !Entering(w.flights[f], u))
    && NoneLive(w.sys.core.cache, u, now)
  }

  /** No order about the status of `u`, and requests at times from `now` and before the far future. */
  predicate InOrder(st: Stage, u: Id, now: Time) {
    && !StatusOrdered(st, u)
    && (st.move.ReadForAnswer? ==> now <= st.move.now)
    && (st.move.ReadForSignIn? ==> st.move.attempt.at < FAR_FUTURE)
  }

  // ---------------------------------------------------------------------------
  // Nobody enters
  // ---------------------------------------------------------------------------

  /** Only what was on the way in goes on on the way in. */
  lemma ContinueEnters(cfg: Config, s: Sys, flight: Flight, e: Entropy, u: Id)
    ensures var next := Continue(cfg, s, flight, e).1; next.On? && Entering(next.flight, u) ==> Entering(flight, u)
  {
    hide GoSession, PasswordMatches, MarkLoginSuccess, Unlock, FailedLogin, Changed, MarkEmailVerified, SetItem, GetItem, ChallengeKey,
      CeremonyKey, ConsumeRecoveryCode, DeleteRecoveryCodes, CreateRecoveryCodes, Insertable, DeviceTrusted, AvailableMethods, UpdateCounter,
      MarkUsed, Objection, SessionActive, RecoveryHashes, HexDraw, RecoveryCodes, CredentialsOf, Normalize;
    if WritesSessions(flight) {
      GoSessionFrame(cfg, s, flight, e);
    }
  }

  lemma HeldSignInRefused(cfg: Config, db: Tables, email: string, attempt: Attempt, u: Id)
    requires u in db.users && Held(db.users[u]) && attempt.at < FAR_FUTURE
    ensures var r := BeginSignIn(cfg, db, email, attempt); r.Ok? ==> !Entering(r.value, u)
  {
    hide PasswordMatches, SecondsUp;
  }

  lemma NoLiveChallenge(c: Core, u: Id, now: Time, at: Time, id: string)
    requires NoneLive(c.cache, u, now) && now <= at
    ensures ChallengeUser(c, at, id).1 != Some(u)
  {
    hide ChallengeKey, NoneLive, ChallengeUser;
    ReadFewer(c, at, id);
    NoneLiveLater(c.cache, u, now, at, id);
    var (c1, user) := ChallengeUser(c, at, id);
    assert user.Some? ==> LiveChallenge(c.cache, id, user.value, at);
  }

  lemma DepartureEnters(cfg: Config, s: Sys, m: Move, u: Id, now: Time)
    requires Begins(m) && u in s.core.db.users && Held(s.core.db.users[u]) && NoneLive(s.core.cache, u, now)
    requires (m.ReadForAnswer? ==> now <= m.now) && (m.ReadForSignIn? ==> m.attempt.at < FAR_FUTURE)
    ensures var r := Departure(cfg, s, m).1; r.Ok? ==> !Entering(r.value, u)
  {
    hide ChallengeUser, BeginSignIn, NoneLive, Held;
    if m.ReadForAnswer? {
      NoLiveChallenge(s.core, u, now, m.now, m.challengeId);
    } else if m.ReadForSignIn? {
      HeldSignInRefused(cfg, s.core.db, m.email, m.attempt, u);
    }
  }

  // ---------------------------------------------------------------------------
  // No challenge is opened
  // ---------------------------------------------------------------------------

  lemma FewerNoneLive(a: Store<Pending>, b: Store<Pending>, u: Id, now: Time)
    requires NoneLive(a, u, now) && ChallengesKept(a, b)
    ensures NoneLive(b, u, now)
  {
    hide ChallengeKey;
    forall id | ChallengeKey(id) in b ensures !LiveChallenge(b, id, u, now) {
      assert !LiveChallenge(a, id, u, now);
    }
  }

  lemma OtherOpened(a: Store<Pending>, uuid: string, state: Pending, ttl: int, at: Time, u: Id, now: Time)
    requires NoneLive(a, u, now) && state.userId != u
    ensures NoneLive(SetItem(a, ChallengeKey(uuid), state, ttl, at), u, now)
  {
    KeysDistinct();
    hide ChallengeKey, CeremonyKey;
    var b := SetItem(a, ChallengeKey(uuid), state, ttl, at);
    forall id | ChallengeKey(id) in b ensures !LiveChallenge(b, id, u, now) {
      if id != uuid {
        assert !LiveChallenge(a, id, u, now);
      }
    }
  }

  lemma GoCacheNoneLive(cfg: Config, cache: Store<Pending>, flight: Flight, e: Entropy, u: Id, now: Time)
    requires WritesCache(flight) && !Entering(flight, u) && NoneLive(cache, u, now)
    ensures NoneLive(GoCache(cfg, cache, flight, e).0, u, now)
  {
    hide NoneLive, ChallengeKey, CeremonyKey, SetItem, ChallengesKept;
    match flight
    case Opening(v, rememberMe, methods, at) =>
      OtherOpened(cache, e.uuid, LoginChallenge(v, rememberMe, methods), cfg.challengeTtl, at, u, now);
    case Staging(id, v, _, at) =>
      CeremonySet(cache, id, Ceremony(true, v, e.token), cfg.challengeTtl, at);
      FewerNoneLive(cache, SetItem(cache, CeremonyKey(id), Ceremony(true, v, e.token), cfg.challengeTtl, at), u, now);
    case Clearing(id, _, _, _) =>
      FewerChallenges(cache, cache - {CeremonyKey(id)});
      FewerNoneLive(cache, cache - {CeremonyKey(id)}, u, now);
    case Dropping(id, _, _, _, _) =>
      FewerChallenges(cache, cache - {ChallengeKey(id)});
      FewerNoneLive(cache, cache - {ChallengeKey(id)}, u, now);
    case Answering(id, _, _, at) =>
      FewerChallenges(cache, GetItem(cache, CeremonyKey(id), at).0);
      FewerNoneLive(cache, GetItem(cache, CeremonyKey(id), at).0, u, now);
  }

  lemma ContinueNoneLive(cfg: Config, s: Sys, flight: Flight, e: Entropy, u: Id, now: Time)
    requires !Entering(flight, u) && NoneLive(s.core.cache, u, now)
    ensures NoneLive(Continue(cfg, s, flight, e).0.core.cache, u, now)
  {
    hide NoneLive, GoSession, GoUsers, GoCodes, GoCache, GoElse, Entering;
    if WritesSessions(flight) {
      GoSessionFrame(cfg, s, flight, e);
    } else if WritesCache(flight) {
      GoCacheNoneLive(cfg, s.core.cache, flight, e, u, now);
    }
  }

  lemma DepartureNoneLive(cfg: Config, s: Sys, m: Move, u: Id, now: Time)
    requires NoneLive(s.core.cache, u, now)
    ensures Begins(m) ==> NoneLive(Departure(cfg, s, m).0.core.cache, u, now)
    ensures NoneLive(Single(s, m).0.core.cache, u, now)
  {
    hide NoneLive, BeginRefresh, BeginSignIn, BeginAdmission, BeginConfirm, Logout, ChallengeUser, ChallengesKept, Fewer;
    if m.ReadForAnswer? {
      ReadFewer(s.core, m.now, m.challengeId);
      var (c1, user) := ChallengeUser(s.core, m.now, m.challengeId);
      FewerChallenges(s.core.cache, c1.cache);
      FewerNoneLive(s.core.cache, c1.cache, u, now);
    } else if m.SignOutNow? {
      LogoutFrame(s, m.now, m.refreshCookie, m.accessCookie);
    }
  }

  // ---------------------------------------------------------------------------
  // Shut out is shut out
  // ---------------------------------------------------------------------------

  lemma AttemptingEnters(flight: Flight, u: Id)
    ensures Attempting(flight, u) ==> Entering(flight, u)
    ensures flight.Creating? && flight.userId == u ==> Entering(flight, u)
  {
  }

  lemma SettledNotActivating(w: World, u: Id, f: nat)
    requires Settled(w, u) && f in w.flights
    ensures w.flights[f] != Activating(u) && u in w.sys.core.db.users
  {
  }

  /** The account stays held. */
  lemma StaysHeld(cfg: Config, st: Stage, u: Id, now: Time)
    requires ValidStage(cfg, st) && ShutOut(st.pre, u, now) && InOrder(st, u, now)
    ensures u in st.post.sys.core.db.users && Held(st.post.sys.core.db.users[u])
  {
    SettledHasRow(st.pre, u);
    if Flying(st).Some? {
      AttemptingEnters(Flying(st).value, u);
      SettledNotActivating(st.pre, u, st.move.flight);
    }
    hide ValidStage, Settled, Held, NoneLive, Entering, Attempting, StatusOrdered;
    StageLeavesRow(cfg, st, u);
    HeldBySameLogin(st.pre.sys.core.db.users[u], st.post.sys.core.db.users[u]);
  }

  lemma StaysOutside(cfg: Config, st: Stage, u: Id, now: Time)
    requires ValidStage(cfg, st) && ShutOut(st.pre, u, now) && InOrder(st, u, now)
    ensures forall f | f in st.post.flights :: !Entering(st.post.flights[f], u)
    ensures NoneLive(st.post.sys.core.cache, u, now)
  {
    SettledHasRow(st.pre, u);
    hide ValidStage, Settled, Held, NoneLive, Entering, StatusOrdered, Continue, Departure, Single;
    StageParts(cfg, st);
    if Flying(st).Some? {
      ContinueEnters(cfg, st.pre.sys, Flying(st).value, st.move.entropy, u);
      ContinueNoneLive(cfg, st.pre.sys, Flying(st).value, st.move.entropy, u, now);
    } else {
      DepartureNoneLive(cfg, st.pre.sys, st.move, u, now);
      if Begins(st.move) {
        DepartureEnters(cfg, st.pre.sys, st.move, u, now);
      }
    }
  }

  lemma StageShutOut(cfg: Config, st: Stage, u: Id, now: Time)
    requires ValidStage(cfg, st) && ShutOut(st.pre, u, now) && InOrder(st, u, now)
    ensures ShutOut(st.post, u, now)
  {
    hide ValidStage, Settled, Held, NoneLive, Entering, InOrder;
    SettledHasRow(st.pre, u);
    StageSettled(cfg, st, u);
    SettledHasRow(st.post, u);
    StaysHeld(cfg, st, u, now);
    StaysOutside(cfg, st, u, now);
  }

  lemma {:induction false} StaysShutOut(cfg: Config, trace: seq<Stage>, i: nat, j: nat, u: Id, now: Time)
    requires ValidTrace(cfg, trace) && trace != [] && i <= j <= |trace| && ShutOut(WorldAt(trace, i), u, now)
    requires forall n | i <= n < j :: InOrder(trace[n], u, now)
    ensures ShutOut(WorldAt(trace, j), u, now)
    decreases j
  {
    hide ValidStage, ShutOut, InOrder;
    if i < j {
      StaysShutOut(cfg, trace, i, j - 1, u, now);
      StageShutOut(cfg, trace[j - 1], u, now);
    }
  }

  lemma ShutOutCreatesNothing(w: World, f: nat, u: Id, now: Time)
    requires ShutOut(w, u, now) && f in w.flights
    ensures !(w.flights[f].Creating? && w.flights[f].userId == u)
  {
    AttemptingEnters(w.flights[f], u);
    hide Settled, Held, NoneLive, Entering;
  }

  /**
   However calls interleave: an account that is shut out when its sessions are revoked has no
   active session from then on, until an administrator changes its status.
   */
  lemma LockedOutWhenShutOut(cfg: Config, trace: seq<Stage>, i: nat, j: nat, u: Id, now: Time)
    requires ValidTrace(cfg, trace) && i < j <= |trace| && WorldFits(trace[0].pre)
    requires Flying(trace[i]) == Some(RevokingAll(u)) && ShutOut(trace[i].pre, u, now)
    requires forall n | i <= n < j :: InOrder(trace[n], u, now)
    ensures AllEnded(WorldAt(trace, j).sys, u)
  {
    hide ValidStage, WorldFits, ShutOut, InOrder, AllEnded;
    forall n | i < n < j ensures !(Flying(trace[n]).Some? && Flying(trace[n]).value.Creating? && Flying(trace[n]).value.userId == u) {
      StaysShutOut(cfg, trace, i, n, u, now);
      if Flying(trace[n]).Some? {
        ShutOutCreatesNothing(trace[n].pre, trace[n].move.flight, u, now);
      }
    }
    LockedUntilCreated(cfg, trace, i, j, u);
  }

  // ---------------------------------------------------------------------------
  // A sign-in that overlaps the locking
  // ---------------------------------------------------------------------------

  /** The right password for an active account without a second factor. */
  predicate RightFor(cfg: Config, db: Tables, email: string, attempt: Attempt, u: Id) {
    && FindByEmail(db, email) == Some(u) && u in db.users
    && var row := db.users[u];
       row.status.ACTIVE? && row.emailVerified && !row.mfaEnabled && PasswordMatches(cfg, row, attempt.password)
  }

  function SignInAroundLock(f: nat, g: nat, access: string, u: Id, email: string, attempt: Attempt, e: Entropy): seq<Move> {
    [ReadForAdmission(g, access, Some(ChangeStatus(u, LOCKED)), attempt.at), Go(g, e), ReadForSignIn(f, email, attempt), Go(f, e),
     Go(g, e), Go(g, e), Go(g, e), Go(f, e)]
  }

  lemma RightCall(cfg: Config, w: World, f: nat, email: string, attempt: Attempt, u: Id)
    requires f !in w.flights && RightFor(cfg, w.sys.core.db, email, attempt, u)
    ensures Quietly(cfg, w, ReadForSignIn(f, email, attempt), w.(flights := w.flights[f := Succeeding(u, w.sys.core.db.users[u], attempt)]))
  {
    hide PasswordMatches, SecondsUp;
    assert w.sys.(drawn := w.sys.drawn + {}) == w.sys;
  }

  lemma SucceedCall(cfg: Config, w: World, f: nat, u: Id, row: User, attempt: Attempt, e: Entropy)
    requires f in w.flights && w.flights[f] == Succeeding(u, row, attempt) && !row.mfaEnabled
    ensures Quietly(cfg, w, Go(f, e), World(WithUsers(w.sys, MarkLoginSuccess(w.sys.core.db.users, u)),
                                            w.flights[f := Creating(u, attempt.rememberMe, None, false, attempt.at)]))
  {
    hide GoSession, GoCodes, GoCache, GoElse, MarkLoginSuccess;
    assert w.sys.drawn + {} == w.sys.drawn;
  }

  lemma LockCall(cfg: Config, w: World, g: nat, actor: Id, u: Id, e: Entropy)
    requires g in w.flights && w.flights[g] == Changing(actor, ChangeStatus(u, LOCKED))
    ensures Quietly(cfg, w, Go(g, e), World(WithUsers(w.sys, SetStatus(w.sys.core.db.users, u, LOCKED, Some(FAR_FUTURE))),
                                            w.flights[g := RevokingAll(u)]))
  {
    hide GoSession, GoCodes, GoCache, GoElse, SetStatus;
    assert w.sys.drawn + {} == w.sys.drawn;
  }

  lemma RevokeCall(cfg: Config, w: World, g: nat, u: Id, e: Entropy)
    requires g in w.flights && w.flights[g] == RevokingAll(u)
    ensures Quietly(cfg, w, Go(g, e), World(WithSessions(w.sys, RevokeAllForUser(w.sys.core.db.sessions, u)), w.flights - {g}))
  {
    hide GoUsers, GoCodes, GoCache, GoElse, RevokeAllForUser;
    assert w.sys.drawn + {} == w.sys.drawn;
  }

  lemma CreateKeepsUsers(cfg: Config, w: World, f: nat, e: Entropy)
    requires f in w.flights && w.flights[f].Creating?
    ensures Call(cfg, w, Go(f, e)).0.sys.core.db.users == w.sys.core.db.users
  {
    hide GoUsers, GoCodes, GoCache, GoElse, SessionTtl;
  }

  lemma NoObjectionToLock(db: Tables, actor: Id, u: Id)
    requires u in db.users && db.users[u].status.ACTIVE?
    ensures Objection(db, actor, ChangeStatus(u, LOCKED)).None?
  {
  }

  lemma MarkedActive(users: map<Id, User>, u: Id)
    requires u in users
    ensures var marked := MarkLoginSuccess(users, u); u in marked && marked[u].status == users[u].status
    ensures var locked := SetStatus(MarkLoginSuccess(users, u), u, LOCKED, Some(FAR_FUTURE)); u in locked && Held(locked[u])
  {
  }

  lemma AdmittedAndSignedIn(cfg: Config, w: World, f: nat, g: nat, access: string, a: Id, u: Id, email: string, attempt: Attempt, e: Entropy)
    returns (w1: World, w2: World, w3: World, w4: World)
    requires f != g && f !in w.flights && g !in w.flights
    requires LetsIn(w.sys, access, attempt.at, a) && RightFor(cfg, w.sys.core.db, email, attempt, u)
    ensures Quietly(cfg, w, ReadForAdmission(g, access, Some(ChangeStatus(u, LOCKED)), attempt.at), w1) && Quietly(cfg, w1, Go(g, e), w2)
    ensures Quietly(cfg, w2, ReadForSignIn(f, email, attempt), w3) && Quietly(cfg, w3, Go(f, e), w4)
    ensures w4.sys == WithUsers(w.sys, MarkLoginSuccess(w.sys.core.db.users, u))
    ensures w4.flights == w.flights[g := Ordering(a, ChangeStatus(u, LOCKED))][f := Creating(u, attempt.rememberMe, None, false, attempt.at)]
  {
    hide Call, DrawnBy, LetsIn, RightFor, Quietly, MarkLoginSuccess, SessionActive;
    var command, users := ChangeStatus(u, LOCKED), w.sys.core.db.users;
    RightRow(cfg, w.sys.core.db, email, attempt, u);
    AdmissionCall(cfg, w, g, access, a, command, attempt.at);
    w1 := w.(flights := w.flights[g := Admitting(a, w.sys.accessTokens[access].sessionId, true, Some(command), attempt.at)]);
    CallQuietly(cfg, w, ReadForAdmission(g, access, Some(command), attempt.at), w1);
    AdmitCall(cfg, w1, g, e);
    w2 := w1.(flights := w1.flights[g := Ordering(a, command)]);
    CallQuietly(cfg, w1, Go(g, e), w2);
    RightCall(cfg, w2, f, email, attempt, u);
    w3 := w2.(flights := w2.flights[f := Succeeding(u, users[u], attempt)]);
    SucceedCall(cfg, w3, f, u, users[u], attempt, e);
    w4 := World(WithUsers(w.sys, MarkLoginSuccess(users, u)), w3.flights[f := Creating(u, attempt.rememberMe, None, false, attempt.at)]);
    assert w4.flights == w.flights[g := Ordering(a, command)][f := Creating(u, attempt.rememberMe, None, false, attempt.at)];
  }

  lemma LockedAndRevoked(cfg: Config, w: World, g: nat, a: Id, u: Id, e: Entropy) returns (w1: World, w2: World, w3: World)
    requires g in w.flights && w.flights[g] == Ordering(a, ChangeStatus(u, LOCKED))
    requires u in w.sys.core.db.users && w.sys.core.db.users[u].status.ACTIVE?
    ensures Quietly(cfg, w, Go(g, e), w1) && Quietly(cfg, w1, Go(g, e), w2) && Quietly(cfg, w2, Go(g, e), w3)
    ensures g in w2.flights && w2.flights[g] == RevokingAll(u)
    ensures w3.flights == w.flights - {g} && w3.sys.drawn == w.sys.drawn
    ensures w3.sys.core.db.users == SetStatus(w.sys.core.db.users, u, LOCKED, Some(FAR_FUTURE))
  {
    hide Call, DrawnBy, Quietly, SetStatus, RevokeAllForUser, Objection;
    NoObjectionToLock(w.sys.core.db, a, u);
    OrderCall(cfg, w, g, e);
    w1 := w.(flights := w.flights[g := Changing(a, ChangeStatus(u, LOCKED))]);
    CallQuietly(cfg, w, Go(g, e), w1);
    LockCall(cfg, w1, g, a, u, e);
    w2 := World(WithUsers(w1.sys, SetStatus(w1.sys.core.db.users, u, LOCKED, Some(FAR_FUTURE))), w1.flights[g := RevokingAll(u)]);
    RevokeCall(cfg, w2, g, u, e);
    w3 := World(WithSessions(w2.sys, RevokeAllForUser(w2.sys.core.db.sessions, u)), w2.flights - {g});
    assert w3.flights == w.flights - {g};
  }

  /** Admitted, signed in, ordered, locked and revoked: all but the creation of the session. */
  lemma AroundLockQuietly(cfg: Config, w: World, f: nat, g: nat, access: string, a: Id, u: Id, email: string, attempt: Attempt, e: Entropy)
    returns (worlds: seq<World>)
    requires f != g && f !in w.flights && g !in w.flights
    requires LetsIn(w.sys, access, attempt.at, a) && RightFor(cfg, w.sys.core.db, email, attempt, u)
    ensures AllQuietly(cfg, worlds, SignInAroundLock(f, g, access, u, email, attempt, e)[..7]) && |worlds| == 8 && worlds[0] == w
    ensures g in worlds[6].flights && worlds[6].flights[g] == RevokingAll(u)
    ensures worlds[7].flights == w.flights[f := Creating(u, attempt.rememberMe, None, false, attempt.at)]
    ensures worlds[7].sys.drawn == w.sys.drawn
    ensures u in worlds[7].sys.core.db.users && Held(worlds[7].sys.core.db.users[u])
  {
    hide LetsIn, RightFor, Quietly, SetStatus, MarkLoginSuccess, Held;
    RightRow(cfg, w.sys.core.db, email, attempt, u);
    MarkedActive(w.sys.core.db.users, u);
    var w1, w2, w3, w4 := AdmittedAndSignedIn(cfg, w, f, g, access, a, u, email, attempt, e);
    var w5, w6, w7 := LockedAndRevoked(cfg, w4, g, a, u, e);
    worlds := [w, w1, w2, w3, w4, w5, w6, w7];
    WithoutOrder(w.flights, f, g, Creating(u, attempt.rememberMe, None, false, attempt.at), Ordering(a, ChangeStatus(u, LOCKED)));
    SevenMoves(f, g, access, u, email, attempt, e);
    hide SignInAroundLock;
  }

  lemma WithoutOrder(flights: map<nat, Flight>, f: nat, g: nat, x: Flight, y: Flight)
    requires f != g && f !in flights && g !in flights
    ensures flights[g := y][f := x] - {g} == flights[f := x]
  {
  }

  lemma SevenMoves(f: nat, g: nat, access: string, u: Id, email: string, attempt: Attempt, e: Entropy)
    ensures SignInAroundLock(f, g, access, u, email, attempt, e)[..7]
         == [ReadForAdmission(g, access, Some(ChangeStatus(u, LOCKED)), attempt.at), Go(g, e), ReadForSignIn(f, email, attempt), Go(f, e),
             Go(g, e), Go(g, e), Go(g, e)]
  {
  }

  lemma CallQuietly(cfg: Config, w: World, m: Move, w1: World)
    requires Call(cfg, w, m).0 == w1 && DrawnBy(w, m) == {}
    ensures Quietly(cfg, w, m, w1)
  {
    hide Call, DrawnBy;
  }

  lemma RightRow(cfg: Config, db: Tables, email: string, attempt: Attempt, u: Id)
    requires RightFor(cfg, db, email, attempt, u)
    ensures u in db.users && db.users[u].status.ACTIVE? && !db.users[u].mfaEnabled
  {
  }

  /**
   From a world in which neither is under way: a sign-in that reads the row before the lock is
   written creates its session after the revocation, and the held account has an active session.
   */
  lemma LockMissesOverlappingSignIn(cfg: Config, w: World, f: nat, g: nat, access: string, a: Id, u: Id, email: string, attempt: Attempt, e: Entropy)
    requires f != g && f !in w.flights && g !in w.flights
    requires LetsIn(w.sys, access, attempt.at, a) && RightFor(cfg, w.sys.core.db, email, attempt, u)
    requires {e.uuid, e.access, e.refresh} !! w.sys.drawn
    ensures var trace := TraceOf(cfg, w, SignInAroundLock(f, g, access, u, email, attempt, e));
            && ValidTrace(cfg, trace) && |trace| == 8 && WorldAt(trace, 0) == w
            && Flying(trace[6]) == Some(RevokingAll(u))
            && var last := WorldAt(trace, 8).sys;
               !AllEnded(last, u) && u in last.core.db.users && Held(last.core.db.users[u])
  {
    hide LetsIn, RightFor, Held, AllQuietly, FreshAlong, After, Call, DrawnBy, ValidTrace, AllEnded;
    var moves := SignInAroundLock(f, g, access, u, email, attempt, e);
    var worlds := AroundLockQuietly(cfg, w, f, g, access, a, u, email, attempt, e);
    QuietTrace(cfg, worlds, moves[..7]);
    assert moves[..7][..6] == moves[..6];
    CreatingCall(cfg, worlds[7], f, e);
    CreateKeepsUsers(cfg, worlds[7], f, e);
    Extended(cfg, w, moves[..7], moves[7]);
    assert moves[..7] + [moves[7]] == moves;
    TraceOfIsValid(cfg, w, moves);
    StageOf(cfg, w, moves, 6);
  }
}
