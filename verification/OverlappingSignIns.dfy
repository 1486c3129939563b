/** How many wrong passwords an account takes when sign-ins overlap. */
module OverlappingSignIns {
  import opened Wrappers
  import opened Arithmetic
  import opened Rows
  import opened Cache
  import opened Protocol
  import opened Machine
  import opened Frames
  import opened Lockout
  import opened Interleaving
  import opened WorldInvariant

  /** A sign-in to `u` between reading the row and writing it. */
  predicate Attempting(flight: Flight, u: Id) {
    (flight.Unlocking? || flight.Failing? || flight.Succeeding?) && flight.userId == u
  }

  /** No two sign-ins to `u` are in flight together. */
  ghost predicate OneAttempt(w: World, u: Id) {
    forall f, g | f in w.flights && g in w.flights && Attempting(w.flights[f], u) && Attempting(w.flights[g], u) :: f == g
  }

  ghost predicate NoAttempt(w: World, u: Id) {
    forall f | f in w.flights :: !Attempting(w.flights[f], u)
  }

  /** A wrong password is compared with that of `u`: at the read, or once a lapsed lock is lifted. */
  predicate Compares(st: Stage, u: Id) {
    || (TakingOff(st).Some? && TakingOff(st).value.Failing? && TakingOff(st).value.userId == u)
    || (&& Flying(st).Some? && Flying(st).value.Unlocking? && Flying(st).value.userId == u
        && st.move.flight in st.post.flights && st.post.flights[st.move.flight].Failing?)
  }

  function Comparisons(trace: seq<Stage>, u: Id): nat {
    if trace == [] then 0
    else Comparisons(trace[..|trace| - 1], u) + if Compares(trace[|trace| - 1], u) then 1 else 0
  }

  // ---------------------------------------------------------------------------
  // Rows
  // ---------------------------------------------------------------------------

  function FailedRow(cfg: Config, users: map<Id, User>, u: Id, row: User, at: Time): User
    requires u in users
  {
    FailedLogin(cfg, users, u, row, at)[u]
  }

  lemma CountedBySameLogin(cfg: Config, a: User, b: User, comparisons: nat, start: Time, now: Time)
    requires SameLogin(a, b)
    ensures Counted(cfg, a, comparisons, start, now) == Counted(cfg, b, comparisons, start, now)
  {
    hide LockoutMs, Attempts;
  }

  lemma FailedRowBySameLogin(cfg: Config, a: map<Id, User>, b: map<Id, User>, u: Id, row: User, at: Time)
    requires u in a && u in b && SameLogin(a[u], b[u])
    ensures SameLogin(FailedRow(cfg, a, u, row, at), FailedRow(cfg, b, u, row, at))
  {
  }

  /** A comparison that was allowed when the row was read is counted once its failure is recorded. */
  lemma FailureCounted(cfg: Config, users: map<Id, User>, u: Id, row: User, at: Time, comparisons: nat, start: Time, now: Time)
    requires LockoutMs(cfg) > 0 && u in users && users[u].emailVerified && start <= at <= now
    requires Counted(cfg, row, comparisons, start, now) && !LockedOut(row, at)
    ensures Counted(cfg, FailedRow(cfg, users, u, row, at), comparisons + 1, start, now)
  {
    var k := LockoutMs(cfg);
    assert k == cfg.loginLockoutMinutes * 60000;
    hide LockoutMs;
    assert (comparisons + 1 - Attempts(cfg)) * k == (comparisons - Attempts(cfg)) * k + k;
    Multiple(comparisons + 1 - Attempts(cfg), k);
  }

  // ---------------------------------------------------------------------------
  // What other calls leave alone
  // ---------------------------------------------------------------------------

  /** An administrator changes the status of `u`. */
  predicate StatusOrdered(st: Stage, u: Id) {
    Flying(st).Some? &&
    Flying(st).value.Changing? && Flying(st).value.command.ChangeStatus? && Flying(st).value.command.target == u
  }

  /** An administrator changes the status of `u`, or a confirmation completes for an address verified before. */
  predicate Resets(st: Stage, u: Id) {
    || StatusOrdered(st, u)
    || (&& Flying(st) == Some(Activating(u))
        && u in st.pre.sys.core.db.users && st.pre.sys.core.db.users[u].emailVerified)
  }

  lemma OtherWrites(cfg: Config, users: map<Id, User>, flight: Flight, u: Id)
    requires WritesUsers(flight) && u in users && !Attempting(flight, u) && flight != Activating(u)
    requires !(flight.Changing? && flight.command.ChangeStatus? && flight.command.target == u)
    ensures var after := GoUsers(cfg, users, flight).0; u in after && SameLogin(users[u], after[u])
  {
    hide Compare;
  }

  lemma ContinueUsers(cfg: Config, s: Sys, flight: Flight, e: Entropy)
    ensures Continue(cfg, s, flight, e).0.core.db.users
         == if WritesUsers(flight) then GoUsers(cfg, s.core.db.users, flight).0 else s.core.db.users
  {
    hide GoSession, GoUsers, GoCodes, GoCache, GoElse;
    if WritesSessions(flight) {
      GoSessionFrame(cfg, s, flight, e);
    } else if !WritesUsers(flight) && !WritesCodes(flight) && !WritesCache(flight) {
      GoElseFrame(cfg, s.core, flight, e);
    }
  }

  lemma ContinueLeavesRow(cfg: Config, s: Sys, flight: Flight, e: Entropy, u: Id)
    requires u in s.core.db.users && !Attempting(flight, u) && flight != Activating(u)
    requires !(flight.Changing? && flight.command.ChangeStatus? && flight.command.target == u)
    ensures var users := Continue(cfg, s, flight, e).0.core.db.users; u in users && SameLogin(s.core.db.users[u], users[u])
  {
    hide Continue, GoUsers;
    ContinueUsers(cfg, s, flight, e);
    if WritesUsers(flight) {
      OtherWrites(cfg, s.core.db.users, flight, u);
    }
  }

  lemma UsersOnlyByFlights(cfg: Config, s: Sys, m: Move)
    ensures Single(s, m).0.core.db.users == s.core.db.users
    ensures Begins(m) ==> Departure(cfg, s, m).0.core.db.users == s.core.db.users
  {
    hide LogoutTarget, EndSession, BeginRefresh, BeginSignIn, BeginAdmission, BeginConfirm, GetItem;
  }

  /** The row of `u` after a stage that is no call of a sign-in to `u`. */
  lemma StageLeavesRow(cfg: Config, st: Stage, u: Id)
    requires ValidStage(cfg, st) && u in st.pre.sys.core.db.users && !StatusOrdered(st, u) && Flying(st) != Some(Activating(u))
    requires !(Flying(st).Some? && Attempting(Flying(st).value, u))
    ensures u in st.post.sys.core.db.users && SameLogin(st.pre.sys.core.db.users[u], st.post.sys.core.db.users[u])
  {
    StageParts(cfg, st);
    hide ValidStage, Continue, Departure, Single, Attempting;
    if Flying(st).Some? {
      ContinueLeavesRow(cfg, st.pre.sys, Flying(st).value, st.move.entropy, u);
    } else {
      UsersOnlyByFlights(cfg, st.pre.sys, st.move);
    }
  }

  // ---------------------------------------------------------------------------
  // Where attempts come from and go
  // ---------------------------------------------------------------------------

  lemma OnlySignInAttempts(cfg: Config, s: Sys, m: Move, u: Id)
    requires Begins(m)
    ensures var r := Departure(cfg, s, m).1; r.Ok? && Attempting(r.value, u) ==> m.ReadForSignIn?
  {
    hide ChallengeUser, BeginSignIn;
  }

  lemma ContinueAttempts(cfg: Config, s: Sys, flight: Flight, e: Entropy, u: Id)
    ensures var next := Continue(cfg, s, flight, e).1;
            next.On? && Attempting(next.flight, u) ==> flight.Unlocking? && flight.userId == u
  {
    hide GoSession, PasswordMatches, MarkLoginSuccess, Unlock, FailedLogin, Changed, MarkEmailVerified, SetItem, GetItem, ChallengeKey,
      CeremonyKey, ConsumeRecoveryCode, DeleteRecoveryCodes, CreateRecoveryCodes, Insertable, DeviceTrusted, AvailableMethods, UpdateCounter,
      MarkUsed, Objection, SessionActive, RecoveryHashes, HexDraw, RecoveryCodes, CredentialsOf, Normalize;
    if WritesSessions(flight) {
      GoSessionFrame(cfg, s, flight, e);
    }
  }

  /** The attempts on `u` are those there were, unless one takes off or is moved on. */
  lemma AttemptsStay(cfg: Config, st: Stage, u: Id, f: nat)
    requires ValidStage(cfg, st)
    requires !(Flying(st).Some? && Attempting(Flying(st).value, u))
    requires !(TakingOff(st).Some? && Attempting(TakingOff(st).value, u))
    ensures f in st.post.flights && Attempting(st.post.flights[f], u) <==> f in st.pre.flights && Attempting(st.pre.flights[f], u)
    ensures f in st.pre.flights && Attempting(st.pre.flights[f], u) ==> st.post.flights[f] == st.pre.flights[f]
  {
    StageParts(cfg, st);
    hide ValidStage, Continue, Departure, Single, Attempting;
    if Flying(st).Some? {
      ContinueAttempts(cfg, st.pre.sys, Flying(st).value, st.move.entropy, u);
      UnlockingAttempts(Flying(st).value, u);
    }
  }

  lemma UnlockingAttempts(flight: Flight, u: Id)
    ensures flight.Unlocking? && flight.userId == u ==> Attempting(flight, u)
  {
  }

  // ---------------------------------------------------------------------------
  // The count
  // ---------------------------------------------------------------------------

  /** What one attempt in flight says of the count so far. */
  predicate AttemptCounted(cfg: Config, users: map<Id, User>, u: Id, flight: Flight, comparisons: nat, start: Time, now: Time)
    requires u in users
  {
    match flight
    case Unlocking(_, row, attempt) =>
      && start <= attempt.at <= now
      && (if row.emailVerified then SameLogin(users[u], row) && row.status.LOCKED? && !LockedOut(row, attempt.at) else comparisons == 0)
      && Counted(cfg, users[u], comparisons, start, now)
    case Failing(_, row, at) => Counted(cfg, FailedRow(cfg, users, u, row, at), comparisons, start, now)
    case _ => false
  }

  /** The comparisons so far are accounted for by the row, or by the row once the attempt in flight is recorded. */
  ghost predicate Tally(cfg: Config, w: World, u: Id, comparisons: nat, start: Time, now: Time) {
    && u in w.sys.core.db.users
    && (forall f | f in w.flights && Attempting(w.flights[f], u) ::
          AttemptCounted(cfg, w.sys.core.db.users, u, w.flights[f], comparisons, start, now))
    && (NoAttempt(w, u) ==> Counted(cfg, w.sys.core.db.users[u], comparisons, start, now))
  }

  lemma AttemptCountedBySameLogin(cfg: Config, a: map<Id, User>, b: map<Id, User>, u: Id, flight: Flight, c: nat, start: Time, now: Time)
    requires u in a && u in b && SameLogin(a[u], b[u]) && AttemptCounted(cfg, a, u, flight, c, start, now)
    ensures AttemptCounted(cfg, b, u, flight, c, start, now)
  {
    hide Counted, FailedRow;
    CountedBySameLogin(cfg, a[u], b[u], c, start, now);
    if flight.Failing? {
      FailedRowBySameLogin(cfg, a, b, u, flight.row, flight.at);
      CountedBySameLogin(cfg, FailedRow(cfg, a, u, flight.row, flight.at), FailedRow(cfg, b, u, flight.row, flight.at), c, start, now);
    }
  }

  /** Calls of other requests leave the tally as it is. */
  lemma OthersKeepTally(cfg: Config, st: Stage, u: Id, c: nat, start: Time, now: Time)
    requires ValidStage(cfg, st) && Tally(cfg, st.pre, u, c, start, now) && !StatusOrdered(st, u) && Flying(st) != Some(Activating(u))
    requires !(Flying(st).Some? && Attempting(Flying(st).value, u))
    requires !(TakingOff(st).Some? && Attempting(TakingOff(st).value, u))
    ensures Tally(cfg, st.post, u, c, start, now) && !Compares(st, u)
  {
    hide ValidStage, Counted, AttemptCounted, StatusOrdered;
    StageLeavesRow(cfg, st, u);
    var a, b := st.pre.sys.core.db.users, st.post.sys.core.db.users;
    forall f | f in st.post.flights && Attempting(st.post.flights[f], u)
      ensures AttemptCounted(cfg, b, u, st.post.flights[f], c, start, now)
    {
      AttemptsStay(cfg, st, u, f);
      AttemptCountedBySameLogin(cfg, a, b, u, st.pre.flights[f], c, start, now);
    }
    if NoAttempt(st.post, u) {
      forall f | f in st.pre.flights ensures !Attempting(st.pre.flights[f], u) {
        AttemptsStay(cfg, st, u, f);
      }
      CountedBySameLogin(cfg, a[u], b[u], c, start, now);
    }
  }

  lemma CountedNone(cfg: Config, row: User, start: Time, now: Time)
    ensures Counted(cfg, row, 0, start, now)
  {
  }

  lemma UnverifiedNone(cfg: Config, row: User, c: nat, start: Time, now: Time)
    requires Counted(cfg, row, c, start, now)
    ensures !row.emailVerified ==> c == 0
  {
  }

  lemma UnverifiedUncounted(cfg: Config, users: map<Id, User>, u: Id, flight: Flight, c: nat, start: Time, now: Time)
    requires u in users && !users[u].emailVerified && AttemptCounted(cfg, users, u, flight, c, start, now)
    ensures c == 0 && (flight.Unlocking? ==> !flight.row.emailVerified)
  {
    hide LockoutMs, Attempts;
  }

  lemma UncountedAttempt(cfg: Config, a: map<Id, User>, b: map<Id, User>, u: Id, flight: Flight, start: Time, now: Time)
    requires u in a && u in b && !a[u].emailVerified && AttemptCounted(cfg, a, u, flight, 0, start, now)
    ensures AttemptCounted(cfg, b, u, flight, 0, start, now)
  {
    UnverifiedUncounted(cfg, a, u, flight, 0, start, now);
    hide Counted, FailedRow;
    CountedNone(cfg, b[u], start, now);
    if flight.Failing? {
      CountedNone(cfg, FailedRow(cfg, b, u, flight.row, flight.at), start, now);
    }
  }

  /** Before an address is verified no password is compared, so verifying it forgets nothing. */
  lemma VerifyingKeepsTally(cfg: Config, st: Stage, u: Id, c: nat, start: Time, now: Time)
    requires ValidStage(cfg, st) && Tally(cfg, st.pre, u, c, start, now)
    requires Flying(st) == Some(Activating(u)) && !st.pre.sys.core.db.users[u].emailVerified
    ensures Tally(cfg, st.post, u, c, start, now) && !Compares(st, u)
  {
    var a, b := st.pre.sys.core.db.users, st.post.sys.core.db.users;
    assert u in b by { StageParts(cfg, st); hide ValidStage, GoSession, GoCodes, GoCache, GoElse; }
    assert c == 0 by { TallyOfUnverified(cfg, st.pre, u, c, start, now); hide ValidStage, Tally; }
    hide ValidStage, Counted, AttemptCounted;
    forall f | f in st.post.flights && Attempting(st.post.flights[f], u)
      ensures AttemptCounted(cfg, b, u, st.post.flights[f], c, start, now)
    {
      AttemptsStay(cfg, st, u, f);
      UncountedAttempt(cfg, a, b, u, st.pre.flights[f], start, now);
    }
    CountedNone(cfg, b[u], start, now);
  }

  lemma TallyOfUnverified(cfg: Config, w: World, u: Id, c: nat, start: Time, now: Time)
    requires Tally(cfg, w, u, c, start, now) && !w.sys.core.db.users[u].emailVerified
    ensures c == 0
  {
    hide AttemptCounted;
    if f :| f in w.flights && Attempting(w.flights[f], u) {
      UnverifiedUncounted(cfg, w.sys.core.db.users, u, w.flights[f], c, start, now);
    }
  }

  lemma BegunAttempt(cfg: Config, db: Tables, email: string, attempt: Attempt, u: Id, c: nat, start: Time, now: Time)
    requires LockoutMs(cfg) > 0 && u in db.users && start <= attempt.at <= now && Counted(cfg, db.users[u], c, start, now)
    requires var r := BeginSignIn(cfg, db, email, attempt); r.Ok? && Attempting(r.value, u) && !r.value.Succeeding?
    ensures var flight := BeginSignIn(cfg, db, email, attempt).value;
            AttemptCounted(cfg, db.users, u, flight, c + (if flight.Failing? then 1 else 0), start, now)
  {
    hide Counted, FailedRow, PasswordMatches, LockedOut, LockoutMs;
    UnverifiedNone(cfg, db.users[u], c, start, now);
    if BeginSignIn(cfg, db, email, attempt).value.Failing? {
      FailureCounted(cfg, db.users, u, db.users[u], attempt.at, c, start, now);
    }
  }

  /** A sign-in to `u` that takes off, with none in flight, adds a comparison if its password is wrong. */
  lemma TakeOffTally(cfg: Config, st: Stage, u: Id, c: nat, start: Time, now: Time)
    requires LockoutMs(cfg) > 0 && ValidStage(cfg, st) && Tally(cfg, st.pre, u, c, start, now)
    requires TakingOff(st).Some? && Attempting(TakingOff(st).value, u) && !TakingOff(st).value.Succeeding? && OneAttempt(st.post, u)
    requires st.move.ReadForSignIn? ==> start <= st.move.attempt.at <= now
    ensures Tally(cfg, st.post, u, c + (if Compares(st, u) then 1 else 0), start, now)
  {
    StageParts(cfg, st);
    hide ValidStage, Counted, AttemptCounted, LockoutMs, BeginSignIn;
    OnlySignInAttempts(cfg, st.pre.sys, st.move, u);
    forall f | f in st.pre.flights ensures !Attempting(st.pre.flights[f], u) {
      assert f in st.post.flights && st.post.flights[f] == st.pre.flights[f];
      assert st.move.flight in st.post.flights && Attempting(st.post.flights[st.move.flight], u);
    }
    BegunAttempt(cfg, st.pre.sys.core.db, st.move.email, st.move.attempt, u, c, start, now);
    assert Attempting(st.post.flights[st.move.flight], u);
  }

  lemma UnlockedCount(cfg: Config, users: map<Id, User>, u: Id, flight: Flight, c: nat, start: Time, now: Time)
    requires LockoutMs(cfg) > 0 && u in users && flight.Unlocking? && AttemptCounted(cfg, users, u, flight, c, start, now)
    ensures var after := Unlock(users, u);
            var next := Compare(cfg, u, flight.row, flight.attempt);
            && u in after
            && (next.Ok? && next.value.Failing? ==> AttemptCounted(cfg, after, u, next.value, c + 1, start, now))
            && (next.Err? ==> Counted(cfg, after[u], c, start, now))
  {
    var after := Unlock(users, u);
    assert u in after && after[u] == users[u].(status := ACTIVE, lockedUntil := None, failedLoginAttempts := 0);
    hide Unlock, PasswordMatches, LockedOut, FailedRow, LockoutMs;
    var row, at := flight.row, flight.attempt.at;
    if row.emailVerified {
      assert Counted(cfg, row, c, start, now) by { hide Counted; CountedBySameLogin(cfg, users[u], row, c, start, now); }
      hide Counted;
      FailureCounted(cfg, after, u, row, at, c, start, now);
    }
  }

  lemma RecordedCount(cfg: Config, users: map<Id, User>, u: Id, flight: Flight, c: nat, start: Time, now: Time)
    requires u in users && flight.Failing? && flight.userId == u && AttemptCounted(cfg, users, u, flight, c, start, now)
    ensures var after := FailedLogin(cfg, users, u, flight.row, flight.at); u in after && Counted(cfg, after[u], c, start, now)
  {
    hide Counted;
  }

  /** The one sign-in to `u` in flight moves on. */
  lemma MoveOnTally(cfg: Config, st: Stage, u: Id, c: nat, start: Time, now: Time)
    requires LockoutMs(cfg) > 0 && ValidStage(cfg, st) && Tally(cfg, st.pre, u, c, start, now) && OneAttempt(st.pre, u)
    requires Flying(st).Some? && Attempting(Flying(st).value, u)
    requires forall f | f in st.post.flights && Attempting(st.post.flights[f], u) :: !st.post.flights[f].Succeeding?
    ensures Tally(cfg, st.post, u, c + (if Compares(st, u) then 1 else 0), start, now)
  {
    StageParts(cfg, st);
    var flight, f := Flying(st).value, st.move.flight;
    hide ValidStage, Counted, AttemptCounted, LockoutMs, GoSession, GoCodes, GoCache, GoElse, Compare, Unlock, FailedLogin;
    assert forall g | g in st.post.flights && Attempting(st.post.flights[g], u) :: g == f;
    assert AttemptCounted(cfg, st.pre.sys.core.db.users, u, flight, c, start, now);
    SucceedingUncounted(cfg, st.pre.sys.core.db.users, u, flight, c, start, now);
    if flight.Unlocking? {
      UnlockedCount(cfg, st.pre.sys.core.db.users, u, flight, c, start, now);
      ComparedTo(cfg, u, flight.row, flight.attempt);
    } else {
      RecordedCount(cfg, st.pre.sys.core.db.users, u, flight, c, start, now);
    }
  }

  lemma SucceedingUncounted(cfg: Config, users: map<Id, User>, u: Id, flight: Flight, c: nat, start: Time, now: Time)
    requires u in users && AttemptCounted(cfg, users, u, flight, c, start, now)
    ensures flight.Unlocking? || flight.Failing?
  {
  }

  lemma ComparedTo(cfg: Config, u: Id, row: User, attempt: Attempt)
    ensures var next := Compare(cfg, u, row, attempt); next.Ok? ==> (next.value.Failing? || next.value.Succeeding?) && next.value.userId == u
  {
  }

  lemma StageTally(cfg: Config, st: Stage, u: Id, c: nat, start: Time, now: Time)
    requires LockoutMs(cfg) > 0 && ValidStage(cfg, st) && Tally(cfg, st.pre, u, c, start, now) && !Resets(st, u)
    requires OneAttempt(st.pre, u) && OneAttempt(st.post, u)
    requires forall f | f in st.post.flights && Attempting(st.post.flights[f], u) :: !st.post.flights[f].Succeeding?
    requires st.move.ReadForSignIn? ==> start <= st.move.attempt.at <= now
    ensures Tally(cfg, st.post, u, c + (if Compares(st, u) then 1 else 0), start, now)
  {
    hide ValidStage, Tally, OneAttempt, Resets, Compares, LockoutMs;
    if Flying(st).Some? && Attempting(Flying(st).value, u) {
      MoveOnTally(cfg, st, u, c, start, now);
    } else if Flying(st) == Some(Activating(u)) {
      ResetParts(st, u);
      TallyHasRow(cfg, st.pre, u, c, start, now);
      VerifyingKeepsTally(cfg, st, u, c, start, now);
    } else if TakingOff(st).Some? && Attempting(TakingOff(st).value, u) {
      TakeOffTally(cfg, st, u, c, start, now);
    } else {
      ResetParts(st, u);
      OthersKeepTally(cfg, st, u, c, start, now);
    }
  }

  lemma ResetParts(st: Stage, u: Id)
    requires !Resets(st, u)
    ensures !StatusOrdered(st, u)
    ensures Flying(st) == Some(Activating(u)) && u in st.pre.sys.core.db.users ==> !st.pre.sys.core.db.users[u].emailVerified
  {
  }

  lemma TallyHasRow(cfg: Config, w: World, u: Id, c: nat, start: Time, now: Time)
    requires Tally(cfg, w, u, c, start, now)
    ensures u in w.sys.core.db.users
  {
  }

  /**
   No right password for `u`, no administrator changing its status, no confirmation completing
   twice, sign-ins at times from `start` to `end`, and never two to `u` in flight together.
   */
  ghost predicate NeverReset(trace: seq<Stage>, u: Id, start: Time, end: Time) {
    forall i | 0 <= i < |trace| ::
      && !Resets(trace[i], u) && OneAttempt(trace[i].pre, u) && OneAttempt(trace[i].post, u)
      && (forall f | f in trace[i].post.flights && Attempting(trace[i].post.flights[f], u) :: !trace[i].post.flights[f].Succeeding?)
      && (trace[i].move.ReadForSignIn? ==> start <= trace[i].move.attempt.at <= end)
  }

  lemma {:induction false} TraceTally(cfg: Config, trace: seq<Stage>, u: Id, start: Time, end: Time)
    requires ValidTrace(cfg, trace) && trace != [] && NeverReset(trace, u, start, end) && LockoutMs(cfg) > 0
    requires u in trace[0].pre.sys.core.db.users && NoAttempt(trace[0].pre, u)
    ensures Tally(cfg, trace[|trace| - 1].post, u, Comparisons(trace, u), start, end)
  {
    hide ValidStage, Tally, OneAttempt, Resets, Compares, LockoutMs, NoAttempt;
    var n := |trace| - 1;
    if n == 0 {
      StartsAtNone(cfg, trace[0].pre, u, start, end);
      assert trace[..n] == [];
      StageTally(cfg, trace[n], u, 0, start, end);
    } else {
      TraceTally(cfg, trace[..n], u, start, end);
      StageTally(cfg, trace[n], u, Comparisons(trace[..n], u), start, end);
    }
  }

  lemma StartsAtNone(cfg: Config, w: World, u: Id, start: Time, end: Time)
    requires u in w.sys.core.db.users && NoAttempt(w, u)
    ensures Tally(cfg, w, u, 0, start, end)
  {
  }

  lemma CountedBound(cfg: Config, row: User, c: nat, start: Time, end: Time)
    requires LockoutMs(cfg) > 0 && start <= end && Counted(cfg, row, c, start, end)
    ensures c <= Attempts(cfg) + (end - start) / LockoutMs(cfg)
  {
    var k, d := LockoutMs(cfg), c - Attempts(cfg);
    hide LockoutMs;
    if d > 0 {
      DivMonotone(d * k, end - start, k);
      DivUnique(d * k, k, d, 0);
    } else {
      DivMonotone(0, end - start, k);
    }
  }

  lemma TallyBound(cfg: Config, w: World, u: Id, c: nat, start: Time, end: Time)
    requires LockoutMs(cfg) > 0 && start <= end && Tally(cfg, w, u, c, start, end)
    ensures c <= Attempts(cfg) + (end - start) / LockoutMs(cfg)
  {
    hide Counted, LockoutMs, FailedRow;
    var users := w.sys.core.db.users;
    if f :| f in w.flights && Attempting(w.flights[f], u) {
      var flight := w.flights[f];
      assert AttemptCounted(cfg, users, u, flight, c, start, end);
      CountedBound(cfg, if flight.Failing? then FailedRow(cfg, users, u, flight.row, flight.at) else users[u], c, start, end);
    } else {
      CountedBound(cfg, users[u], c, start, end);
    }
  }

  lemma BoundUnlessReset(cfg: Config, trace: seq<Stage>, u: Id, start: Time, end: Time)
    requires ValidTrace(cfg, trace) && trace != [] && NeverReset(trace, u, start, end) && start <= end && LockoutMs(cfg) > 0
    requires u in trace[0].pre.sys.core.db.users && NoAttempt(trace[0].pre, u)
    ensures Comparisons(trace, u) <= Attempts(cfg) + (end - start) / LockoutMs(cfg)
  {
    hide ValidStage, NeverReset, LockoutMs, Tally, NoAttempt;
    TraceTally(cfg, trace, u, start, end);
    TallyBound(cfg, trace[|trace| - 1].post, u, Comparisons(trace, u), start, end);
  }

  // ---------------------------------------------------------------------------
  // A verified address stays verified, and needs no more confirming
  // ---------------------------------------------------------------------------

  /** On the way to marking the address of `u` verified. */
  predicate Verifying(flight: Flight, u: Id) {
    flight == Activating(u) || (flight.Confirming? && flight.userId == u && flight.activate)
  }

  ghost predicate Settled(w: World, u: Id) {
    && u in w.sys.core.db.users && w.sys.core.db.users[u].emailVerified
    && forall f | f in w.flights :: !Verifying(w.flights[f], u)
  }

  lemma WritesKeepVerified(cfg: Config, users: map<Id, User>, flight: Flight, u: Id)
    requires WritesUsers(flight) && u in users && users[u].emailVerified
    ensures var after := GoUsers(cfg, users, flight).0; u in after && after[u].emailVerified
  {
    hide Compare;
  }

  lemma ContinueSettled(cfg: Config, s: Sys, flight: Flight, e: Entropy, u: Id)
    requires u in s.core.db.users && s.core.db.users[u].emailVerified && !Verifying(flight, u)
    ensures var users := Continue(cfg, s, flight, e).0.core.db.users; u in users && users[u].emailVerified
    ensures var next := Continue(cfg, s, flight, e).1; next.On? ==> !Verifying(next.flight, u)
  {
    ContinueVerifies(cfg, s, flight, e, u);
    hide Continue, GoUsers;
    ContinueUsers(cfg, s, flight, e);
    if WritesUsers(flight) {
      WritesKeepVerified(cfg, s.core.db.users, flight, u);
    }
  }

  lemma ContinueVerifies(cfg: Config, s: Sys, flight: Flight, e: Entropy, u: Id)
    ensures var next := Continue(cfg, s, flight, e).1; next.On? && Verifying(next.flight, u) ==> Verifying(flight, u)
  {
    hide GoSession, PasswordMatches, MarkLoginSuccess, Unlock, FailedLogin, Changed, MarkEmailVerified, SetItem, GetItem, ChallengeKey,
      CeremonyKey, ConsumeRecoveryCode, DeleteRecoveryCodes, CreateRecoveryCodes, Insertable, DeviceTrusted, AvailableMethods, UpdateCounter,
      MarkUsed, Objection, SessionActive, RecoveryHashes, HexDraw, RecoveryCodes, CredentialsOf, Normalize;
    if WritesSessions(flight) {
      GoSessionFrame(cfg, s, flight, e);
    }
  }

  lemma DepartureSettled(cfg: Config, s: Sys, m: Move, u: Id)
    requires Begins(m) && u in s.core.db.users && s.core.db.users[u].emailVerified
    ensures var r := Departure(cfg, s, m).1; r.Ok? ==> !Verifying(r.value, u)
  {
    hide ChallengeUser, PasswordMatches, SecondsUp, LockedOut;
  }

  lemma StageSettled(cfg: Config, st: Stage, u: Id)
    requires ValidStage(cfg, st) && Settled(st.pre, u)
    ensures Settled(st.post, u)
  {
    hide ValidStage, Continue, Departure, Single, Verifying;
    StageParts(cfg, st);
    if Flying(st).Some? {
      ContinueSettled(cfg, st.pre.sys, Flying(st).value, st.move.entropy, u);
    } else {
      UsersOnlyByFlights(cfg, st.pre.sys, st.move);
      if Begins(st.move) {
        DepartureSettled(cfg, st.pre.sys, st.move, u);
      }
    }
  }

  lemma {:induction false} StaysSettled(cfg: Config, trace: seq<Stage>, n: nat, u: Id)
    requires ValidTrace(cfg, trace) && trace != [] && n <= |trace| && Settled(trace[0].pre, u)
    ensures Settled(WorldAt(trace, n), u)
  {
    hide ValidStage, Settled;
    if n > 0 {
      StaysSettled(cfg, trace, n - 1, u);
      StageSettled(cfg, trace[n - 1], u);
    }
  }

  // ---------------------------------------------------------------------------
  // The bound
  // ---------------------------------------------------------------------------

  /** No two confirmations of the address of `u` are in flight together. */
  ghost predicate OneConfirmation(w: World, u: Id) {
    forall f, g | f in w.flights && g in w.flights && Verifying(w.flights[f], u) && Verifying(w.flights[g], u) :: f == g
  }

  /** A verified address has no confirmation on the way to marking it. */
  ghost predicate ConfirmFits(w: World, u: Id) {
    u in w.sys.core.db.users && (w.sys.core.db.users[u].emailVerified ==> Settled(w, u))
  }

  lemma AttemptKeepsUnverified(cfg: Config, users: map<Id, User>, flight: Flight, u: Id)
    requires WritesUsers(flight) && u in users && flight != Activating(u)
    ensures var after := GoUsers(cfg, users, flight).0; u in after && after[u].emailVerified == users[u].emailVerified
  {
    hide Compare;
  }

  lemma OnlyActivatingVerifies(cfg: Config, st: Stage, u: Id)
    requires ValidStage(cfg, st) && u in st.pre.sys.core.db.users && Flying(st) != Some(Activating(u))
    ensures var users := st.post.sys.core.db.users; u in users && users[u].emailVerified == st.pre.sys.core.db.users[u].emailVerified
  {
    hide ValidStage, Continue, Departure, Single, GoUsers;
    StageParts(cfg, st);
    if Flying(st).Some? {
      var flight := Flying(st).value;
      ContinueUsers(cfg, st.pre.sys, flight, st.move.entropy);
      if WritesUsers(flight) {
        AttemptKeepsUnverified(cfg, st.pre.sys.core.db.users, flight, u);
      }
    } else {
      UsersOnlyByFlights(cfg, st.pre.sys, st.move);
    }
  }

  /** The one confirmation that marks the address leaves none behind. */
  lemma ActivatedSettles(cfg: Config, st: Stage, u: Id)
    requires ValidStage(cfg, st) && u in st.pre.sys.core.db.users && OneConfirmation(st.pre, u) && Flying(st) == Some(Activating(u))
    ensures Settled(st.post, u)
  {
    hide ValidStage, GoSession, GoCodes, GoCache, GoElse;
    StageParts(cfg, st);
    assert Verifying(st.pre.flights[st.move.flight], u);
  }

  lemma StageConfirmFits(cfg: Config, st: Stage, u: Id)
    requires ValidStage(cfg, st) && ConfirmFits(st.pre, u) && OneConfirmation(st.pre, u)
    ensures ConfirmFits(st.post, u)
  {
    hide ValidStage, Settled, OneConfirmation;
    if Flying(st) == Some(Activating(u)) {
      ActivatedSettles(cfg, st, u);
      SettledHasRow(st.post, u);
    } else {
      OnlyActivatingVerifies(cfg, st, u);
      if st.pre.sys.core.db.users[u].emailVerified {
        StageSettled(cfg, st, u);
      }
    }
  }

  lemma {:induction false} StaysConfirmFits(cfg: Config, trace: seq<Stage>, n: nat, u: Id)
    requires ValidTrace(cfg, trace) && trace != [] && n <= |trace| && ConfirmFits(trace[0].pre, u)
    requires forall i | 0 <= i < |trace| :: OneConfirmation(trace[i].pre, u)
    ensures ConfirmFits(WorldAt(trace, n), u)
  {
    hide ValidStage, ConfirmFits, OneConfirmation;
    if n > 0 {
      StaysConfirmFits(cfg, trace, n - 1, u);
      StageConfirmFits(cfg, trace[n - 1], u);
    }
  }

  /**
   No right password for `u`, no administrator changing its status, sign-ins at times from
   `start` to `end`, and never two sign-ins or two confirmations of `u` in flight together.
   */
  ghost predicate OneByOne(trace: seq<Stage>, u: Id, start: Time, end: Time) {
    forall i | 0 <= i < |trace| ::
      && !StatusOrdered(trace[i], u) && OneAttempt(trace[i].pre, u) && OneAttempt(trace[i].post, u) && OneConfirmation(trace[i].pre, u)
      && (forall f | f in trace[i].post.flights && Attempting(trace[i].post.flights[f], u) :: !trace[i].post.flights[f].Succeeding?)
      && (trace[i].move.ReadForSignIn? ==> start <= trace[i].move.attempt.at <= end)
  }

  lemma FitsIsNotReset(st: Stage, u: Id)
    requires ConfirmFits(st.pre, u) && !StatusOrdered(st, u)
    ensures !Resets(st, u)
  {
  }

  /**
   Whatever else overlaps: as long as no two sign-ins to the account and no two confirmations of
   its address are in flight together, the wrong passwords compared number at most the limit
   plus one for each whole lockout that fits in the time.
   */
  lemma BruteForceBoundOneByOne(cfg: Config, trace: seq<Stage>, u: Id, start: Time, end: Time)
    requires ValidTrace(cfg, trace) && trace != [] && OneByOne(trace, u, start, end) && start <= end && LockoutMs(cfg) > 0
    requires ConfirmFits(trace[0].pre, u) && NoAttempt(trace[0].pre, u)
    ensures Comparisons(trace, u) <= Attempts(cfg) + (end - start) / LockoutMs(cfg)
  {
    hide ValidStage, LockoutMs, NoAttempt, ConfirmFits, StatusOrdered, Resets, OneAttempt, Attempting, OneConfirmation;
    forall i | 0 <= i < |trace| ensures !Resets(trace[i], u) {
      StaysConfirmFits(cfg, trace, i, u);
      FitsIsNotReset(trace[i], u);
    }
    assert NeverReset(trace, u, start, end);
    ConfirmFitsHasRow(trace[0].pre, u);
    hide NeverReset, OneByOne;
    BoundUnlessReset(cfg, trace, u, start, end);
  }

  lemma ConfirmFitsHasRow(w: World, u: Id)
    requires ConfirmFits(w, u)
    ensures u in w.sys.core.db.users
  {
  }

  lemma SettledHasRow(w: World, u: Id)
    requires Settled(w, u)
    ensures u in w.sys.core.db.users
  {
  }

  lemma SettledConfirmsNothing(w: World, u: Id)
    requires Settled(w, u)
    ensures OneConfirmation(w, u) && ConfirmFits(w, u)
  {
  }

  /** For an account with a verified address, and no confirmation of it under way at the start, confirmations do not matter. */
  lemma VerifiedAccountBound(cfg: Config, trace: seq<Stage>, u: Id, start: Time, end: Time)
    requires ValidTrace(cfg, trace) && trace != [] && start <= end && LockoutMs(cfg) > 0
    requires Settled(trace[0].pre, u) && NoAttempt(trace[0].pre, u)
    requires forall i | 0 <= i < |trace| ::
      && !StatusOrdered(trace[i], u) && OneAttempt(trace[i].pre, u) && OneAttempt(trace[i].post, u)
      && (forall f | f in trace[i].post.flights && Attempting(trace[i].post.flights[f], u) :: !trace[i].post.flights[f].Succeeding?)
      && (trace[i].move.ReadForSignIn? ==> start <= trace[i].move.attempt.at <= end)
    ensures Comparisons(trace, u) <= Attempts(cfg) + (end - start) / LockoutMs(cfg)
  {
    hide ValidStage, LockoutMs, NoAttempt, Settled, StatusOrdered, OneAttempt, Attempting, OneConfirmation, ConfirmFits;
    forall i | 0 <= i < |trace| ensures OneConfirmation(trace[i].pre, u) {
      StaysSettled(cfg, trace, i, u);
      SettledConfirmsNothing(trace[i].pre, u);
    }
    SettledConfirmsNothing(trace[0].pre, u);
    assert OneByOne(trace, u, start, end);
    hide OneByOne;
    BruteForceBoundOneByOne(cfg, trace, u, start, end);
  }

  // ---------------------------------------------------------------------------
  // Two confirmations that overlap
  // ---------------------------------------------------------------------------

  /** The address of `u` is unverified, and `token` is good for it. */
  predicate Confirmable(db: Tables, token: string, now: Time, u: Id) {
    && u in db.users && !db.users[u].emailVerified && Sha256(token) in db.verifications
    && var row := db.verifications[Sha256(token)]; row.userId == u && row.usedAt.None? && now <= row.expiresAt
  }

  function TwoConfirmations(f: nat, g: nat, h: nat, token: string, email: string, attempt: Attempt, e: Entropy): seq<Move> {
    [ReadForConfirm(f, token, attempt.at), ReadForConfirm(g, token, attempt.at), Go(f, e), Go(f, e),
     ReadForSignIn(h, email, attempt), Go(h, e), Go(g, e), Go(g, e), ReadForSignIn(h, email, attempt)]
  }

  lemma ConfirmCall(cfg: Config, w: World, f: nat, token: string, now: Time, u: Id)
    requires f !in w.flights && Confirmable(w.sys.core.db, token, now, u)
    ensures var m := ReadForConfirm(f, token, now);
            DrawnBy(w, m) == {} && Call(cfg, w, m).0 == w.(flights := w.flights[f := Confirming(Sha256(token), u, true, now)])
  {
    assert w.sys.(drawn := w.sys.drawn + {}) == w.sys;
  }

  lemma MarkCall(cfg: Config, w: World, f: nat, u: Id, e: Entropy)
    requires f in w.flights && w.flights[f].Confirming? && w.flights[f].activate && w.flights[f].userId == u
    ensures var w1 := Call(cfg, w, Go(f, e)).0;
            && DrawnBy(w, Go(f, e)) == {} && w1.flights == w.flights[f := Activating(u)]
            && w1.sys.core.db.users == w.sys.core.db.users && w1.sys.core.db.emails == w.sys.core.db.emails && w1.sys.drawn == w.sys.drawn
  {
    hide GoSession, GoUsers, GoCodes, GoCache, MarkUsed;
  }

  lemma ActivateCall(cfg: Config, w: World, f: nat, u: Id, e: Entropy)
    requires f in w.flights && w.flights[f] == Activating(u)
    ensures var w1 := Call(cfg, w, Go(f, e)).0;
            && DrawnBy(w, Go(f, e)) == {} && w1.flights == w.flights - {f}
            && w1.sys.core.db.users == MarkEmailVerified(w.sys.core.db.users, u) && w1.sys.core.db.emails == w.sys.core.db.emails
            && w1.sys.drawn == w.sys.drawn
  {
    hide GoSession, GoCodes, GoCache, GoElse, MarkEmailVerified;
  }

  lemma WrongCall(cfg: Config, w: World, h: nat, email: string, attempt: Attempt, u: Id)
    requires h !in w.flights && WrongFor(cfg, w, email, attempt, u)
    ensures var m := ReadForSignIn(h, email, attempt);
            && DrawnBy(w, m) == {}
            && Call(cfg, w, m).0 == w.(flights := w.flights[h := Failing(u, w.sys.core.db.users[u], attempt.at)])
  {
    BeginsFailing(cfg, w, email, attempt, u);
    hide BeginSignIn, WrongFor;
    assert w.sys.(drawn := w.sys.drawn + {}) == w.sys;
  }

  lemma FailCall(cfg: Config, w: World, h: nat, u: Id, row: User, at: Time, e: Entropy)
    requires h in w.flights && w.flights[h] == Failing(u, row, at)
    ensures var w1 := Call(cfg, w, Go(h, e)).0;
            && DrawnBy(w, Go(h, e)) == {} && w1.flights == w.flights - {h}
            && w1.sys.core.db.users == FailedLogin(cfg, w.sys.core.db.users, u, row, at) && w1.sys.core.db.emails == w.sys.core.db.emails
            && w1.sys.drawn == w.sys.drawn
  {
    hide GoSession, GoCodes, GoCache, GoElse, FailedLogin;
  }

  /** Signing in to an account just marked verified: any lock it had no longer counts. */
  lemma WrongOnceActive(cfg: Config, w: World, users: map<Id, User>, email: string, attempt: Attempt, u: Id, passwordHash: Option<string>)
    requires u in users && w.sys.core.db.users == MarkEmailVerified(users, u) && users[u].passwordHash == passwordHash
    requires email in w.sys.core.db.emails && w.sys.core.db.emails[email] == u
    requires !cfg.passwordOk(attempt.password, if passwordHash.Some? then passwordHash.value else "")
    ensures WrongFor(cfg, w, email, attempt, u)
  {
  }

  lemma RowOnceMarked(cfg: Config, users: map<Id, User>, u: Id, row: User, at: Time)
    requires u in users
    ensures var marked := MarkEmailVerified(users, u);
            && u in marked && marked[u].passwordHash == users[u].passwordHash
            && var failed := FailedLogin(cfg, marked, u, row, at);
               && u in failed && failed[u].passwordHash == users[u].passwordHash
               && (row.failedLoginAttempts + 1 >= cfg.loginMaxAttempts ==>
                     failed[u].status.LOCKED? && failed[u].lockedUntil == Some(at + LockoutMs(cfg)))
  {
  }

  predicate Apart(w: World, f: nat, g: nat, h: nat) {
    f != g && g != h && f != h && f !in w.flights && g !in w.flights && h !in w.flights
  }

  lemma BothConfirming(cfg: Config, w: World, f: nat, g: nat, h: nat, token: string, now: Time, u: Id, e: Entropy)
    returns (w1: World, w2: World, w3: World, w4: World)
    requires Apart(w, f, g, h) && Confirmable(w.sys.core.db, token, now, u)
    ensures Quietly(cfg, w, ReadForConfirm(f, token, now), w1) && Quietly(cfg, w1, ReadForConfirm(g, token, now), w2)
    ensures Quietly(cfg, w2, Go(f, e), w3) && Quietly(cfg, w3, Go(f, e), w4)
    ensures w4.flights == w.flights[g := Confirming(Sha256(token), u, true, now)]
    ensures w4.sys.core.db.users == MarkEmailVerified(w.sys.core.db.users, u) && w4.sys.core.db.emails == w.sys.core.db.emails
  {
    hide Call, DrawnBy, MarkEmailVerified;
    var first := Confirming(Sha256(token), u, true, now);
    ConfirmCall(cfg, w, f, token, now, u);
    w1 := w.(flights := w.flights[f := first]);
    ConfirmCall(cfg, w1, g, token, now, u);
    w2 := w1.(flights := w1.flights[g := first]);
    MarkCall(cfg, w2, f, u, e);
    w3 := Call(cfg, w2, Go(f, e)).0;
    ActivateCall(cfg, w3, f, u, e);
    w4 := Call(cfg, w3, Go(f, e)).0;
    assert w.flights[f := first][g := first][f := Activating(u)] - {f} == w.flights[g := first];
  }

  /** A wrong password, read and recorded. */
  lemma WrongAndRecorded(cfg: Config, w: World, h: nat, email: string, attempt: Attempt, u: Id, e: Entropy) returns (w1: World, w2: World)
    requires h !in w.flights && WrongFor(cfg, w, email, attempt, u)
    ensures Quietly(cfg, w, ReadForSignIn(h, email, attempt), w1) && Quietly(cfg, w1, Go(h, e), w2)
    ensures u in w.sys.core.db.users && w1 == w.(flights := w.flights[h := Failing(u, w.sys.core.db.users[u], attempt.at)])
    ensures w2.flights == w.flights && w2.sys.core.db.emails == w.sys.core.db.emails
    ensures w2.sys.core.db.users == FailedLogin(cfg, w.sys.core.db.users, u, w.sys.core.db.users[u], attempt.at)
  {
    FoundRow(cfg, w, email, attempt, u);
    hide Call, DrawnBy, FailedLogin, WrongFor;
    WrongCall(cfg, w, h, email, attempt, u);
    w1 := w.(flights := w.flights[h := Failing(u, w.sys.core.db.users[u], attempt.at)]);
    FailCall(cfg, w1, h, u, w.sys.core.db.users[u], attempt.at, e);
    w2 := Call(cfg, w1, Go(h, e)).0;
    assert w1.flights - {h} == w.flights;
  }

  lemma OtherConfirmed(cfg: Config, w: World, g: nat, token: string, now: Time, u: Id, e: Entropy) returns (w1: World, w2: World)
    requires g in w.flights && w.flights[g] == Confirming(Sha256(token), u, true, now)
    ensures Quietly(cfg, w, Go(g, e), w1) && Quietly(cfg, w1, Go(g, e), w2)
    ensures w2.flights == w.flights - {g} && w2.sys.core.db.emails == w.sys.core.db.emails
    ensures w2.sys.core.db.users == MarkEmailVerified(w.sys.core.db.users, u)
  {
    hide Call, DrawnBy, MarkEmailVerified;
    MarkCall(cfg, w, g, u, e);
    w1 := Call(cfg, w, Go(g, e)).0;
    ActivateCall(cfg, w1, g, u, e);
    w2 := Call(cfg, w1, Go(g, e)).0;
    assert w.flights[g := Activating(u)] - {g} == w.flights - {g};
  }

  lemma ConfirmationsQuietly(cfg: Config, w: World, f: nat, g: nat, h: nat, token: string, email: string, attempt: Attempt, u: Id, e: Entropy)
    returns (worlds: seq<World>)
    requires Apart(w, f, g, h) && email in w.sys.core.db.emails && w.sys.core.db.emails[email] == u
    requires Confirmable(w.sys.core.db, token, attempt.at, u) && !PasswordMatches(cfg, w.sys.core.db.users[u], attempt.password)
    requires cfg.loginMaxAttempts <= 1
    ensures AllQuietly(cfg, worlds, TwoConfirmations(f, g, h, token, email, attempt, e)) && |worlds| == 10 && worlds[0] == w
    ensures worlds[4].flights == w.flights[g := Confirming(Sha256(token), u, true, attempt.at)] && worlds[8].flights == w.flights
    ensures h in worlds[5].flights && worlds[5].flights[h].Failing? && worlds[5].flights[h].userId == u
    ensures h in worlds[9].flights && worlds[9].flights[h].Failing? && worlds[9].flights[h].userId == u
    ensures u in worlds[6].sys.core.db.users && worlds[6].sys.core.db.users[u].status.LOCKED?
  {
    var users := w.sys.core.db.users;
    hide Call, DrawnBy, MarkEmailVerified, FailedLogin, WrongFor, PasswordMatches, Quietly;
    PasswordOf(cfg, users[u], attempt.password);
    var w1, w2, w3, w4 := BothConfirming(cfg, w, f, g, h, token, attempt.at, u, e);
    RowOnceMarked(cfg, users, u, MarkedRow(users, u), attempt.at);
    WrongOnceActive(cfg, w4, users, email, attempt, u, users[u].passwordHash);
    var w5, w6 := WrongAndRecorded(cfg, w4, h, email, attempt, u, e);
    var w7, w8 := OtherConfirmed(cfg, w6, g, token, attempt.at, u, e);
    assert w.flights[g := Confirming(Sha256(token), u, true, attempt.at)] - {g} == w.flights;
    WrongOnceActive(cfg, w8, w6.sys.core.db.users, email, attempt, u, users[u].passwordHash);
    var w9, w10 := WrongAndRecorded(cfg, w8, h, email, attempt, u, e);
    worlds := [w, w1, w2, w3, w4, w5, w6, w7, w8, w9];
  }

  function MarkedRow(users: map<Id, User>, u: Id): User
    requires u in users
  {
    MarkEmailVerified(users, u)[u]
  }

  lemma PasswordOf(cfg: Config, row: User, password: string)
    ensures PasswordMatches(cfg, row, password) == cfg.passwordOk(password, if row.passwordHash.Some? then row.passwordHash.value else "")
  {
  }

  /**
   Two confirmations of one address that both read before either completes: the second lifts a
   lock set in between, and a second wrong password is compared at the same time, though no two
   sign-ins overlap and the limit is one.
   */
  lemma LockLiftedByOverlap(cfg: Config, w: World, f: nat, g: nat, h: nat, token: string, email: string, attempt: Attempt, u: Id, e: Entropy)
    requires Apart(w, f, g, h) && NoAttempt(w, u) && email in w.sys.core.db.emails && w.sys.core.db.emails[email] == u
    requires Confirmable(w.sys.core.db, token, attempt.at, u) && !PasswordMatches(cfg, w.sys.core.db.users[u], attempt.password)
    requires cfg.loginMaxAttempts <= 1
    ensures var trace := TraceOf(cfg, w, TwoConfirmations(f, g, h, token, email, attempt, e));
            && ValidTrace(cfg, trace) && |trace| == 9 && WorldAt(trace, 0) == w
            && Attempts(cfg) == 1 && Compares(trace[4], u) && Compares(trace[8], u)
            && NoAttempt(trace[4].pre, u) && NoAttempt(trace[8].pre, u)
            && u in trace[6].pre.sys.core.db.users && trace[6].pre.sys.core.db.users[u].status.LOCKED?
  {
    hide Call, DrawnBy, After, FreshAlong, AllQuietly, Confirmable, PasswordMatches, Compares, ValidTrace;
    var moves := TwoConfirmations(f, g, h, token, email, attempt, e);
    var worlds := ConfirmationsQuietly(cfg, w, f, g, h, token, email, attempt, u, e);
    QuietTrace(cfg, worlds, moves);
    TraceOfIsValid(cfg, w, moves);
    ReadCompares(TraceOf(cfg, w, moves)[4], u);
    ReadCompares(TraceOf(cfg, w, moves)[8], u);
  }

  // ---------------------------------------------------------------------------
  // Any number of overlapping sign-ins
  // ---------------------------------------------------------------------------

  function Reads(n: nat, email: string, attempt: Attempt): seq<Move> {
    seq(n, i requires 0 <= i < n => ReadForSignIn(i, email, attempt))
  }

  function Records(n: nat, e: Entropy): seq<Move> {
    seq(n, i requires 0 <= i < n => Go(i, e))
  }

  function Numbers(m: nat, n: nat): (r: set<nat>)
    ensures forall f: nat :: f in r <==> m <= f < n
  {
    if m >= n then {} else Numbers(m, n - 1) + {n - 1}
  }

  /** The flights from `m` to `n`, each about to record its failure. */
  function Failures(m: nat, n: nat, u: Id, row: User, at: Time): map<nat, Flight> {
    map f | f in Numbers(m, n) :: Failing(u, row, at)
  }

  /** The account may sign in, and the password is wrong. */
  predicate WrongFor(cfg: Config, w: World, email: string, attempt: Attempt, u: Id) {
    && FindByEmail(w.sys.core.db, email) == Some(u) && u in w.sys.core.db.users
    && var row := w.sys.core.db.users[u];
       !row.status.LOCKED? && Refusal(row, attempt.at).None? && !PasswordMatches(cfg, row, attempt.password)
  }

  lemma BeginsFailing(cfg: Config, w: World, email: string, attempt: Attempt, u: Id)
    requires WrongFor(cfg, w, email, attempt, u)
    ensures BeginSignIn(cfg, w.sys.core.db, email, attempt) == Ok(Failing(u, w.sys.core.db.users[u], attempt.at))
  {
    hide PasswordMatches, SecondsUp;
  }

  lemma ReadCall(cfg: Config, s: Sys, n: nat, email: string, attempt: Attempt, u: Id, row: User)
    requires BeginSignIn(cfg, s.core.db, email, attempt) == Ok(Failing(u, row, attempt.at))
    ensures Call(cfg, World(s, Failures(0, n, u, row, attempt.at)), ReadForSignIn(n, email, attempt)).0
         == World(s, Failures(0, n + 1, u, row, attempt.at))
    ensures DrawnBy(World(s, Failures(0, n, u, row, attempt.at)), ReadForSignIn(n, email, attempt)) == {}
  {
    hide BeginSignIn;
    assert Failures(0, n, u, row, attempt.at)[n := Failing(u, row, attempt.at)] == Failures(0, n + 1, u, row, attempt.at);
    assert s.(drawn := s.drawn + {}) == s;
  }

  lemma OneMoreRead(n: nat, email: string, attempt: Attempt)
    ensures Reads(n + 1, email, attempt) == Reads(n, email, attempt) + [ReadForSignIn(n, email, attempt)] && Reads(0, email, attempt) == []
  {
  }

  lemma {:induction false} AllRead(cfg: Config, w: World, n: nat, email: string, attempt: Attempt, u: Id)
    requires w.flights == map[] && WrongFor(cfg, w, email, attempt, u)
    ensures After(cfg, w, Reads(n, email, attempt))
         == World(w.sys, Failures(0, n, u, w.sys.core.db.users[u], attempt.at))
  {
    BeginsFailing(cfg, w, email, attempt, u);
    var row := w.sys.core.db.users[u];
    if n > 0 {
      hide BeginSignIn, After, Call, Reads, Failures, WrongFor;
      AllRead(cfg, w, n - 1, email, attempt, u);
      OneMoreRead(n - 1, email, attempt);
      AfterOne(cfg, w, Reads(n - 1, email, attempt), ReadForSignIn(n - 1, email, attempt));
      ReadCall(cfg, w.sys, n - 1, email, attempt, u, row);
    } else {
      hide BeginSignIn, Call, Reads, WrongFor;
      OneMoreRead(0, email, attempt);
      assert Failures(0, 0, u, row, attempt.at) == map[];
    }
  }

  lemma RecordedTwice(cfg: Config, users: map<Id, User>, u: Id, row: User, at: Time)
    ensures FailedLogin(cfg, FailedLogin(cfg, users, u, row, at), u, row, at) == FailedLogin(cfg, users, u, row, at)
  {
  }

  /** The user table once `m` of the failures are recorded. */
  function Recorded(cfg: Config, users: map<Id, User>, m: nat, u: Id, row: User, at: Time): map<Id, User> {
    if m == 0 then users else FailedLogin(cfg, users, u, row, at)
  }

  lemma RecordCall(cfg: Config, s: Sys, m: nat, n: nat, u: Id, row: User, at: Time, e: Entropy)
    requires m < n
    ensures var w := World(s, Failures(m, n, u, row, at));
            && DrawnBy(w, Go(m, e)) == {}
            && Call(cfg, w, Go(m, e)).0 == World(WithUsers(s, FailedLogin(cfg, s.core.db.users, u, row, at)), Failures(m + 1, n, u, row, at))
  {
    hide GoSession, GoCodes, GoCache, GoElse, FailedLogin;
    assert Failures(m, n, u, row, at) - {m} == Failures(m + 1, n, u, row, at);
    assert s.drawn + {} == s.drawn;
  }

  /** The world with all `n` failures read and `m` of them recorded. */
  function Halfway(cfg: Config, s: Sys, m: nat, n: nat, u: Id, row: User, at: Time): World {
    World(WithUsers(s, Recorded(cfg, s.core.db.users, m, u, row, at)), Failures(m, n, u, row, at))
  }

  lemma NoneRecorded(cfg: Config, s: Sys, n: nat, u: Id, row: User, at: Time)
    ensures Halfway(cfg, s, 0, n, u, row, at) == World(s, Failures(0, n, u, row, at))
  {
    hide Failures;
    assert WithUsers(s, s.core.db.users) == s;
  }

  lemma NextRecorded(cfg: Config, s: Sys, m: nat, n: nat, u: Id, row: User, at: Time, e: Entropy)
    requires m < n
    ensures Call(cfg, Halfway(cfg, s, m, n, u, row, at), Go(m, e)).0 == Halfway(cfg, s, m + 1, n, u, row, at)
  {
    hide Call, FailedLogin, Failures;
    RecordedTwice(cfg, s.core.db.users, u, row, at);
    RecordCall(cfg, WithUsers(s, Recorded(cfg, s.core.db.users, m, u, row, at)), m, n, u, row, at, e);
  }

  lemma OneMoreRecord(first: seq<Move>, m: nat, e: Entropy)
    requires m > 0
    ensures first + Records(m, e) == (first + Records(m - 1, e)) + [Go(m - 1, e)]
  {
    assert Records(m, e) == Records(m - 1, e) + [Go(m - 1, e)];
  }

  lemma NoRecords(first: seq<Move>, e: Entropy)
    ensures first + Records(0, e) == first
  {
  }

  lemma {:induction false} RecordsFrom(cfg: Config, w: World, first: seq<Move>, s: Sys, m: nat, n: nat, u: Id, row: User, at: Time, e: Entropy)
    requires After(cfg, w, first) == Halfway(cfg, s, 0, n, u, row, at) && m <= n
    ensures After(cfg, w, first + Records(m, e)) == Halfway(cfg, s, m, n, u, row, at)
  {
    hide After, Call, Halfway, Records;
    if m > 0 {
      RecordsFrom(cfg, w, first, s, m - 1, n, u, row, at, e);
      OneMoreRecord(first, m, e);
      AfterOne(cfg, w, first + Records(m - 1, e), Go(m - 1, e));
      NextRecorded(cfg, s, m - 1, n, u, row, at, e);
    } else {
      NoRecords(first, e);
    }
  }

  lemma SomeRecorded(cfg: Config, w: World, m: nat, n: nat, email: string, attempt: Attempt, u: Id, e: Entropy)
    requires w.flights == map[] && WrongFor(cfg, w, email, attempt, u) && m <= n
    ensures After(cfg, w, Reads(n, email, attempt) + Records(m, e))
         == Halfway(cfg, w.sys, m, n, u, w.sys.core.db.users[u], attempt.at)
  {
    FoundRow(cfg, w, email, attempt, u);
    hide WrongFor, After, Call, Failures, Halfway, Reads, Records;
    var row := w.sys.core.db.users[u];
    AllRead(cfg, w, n, email, attempt, u);
    NoneRecorded(cfg, w.sys, n, u, row, attempt.at);
    RecordsFrom(cfg, w, Reads(n, email, attempt), w.sys, m, n, u, row, attempt.at, e);
  }

  function Burst(n: nat, email: string, attempt: Attempt, e: Entropy): seq<Move> {
    Reads(n, email, attempt) + Records(n, e)
  }

  /** The world after `i` moves of the burst. */
  lemma BurstWorld(cfg: Config, w: World, n: nat, i: nat, email: string, attempt: Attempt, u: Id, e: Entropy)
    requires w.flights == map[] && WrongFor(cfg, w, email, attempt, u) && i <= 2 * n
    ensures var row := w.sys.core.db.users[u];
            After(cfg, w, Burst(n, email, attempt, e)[..i])
            == if i <= n then World(w.sys, Failures(0, i, u, row, attempt.at))
               else World(WithUsers(w.sys, FailedLogin(cfg, w.sys.core.db.users, u, row, attempt.at)), Failures(i - n, n, u, row, attempt.at))
  {
    hide WrongFor, After, FailedLogin;
    if i <= n {
      assert Burst(n, email, attempt, e)[..i] == Reads(i, email, attempt);
      AllRead(cfg, w, i, email, attempt, u);
    } else {
      assert Burst(n, email, attempt, e)[..i] == Reads(n, email, attempt) + Records(i - n, e);
      SomeRecorded(cfg, w, i - n, n, email, attempt, u, e);
    }
  }

  lemma BurstIsFresh(cfg: Config, w: World, n: nat, email: string, attempt: Attempt, u: Id, e: Entropy)
    requires w.flights == map[] && WrongFor(cfg, w, email, attempt, u)
    ensures FreshAlong(cfg, w, Burst(n, email, attempt, e))
  {
    var moves := Burst(n, email, attempt, e);
    hide WrongFor, After, FailedLogin;
    forall i | 0 <= i < |moves| ensures DrawnBy(After(cfg, w, moves[..i]), moves[i]) == {} {
      BurstWorld(cfg, w, n, i, email, attempt, u, e);
    }
  }

  lemma FailureAt(m: nat, n: nat, u: Id, row: User, at: Time, f: nat)
    ensures f in Failures(m, n, u, row, at) <==> m <= f < n
    ensures m <= f < n ==> Failures(m, n, u, row, at)[f] == Failing(u, row, at)
  {
  }

  lemma BurstMove(n: nat, i: nat, email: string, attempt: Attempt, e: Entropy)
    requires i < 2 * n
    ensures |Burst(n, email, attempt, e)| == 2 * n
    ensures Burst(n, email, attempt, e)[i] == if i < n then ReadForSignIn(i, email, attempt) else Go(i - n, e)
  {
  }

  lemma BurstStage(cfg: Config, w: World, n: nat, i: nat, email: string, attempt: Attempt, e: Entropy)
    requires i < 2 * n
    ensures i < |TraceOf(cfg, w, Burst(n, email, attempt, e))|
    ensures var moves := Burst(n, email, attempt, e);
            var st := TraceOf(cfg, w, moves)[i];
            && st.pre == After(cfg, w, moves[..i]) && st.post == After(cfg, w, moves[..i + 1])
            && st.move == if i < n then ReadForSignIn(i, email, attempt) else Go(i - n, e)
  {
    hide After, Call, Burst;
    BurstMove(n, i, email, attempt, e);
  }

  lemma ReadCompares(st: Stage, u: Id)
    requires st.move.ReadForSignIn? && st.move.flight !in st.pre.flights && st.move.flight in st.post.flights
    requires st.post.flights[st.move.flight].Failing? && st.post.flights[st.move.flight].userId == u
    ensures Compares(st, u)
  {
  }

  lemma RecordComparesNothing(st: Stage, u: Id)
    requires st.move.Go? && st.move.flight in st.pre.flights && st.pre.flights[st.move.flight].Failing?
    ensures !Compares(st, u)
  {
  }

  lemma BurstCompares(cfg: Config, w: World, n: nat, i: nat, email: string, attempt: Attempt, u: Id, e: Entropy)
    requires w.flights == map[] && WrongFor(cfg, w, email, attempt, u) && i < 2 * n
    ensures i < |TraceOf(cfg, w, Burst(n, email, attempt, e))|
    ensures Compares(TraceOf(cfg, w, Burst(n, email, attempt, e))[i], u) <==> i < n
  {
    FoundRow(cfg, w, email, attempt, u);
    BurstStage(cfg, w, n, i, email, attempt, e);
    var st := TraceOf(cfg, w, Burst(n, email, attempt, e))[i];
    var row := w.sys.core.db.users[u];
    hide WrongFor, After, FailedLogin, Call, Failures, TraceOf, Burst, Halfway, Compares;
    BurstWorld(cfg, w, n, i, email, attempt, u, e);
    if i < n {
      BurstWorld(cfg, w, n, i + 1, email, attempt, u, e);
      FailureAt(0, i, u, row, attempt.at, i);
      FailureAt(0, i + 1, u, row, attempt.at, i);
      ReadCompares(st, u);
    } else {
      FailureAt(i - n, n, u, row, attempt.at, i - n);
      RecordComparesNothing(st, u);
    }
  }

  lemma {:induction false} CountFirst(trace: seq<Stage>, n: nat, i: nat, u: Id)
    requires i <= |trace| && forall k | 0 <= k < |trace| :: Compares(trace[k], u) <==> k < n
    ensures Comparisons(trace[..i], u) == if i < n then i else n
  {
    hide Compares;
    if i > 0 {
      CountFirst(trace, n, i - 1, u);
      assert trace[..i][..i - 1] == trace[..i - 1];
    }
  }

  lemma BurstCount(cfg: Config, w: World, n: nat, email: string, attempt: Attempt, u: Id, e: Entropy)
    requires w.flights == map[] && WrongFor(cfg, w, email, attempt, u)
    ensures Comparisons(TraceOf(cfg, w, Burst(n, email, attempt, e)), u) == n
  {
    hide WrongFor, Compares, After, Call, Comparisons, Burst;
    var trace := TraceOf(cfg, w, Burst(n, email, attempt, e));
    BurstLength(n, email, attempt, e);
    forall k | 0 <= k < |trace| ensures Compares(trace[k], u) <==> k < n {
      BurstCompares(cfg, w, n, k, email, attempt, u, e);
    }
    CountFirst(trace, n, |trace|, u);
    assert trace[..|trace|] == trace;
  }

  lemma BurstLength(n: nat, email: string, attempt: Attempt, e: Entropy)
    ensures |Burst(n, email, attempt, e)| == 2 * n
  {
  }

  lemma RecordedOnce(cfg: Config, users: map<Id, User>, u: Id, at: Time)
    requires u in users
    ensures var after := FailedLogin(cfg, users, u, users[u], at);
            u in after && after[u].failedLoginAttempts == users[u].failedLoginAttempts + 1
  {
  }

  /**
   With overlap there is no bound: any number of sign-ins that all read before any writes are
   all compared, at one and the same time, and the counter rises by one.
   */
  lemma NoBoundByOverlap(cfg: Config, w: World, n: nat, email: string, attempt: Attempt, u: Id, e: Entropy)
    requires n > 0 && w.flights == map[] && WrongFor(cfg, w, email, attempt, u)
    ensures var trace := TraceOf(cfg, w, Burst(n, email, attempt, e));
            && ValidTrace(cfg, trace) && |trace| == 2 * n && WorldAt(trace, 0) == w
            && Comparisons(trace, u) == n
            && u in WorldAt(trace, 2 * n).sys.core.db.users
            && WorldAt(trace, 2 * n).sys.core.db.users[u].failedLoginAttempts == w.sys.core.db.users[u].failedLoginAttempts + 1
  {
    var moves := Burst(n, email, attempt, e);
    hide WrongFor, After, FailedLogin, TraceOf, ValidTrace, Comparisons, FreshAlong, Failures;
    BurstIsFresh(cfg, w, n, email, attempt, u, e);
    TraceOfIsValid(cfg, w, moves);
    BurstCount(cfg, w, n, email, attempt, u, e);
    BurstWorld(cfg, w, n, 2 * n, email, attempt, u, e);
    FoundRow(cfg, w, email, attempt, u);
    RecordedOnce(cfg, w.sys.core.db.users, u, attempt.at);
    assert |moves| == 2 * n && moves[..2 * n] == moves;
  }

  lemma FoundRow(cfg: Config, w: World, email: string, attempt: Attempt, u: Id)
    requires WrongFor(cfg, w, email, attempt, u)
    ensures u in w.sys.core.db.users
  {
  }
}
