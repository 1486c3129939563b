/** Sessions and refresh tokens when requests overlap. */
module OverlappingSessions {
  import opened Wrappers
  import opened Rows
  import opened Cache
  import opened Protocol
  import opened Machine
  import opened Consistency
  import opened Rotation
  import opened Interleaving
  import opened WorldInvariant

  // ---------------------------------------------------------------------------
  // Ended is ended
  // ---------------------------------------------------------------------------

  /**
   However calls interleave: a session that has left ACTIVE never returns to it, no session
   changes owner or expiry, and none goes.
   */
  lemma {:induction false} NoResurrection(cfg: Config, trace: seq<Stage>, i: nat, j: nat, id: Id)
    requires ValidTrace(cfg, trace) && trace != [] && i <= j <= |trace| && WorldFits(trace[0].pre)
    requires id in WorldAt(trace, i).sys.core.db.sessions
    ensures var a, b := WorldAt(trace, i).sys.core.db.sessions, WorldAt(trace, j).sys.core.db.sessions;
            && id in b && b[id].userId == a[id].userId && b[id].expiresAt == a[id].expiresAt
            && (!a[id].status.Active? ==> !b[id].status.Active?)
    decreases j
  {
    hide ValidStage, WorldFits, CodesOnward, ChallengesOnward;
    if i < j {
      NoResurrection(cfg, trace, i, j - 1, id);
      TraceFits(cfg, trace, j - 1);
      StageGood(cfg, trace[j - 1]);
    }
  }

  /** Tokens go on naming the session they were signed for. */
  lemma {:induction false} TokensStay(cfg: Config, trace: seq<Stage>, i: nat, j: nat, token: string)
    requires ValidTrace(cfg, trace) && trace != [] && i <= j <= |trace| && WorldFits(trace[0].pre)
    requires token in WorldAt(trace, i).sys.refreshTokens
    ensures var a, b := WorldAt(trace, i).sys.refreshTokens, WorldAt(trace, j).sys.refreshTokens;
            token in b && b[token] == a[token]
    decreases j
  {
    hide ValidStage, WorldFits, CodesOnward, ChallengesOnward;
    if i < j {
      TokensStay(cfg, trace, i, j - 1, token);
      TraceFits(cfg, trace, j - 1);
      StageGood(cfg, trace[j - 1]);
    }
  }

  /** The call that reads session `id`, for a refresh or for letting a request in. */
  predicate ReadsSession(st: Stage, id: Id) {
    || (&& st.move.ReadForRefresh? && st.move.flight !in st.pre.flights && st.move.refresh in st.pre.sys.refreshTokens
        && st.pre.sys.refreshTokens[st.move.refresh].jti == id)
    || (Flying(st).Some? && Flying(st).value.Admitting? && Flying(st).value.id == id)
  }

  lemma EndedNotBegun(s: Sys, token: string, now: Time)
    requires token in s.refreshTokens && Ended(s, s.refreshTokens[token].jti)
    ensures BeginRefresh(s, token, now).Err?
  {
  }

  lemma EndedReadRefused(cfg: Config, st: Stage, id: Id)
    requires ValidStage(cfg, st) && ReadsSession(st, id) && Ended(st.pre.sys, id)
    ensures st.reply.Said? && st.reply.out.Failed? && st.post.flights.Keys <= st.pre.flights.Keys
  {
    StageParts(cfg, st);
    hide ValidStage, BeginRefresh, Ended, GoSession, GoUsers, GoCodes, GoCache;
    if st.move.ReadForRefresh? {
      EndedNotBegun(st.pre.sys, st.move.refresh, st.move.now);
    } else {
      EndedNotAdmitted(st.pre.sys, Flying(st).value);
    }
  }

  lemma EndedNotAdmitted(s: Sys, flight: Flight)
    requires flight.Admitting? && Ended(s, flight.id)
    ensures Admission(s.core.db, flight.userId, flight.id, flight.administrator, flight.order, flight.at) == Refused(SessionInactive)
  {
  }

  /** So no request that reads the session after it has ended refreshes with it, is let in, or carries out an order. */
  lemma NothingAfterTheEnd(cfg: Config, trace: seq<Stage>, i: nat, j: nat, id: Id)
    requires ValidTrace(cfg, trace) && i <= j < |trace| && WorldFits(trace[0].pre)
    requires Ended(WorldAt(trace, i).sys, id) && ReadsSession(trace[j], id)
    ensures trace[j].reply.Said? && trace[j].reply.out.Failed? && trace[j].post.flights.Keys <= trace[j].pre.flights.Keys
  {
    hide ValidStage, WorldFits, ReadsSession;
    NoResurrection(cfg, trace, i, j, id);
    EndedReadRefused(cfg, trace[j], id);
  }

  // ---------------------------------------------------------------------------
  // Single use of refresh tokens
  // ---------------------------------------------------------------------------

  lemma StaysReplacedOnward(s: Sys, s1: Sys, token: string)
    requires Onward(s, s1) && Replaced(s, token) && token in s.drawn
    ensures Replaced(s1, token)
  {
    hide CodesOnward, ChallengesOnward;
  }

  lemma IssuedIsDrawn(w: World, token: string)
    requires WorldFits(w) && token in w.sys.refreshTokens
    ensures token in w.sys.drawn
  {
    hide RecoveryFits, ChallengesDrawn, FlightFits;
  }

  /** A token whose hash is no longer stored is never stored again, whatever is in flight. */
  lemma {:induction false} ReplacedStaysReplaced(cfg: Config, trace: seq<Stage>, i: nat, j: nat, token: string)
    requires ValidTrace(cfg, trace) && trace != [] && i <= j <= |trace| && WorldFits(trace[0].pre)
    requires Replaced(WorldAt(trace, i).sys, token)
    ensures Replaced(WorldAt(trace, j).sys, token)
    decreases j
  {
    hide ValidStage, WorldFits, Onward;
    if i < j {
      ReplacedStaysReplaced(cfg, trace, i, j - 1, token);
      TraceFits(cfg, trace, j - 1);
      StageGood(cfg, trace[j - 1]);
      IssuedIsDrawn(trace[j - 1].pre, token);
      StaysReplacedOnward(trace[j - 1].pre.sys, trace[j - 1].post.sys, token);
    }
  }

  /** `flight` takes off from a read with `token`, to rotate. */
  predicate ReadToRotate(st: Stage, token: string) {
    st.move.ReadForRefresh? && st.move.refresh == token && TakingOff(st).Some? && TakingOff(st).value.Rotating?
  }

  lemma ReadTakesSession(cfg: Config, st: Stage, token: string)
    requires ValidStage(cfg, st) && st.move.ReadForRefresh? && st.move.refresh == token && TakingOff(st).Some?
    ensures token in st.pre.sys.refreshTokens
    ensures var id := st.pre.sys.refreshTokens[token].jti;
            && (ReadToRotate(st, token) ==> TakingOff(st).value.id == id && !Replaced(st.pre.sys, token))
            && (!ReadToRotate(st, token) ==> TakingOff(st).value.Ending? && TakingOff(st).value.id == id)
  {
    StageParts(cfg, st);
    hide ValidStage;
  }

  /** Reading with a replaced token leads to a revocation or a refusal. */
  lemma ReplacedNeverRotates(cfg: Config, trace: seq<Stage>, i: nat, j: nat, token: string)
    requires ValidTrace(cfg, trace) && i <= j < |trace| && WorldFits(trace[0].pre) && Replaced(WorldAt(trace, i).sys, token)
    ensures !ReadToRotate(trace[j], token)
  {
    hide ValidStage, WorldFits, Replaced;
    ReplacedStaysReplaced(cfg, trace, i, j, token);
    if ReadToRotate(trace[j], token) {
      ReadTakesSession(cfg, trace[j], token);
    }
  }

  /** A rotation replaces every token of its session that was signed before, however long ago it read. */
  lemma RotationReplaces(cfg: Config, st: Stage, token: string)
    requires ValidStage(cfg, st) && WorldFits(st.pre) && Flying(st).Some? && Flying(st).value.Rotating?
    requires token in st.pre.sys.refreshTokens && st.pre.sys.refreshTokens[token].jti == Flying(st).value.id
    ensures Replaced(st.post.sys, token)
  {
    var flight, s, e := Flying(st).value, st.pre.sys, st.move.entropy;
    assert FlightFits(s, flight);
    StageParts(cfg, st);
    assert e.refresh !in s.drawn;
    hide ValidStage, RecoveryFits, ChallengesDrawn, GoUsers, GoCodes, GoCache, GoElse, RotatedFrom, Rotated, Replaced;
    RotatesAsRead(cfg, s, flight.id, flight.session, flight.at, e);
    RotatedReplaces(cfg, s, flight.at, token, e);
    ReplacedIgnoresDrawn(Rotated(cfg, s, flight.at, flight.id, e), st.post.sys.drawn, token);
  }

  /** `f` is not moved on from `i` to `j`, both excluded. */
  ghost predicate Waits(trace: seq<Stage>, f: nat, i: nat, j: nat)
    requires j <= |trace|
  {
    forall n | i < n < j :: !(trace[n].move.Go? && trace[n].move.flight == f)
  }

  lemma OtherFlightsStay(cfg: Config, st: Stage, f: nat)
    requires ValidStage(cfg, st) && f in st.pre.flights && !(st.move.Go? && st.move.flight == f)
    ensures f in st.post.flights && st.post.flights[f] == st.pre.flights[f]
  {
    StageParts(cfg, st);
    hide ValidStage, Departure, Continue, Single;
  }

  /** A flight keeps what it has read until it is moved on. */
  lemma {:induction false} WaitingFlight(cfg: Config, trace: seq<Stage>, i: nat, j: nat)
    requires ValidTrace(cfg, trace) && i < j <= |trace| && TakingOff(trace[i]).Some? && Waits(trace, trace[i].move.flight, i, j)
    ensures trace[i].move.flight in WorldAt(trace, j).flights
    ensures WorldAt(trace, j).flights[trace[i].move.flight] == TakingOff(trace[i]).value
    decreases j
  {
    hide ValidStage;
    if i + 1 < j {
      WaitingFlight(cfg, trace, i, j - 1);
      OtherFlightsStay(cfg, trace[j - 1], trace[i].move.flight);
    }
  }

  /**
   Single use under overlap: of the reads with a token, none that comes after a rotation by
   one of them has been written leads to another rotation. So a token is used twice only by
   requests that both read before either writes, and that does happen (`TwoUsesByOverlap`).
   */
  lemma SecondUseNeedsOverlap(cfg: Config, trace: seq<Stage>, i: nat, j: nat, k: nat, token: string)
    requires ValidTrace(cfg, trace) && i < j < k < |trace| && WorldFits(trace[0].pre)
    requires ReadToRotate(trace[i], token)
    requires trace[j].move.Go? && trace[j].move.flight == trace[i].move.flight && Waits(trace, trace[i].move.flight, i, j)
    ensures trace[j].reply.Said? && trace[j].reply.out.Refreshed?
    ensures !ReadToRotate(trace[k], token)
  {
    hide ValidStage, WorldFits, Replaced;
    ReadTakesSession(cfg, trace[i], token);
    WaitingFlight(cfg, trace, i, j);
    TokensStay(cfg, trace, i, j, token);
    TraceFits(cfg, trace, j);
    RotationReplaces(cfg, trace[j], token);
    RotationAnswers(cfg, trace[j]);
    ReplacedNeverRotates(cfg, trace, j + 1, k, token);
  }

  lemma RotationAnswers(cfg: Config, st: Stage)
    requires ValidStage(cfg, st) && Flying(st).Some? && Flying(st).value.Rotating?
    ensures st.reply.Said? && st.reply.out.Refreshed? && st.reply.out.tokens.refresh == st.move.entropy.refresh
  {
    StageParts(cfg, st);
    hide ValidStage, RotatedFrom, SecondsUp, GoUsers, GoCodes, GoCache, GoElse;
  }

  lemma AcceptableBegins(s: Sys, now: Time, token: string)
    requires Acceptable(s, now, token)
    ensures BeginRefresh(s, token, now).Ok? && BeginRefresh(s, token, now).value.Rotating?
  {
  }

  lemma ReadsOnly(cfg: Config, w: World, f: nat, token: string, now: Time)
    requires f !in w.flights && Acceptable(w.sys, now, token)
    ensures var m := ReadForRefresh(f, token, now);
            && DrawnBy(w, m) == {}
            && Call(cfg, w, m).0 == w.(flights := w.flights[f := BeginRefresh(w.sys, token, now).value])
            && BeginRefresh(w.sys, token, now).value.Rotating?
  {
    AcceptableBegins(w.sys, now, token);
    hide BeginRefresh, Acceptable;
    assert w.sys.(drawn := w.sys.drawn + {}) == w.sys;
  }

  lemma RotationDraws(cfg: Config, w: World, f: nat, e: Entropy)
    requires f in w.flights && w.flights[f].Rotating?
    ensures DrawnBy(w, Go(f, e)) == {e.access, e.refresh}
    ensures Call(cfg, w, Go(f, e)).0.sys.drawn == w.sys.drawn + {e.access, e.refresh}
    ensures Call(cfg, w, Go(f, e)).0.flights == w.flights - {f}
  {
    hide RotatedFrom, SecondsUp, GoUsers, GoCodes, GoCache, GoElse;
  }

  function TwoRefreshes(f: nat, g: nat, token: string, now: Time, e1: Entropy, e2: Entropy): seq<Move> {
    [ReadForRefresh(f, token, now), ReadForRefresh(g, token, now), Go(f, e1), Go(g, e2)]
  }

  /** Two refreshes with one acceptable token, each reading before the other writes: both are answered with tokens. */
  lemma TwoUsesByOverlap(cfg: Config, w: World, f: nat, g: nat, token: string, now: Time, e1: Entropy, e2: Entropy)
    requires f != g && f !in w.flights && g !in w.flights && Acceptable(w.sys, now, token)
    requires {e1.access, e1.refresh} !! w.sys.drawn && {e2.access, e2.refresh} !! w.sys.drawn + {e1.access, e1.refresh}
    ensures var trace := TraceOf(cfg, w, TwoRefreshes(f, g, token, now, e1, e2));
            && ValidTrace(cfg, trace) && WorldAt(trace, 0) == w
            && trace[2].reply.Said? && trace[2].reply.out.Refreshed? && trace[2].reply.out.tokens.refresh == e1.refresh
            && trace[3].reply.Said? && trace[3].reply.out.Refreshed? && trace[3].reply.out.tokens.refresh == e2.refresh
  {
    hide Call, DrawnBy, Acceptable, FreshAlong, After, TraceOf, ValidTrace, BeginRefresh;
    var moves := TwoRefreshes(f, g, token, now, e1, e2);
    AcceptableBegins(w.sys, now, token);
    var flight := BeginRefresh(w.sys, token, now).value;
    var w1 := w.(flights := w.flights[f := flight]);
    var w2 := w1.(flights := w1.flights[g := flight]);
    Unextended(cfg, w);
    ReadsOnly(cfg, w, f, token, now);
    Extended(cfg, w, [], moves[0]);
    ReadsOnly(cfg, w1, g, token, now);
    Extended(cfg, w, [] + [moves[0]], moves[1]);
    RotationDraws(cfg, w2, f, e1);
    Extended(cfg, w, [] + [moves[0]] + [moves[1]], moves[2]);
    RotationDraws(cfg, Call(cfg, w2, Go(f, e1)).0, g, e2);
    Extended(cfg, w, [] + [moves[0]] + [moves[1]] + [moves[2]], moves[3]);
    assert [] + [moves[0]] + [moves[1]] == moves[..2] && [] + [moves[0]] + [moves[1]] + [moves[2]] == moves[..3];
    assert [] + [moves[0]] + [moves[1]] + [moves[2]] + [moves[3]] == moves;
    TraceOfIsValid(cfg, w, moves);
    RotationStage(cfg, w, moves, 2);
    RotationStage(cfg, w, moves, 3);
  }

  lemma RotationStage(cfg: Config, w: World, moves: seq<Move>, i: nat)
    requires i < |moves| && FreshAlong(cfg, w, moves) && moves[i].Go?
    requires moves[i].flight in After(cfg, w, moves[..i]).flights && After(cfg, w, moves[..i]).flights[moves[i].flight].Rotating?
    ensures var reply := TraceOf(cfg, w, moves)[i].reply;
            reply.Said? && reply.out.Refreshed? && reply.out.tokens.refresh == moves[i].entropy.refresh
  {
    hide Call, FreshAlong, After, ValidStage;
    StageOf(cfg, w, moves, i);
    StageIsValid(cfg, w, moves, i);
    RotationAnswers(cfg, TraceOf(cfg, w, moves)[i]);
  }

  // ---------------------------------------------------------------------------
  // Locking
  // ---------------------------------------------------------------------------

  lemma EndKeys(sessions: map<Id, Session>, id: Id, ending: SessionStatus)
    ensures EndSession(sessions, id, ending).Keys == sessions.Keys
  {
  }

  lemma LogoutKeys(s: Sys, now: Time, refresh: Option<string>, access: Option<string>)
    ensures Logout(s, now, refresh, access).0.core.db.sessions.Keys == s.core.db.sessions.Keys
  {
    hide LogoutTarget, EndSession;
    var target := LogoutTarget(s, now, refresh, access);
    if target.Some? {
      EndKeys(s.core.db.sessions, target.value, Revoked);
    }
  }

  lemma SingleKeys(s: Sys, m: Move)
    ensures Single(s, m).0.core.db.sessions.Keys == s.core.db.sessions.Keys
  {
    hide Logout, DeleteRecoveryCodes;
    if m.SignOutNow? {
      LogoutKeys(s, m.now, m.refreshCookie, m.accessCookie);
    }
  }

  lemma GoSessionKeys(cfg: Config, s: Sys, flight: Flight, e: Entropy)
    requires WritesSessions(flight)
    ensures var b := GoSession(cfg, s, flight, e).0.core.db.sessions;
            if flight.Creating? then b.Keys == s.core.db.sessions.Keys + {e.uuid} && b[e.uuid].userId == flight.userId
            else b.Keys == s.core.db.sessions.Keys
  {
    hide SecondsUp, SessionTtl;
  }

  lemma ContinueKeys(cfg: Config, s: Sys, flight: Flight, e: Entropy)
    ensures var b := Continue(cfg, s, flight, e).0.core.db.sessions;
            if flight.Creating? then b.Keys == s.core.db.sessions.Keys + {e.uuid} && b[e.uuid].userId == flight.userId
            else b.Keys == s.core.db.sessions.Keys
  {
    hide GoSession, GoUsers, GoCodes, GoCache, GoElse;
    if WritesSessions(flight) {
      GoSessionKeys(cfg, s, flight, e);
    } else if !WritesUsers(flight) && !WritesCodes(flight) && !WritesCache(flight) {
      GoElseFrame(cfg, s.core, flight, e);
    }
  }

  /** Only creating a session for `u` gives `u` a session it did not have. */
  lemma NewSessionIsCreated(cfg: Config, st: Stage, id: Id)
    requires ValidStage(cfg, st)
    requires id in st.post.sys.core.db.sessions && id !in st.pre.sys.core.db.sessions
    ensures Flying(st).Some? && Flying(st).value.Creating? && Flying(st).value.userId == st.post.sys.core.db.sessions[id].userId
  {
    StageParts(cfg, st);
    hide ValidStage, Continue, Departure, Single;
    if Flying(st).Some? {
      ContinueKeys(cfg, st.pre.sys, Flying(st).value, st.move.entropy);
    } else if Begins(st.move) {
      DepartureFrame(cfg, st.pre.sys, st.move);
    } else if !st.move.Go? {
      SingleKeys(st.pre.sys, st.move);
    }
  }

  lemma DepartureFrame(cfg: Config, s: Sys, m: Move)
    requires Begins(m)
    ensures Departure(cfg, s, m).0.core.db == s.core.db
  {
    hide BeginRefresh, BeginSignIn, BeginAdmission, BeginConfirm, GetItem;
  }

  /** The revocation of a locking or disabling ends every session the account has at that moment. */
  lemma RevokeAllEndsEverySession(cfg: Config, st: Stage, u: Id)
    requires ValidStage(cfg, st) && Flying(st) == Some(RevokingAll(u))
    ensures AllEnded(st.post.sys, u)
  {
    StageParts(cfg, st);
    hide ValidStage, GoUsers, GoCodes, GoCache, GoElse;
  }

  lemma StaysAllEnded(cfg: Config, st: Stage, u: Id)
    requires ValidStage(cfg, st) && WorldFits(st.pre) && AllEnded(st.pre.sys, u)
    requires !(Flying(st).Some? && Flying(st).value.Creating? && Flying(st).value.userId == u)
    ensures AllEnded(st.post.sys, u)
  {
    StageGood(cfg, st);
    hide ValidStage, WorldFits, CodesOnward, ChallengesOnward, Flying;
    forall id | id in st.post.sys.core.db.sessions && st.post.sys.core.db.sessions[id].userId == u
      ensures !st.post.sys.core.db.sessions[id].status.Active?
    {
      if id !in st.pre.sys.core.db.sessions {
        NewSessionIsCreated(cfg, st, id);
      }
    }
  }

  /** From then on the account has an active session only after a login under way has created one. */
  lemma {:induction false} LockedUntilCreated(cfg: Config, trace: seq<Stage>, i: nat, j: nat, u: Id)
    requires ValidTrace(cfg, trace) && i < j <= |trace| && WorldFits(trace[0].pre) && Flying(trace[i]) == Some(RevokingAll(u))
    requires forall n | i < n < j :: !(Flying(trace[n]).Some? && Flying(trace[n]).value.Creating? && Flying(trace[n]).value.userId == u)
    ensures AllEnded(WorldAt(trace, j).sys, u)
    decreases j
  {
    hide ValidStage, WorldFits, AllEnded, Flying;
    if i + 1 == j {
      RevokeAllEndsEverySession(cfg, trace[i], u);
    } else {
      LockedUntilCreated(cfg, trace, i, j - 1, u);
      TraceFits(cfg, trace, j - 1);
      StaysAllEnded(cfg, trace[j - 1], u);
    }
  }

  lemma CreatingCall(cfg: Config, w: World, f: nat, e: Entropy)
    requires f in w.flights && w.flights[f].Creating?
    ensures DrawnBy(w, Go(f, e)) == {e.uuid, e.access, e.refresh}
    ensures !AllEnded(Call(cfg, w, Go(f, e)).0.sys, w.flights[f].userId)
  {
    hide GoUsers, GoCodes, GoCache, GoElse, SessionTtl;
    var sessions := Call(cfg, w, Go(f, e)).0.sys.core.db.sessions;
    assert e.uuid in sessions && sessions[e.uuid].userId == w.flights[f].userId && sessions[e.uuid].status.Active?;
  }

  // ---------------------------------------------------------------------------
  // No drift of the expiry
  // ---------------------------------------------------------------------------

  /** A refresh goes on to rotate only if its session had not expired. */
  predicate InTime(flight: Flight) {
    flight.Rotating? ==> flight.at <= flight.session.expiresAt
  }

  ghost predicate NearFits(w: World) {
    AllNearExpiry(w.sys) && forall f | f in w.flights :: InTime(w.flights[f])
  }

  lemma GoSessionNear(cfg: Config, s: Sys, flight: Flight, e: Entropy)
    requires SessionsFit(s) && FlightFits(s, flight) && InTime(flight) && AllNearExpiry(s) && WritesSessions(flight)
    requires DrawnFor(flight, e) !! s.drawn
    ensures AllNearExpiry(GoSession(cfg, s, flight, e).0)
  {
    hide SessionsFit, Evolves, AllNearExpiry, RotatedFrom, Rotated, EndSession, RevokeAllForUser, IssueTokens, SecondsUp;
    var s1 := GoSession(cfg, s, flight, e).0;
    match flight
    case Rotating(id, session, now) =>
      RotatesAsRead(cfg, s, id, session, now, e);
      RotatedEvolves(cfg, s, now, id, e);
      StaysNear(s, s1, Some(e.refresh));
    case Ending(id, ending, _) =>
      EndedEvolves(s, id, ending);
      StaysNear(s, s1, None);
    case RevokingAll(u) =>
      RevokedEvolves(s, u, s1);
      StaysNear(s, s1, None);
    case Creating(u, rememberMe, _, _, now) =>
      IssueEvolves(cfg, s, now, u, rememberMe, e);
      StaysNear(s, s1, Some(e.refresh));
  }

  lemma SameSessionsNear(s: Sys, s1: Sys)
    requires AllNearExpiry(s) && SameSessions(s, s1)
    ensures AllNearExpiry(s1)
  {
    hide Evolves, AllNearExpiry, SameSessions;
    NothingEvolves(s, s1);
    StaysNear(s, s1, None);
  }

  lemma ContinueNear(cfg: Config, s: Sys, flight: Flight, e: Entropy)
    requires SessionsFit(s) && FlightFits(s, flight) && InTime(flight) && AllNearExpiry(s) && DrawnFor(flight, e) !! s.drawn
    ensures AllNearExpiry(Continue(cfg, s, flight, e).0)
  {
    hide SessionsFit, FlightFits, AllNearExpiry, DrawnFor, GoSession, GoUsers, GoCodes, GoCache, GoElse, InTime;
    if WritesSessions(flight) {
      GoSessionNear(cfg, s, flight, e);
    } else {
      if !WritesUsers(flight) && !WritesCodes(flight) && !WritesCache(flight) {
        GoElseFrame(cfg, s.core, flight, e);
      }
      SameSessionsNear(s, Continue(cfg, s, flight, e).0);
    }
  }

  /** No flight becomes a rotation. */
  lemma RotationsInTime(cfg: Config, s: Sys, flight: Flight, e: Entropy)
    ensures var next := Continue(cfg, s, flight, e).1; next.On? ==> InTime(next.flight)
  {
    hide GoSession, PasswordMatches, MarkLoginSuccess, Unlock, FailedLogin, Changed, MarkEmailVerified, SetItem, GetItem, ChallengeKey,
      CeremonyKey, ConsumeRecoveryCode, DeleteRecoveryCodes, CreateRecoveryCodes, Insertable, DeviceTrusted, AvailableMethods, UpdateCounter,
      MarkUsed, Objection, SessionActive, RecoveryHashes, HexDraw, RecoveryCodes, CredentialsOf, Normalize;
    if WritesSessions(flight) {
      GoSessionFrame(cfg, s, flight, e);
    }
  }

  lemma DepartureNear(cfg: Config, s: Sys, m: Move)
    requires Begins(m)
    ensures SameSessions(s, Departure(cfg, s, m).0)
  {
    hide BeginRefresh, BeginSignIn, BeginAdmission, BeginConfirm, GetItem;
  }

  lemma SingleNear(s: Sys, m: Move)
    requires AllNearExpiry(s)
    ensures AllNearExpiry(Single(s, m).0)
  {
    hide AllNearExpiry, Logout, Evolves, DeleteRecoveryCodes;
    if m.SignOutNow? {
      LogoutEvolves(s, m.now, m.refreshCookie, m.accessCookie);
      StaysNear(s, Logout(s, m.now, m.refreshCookie, m.accessCookie).0, None);
    } else {
      SameSessionsNear(s, Single(s, m).0);
    }
  }

  lemma NearIgnoresDrawn(s: Sys, drawn: set<string>)
    requires AllNearExpiry(s)
    ensures AllNearExpiry(s.(drawn := drawn))
  {
  }

  lemma FlyingFits(w: World, f: nat)
    requires WorldFits(w) && f in w.flights
    ensures SessionsFit(w.sys) && FlightFits(w.sys, w.flights[f])
  {
    hide SessionsFit, RecoveryFits, ChallengesDrawn, FlightFits;
  }

  lemma StageNear(cfg: Config, st: Stage)
    requires ValidStage(cfg, st) && WorldFits(st.pre) && NearFits(st.pre)
    ensures NearFits(st.post)
  {
    assert DrawnBy(st.pre, st.move) !! st.pre.sys.drawn;
    hide ValidStage, WorldFits, AllNearExpiry, Continue, Departure, Single, InTime, DrawnFor;
    StageParts(cfg, st);
    var s, drawn := st.pre.sys, st.post.sys.drawn;
    if Flying(st).Some? {
      var flight := Flying(st).value;
      FlyingFits(st.pre, st.move.flight);
      ContinueNear(cfg, s, flight, st.move.entropy);
      NearIgnoresDrawn(Continue(cfg, s, flight, st.move.entropy).0, drawn);
      RotationsInTime(cfg, s, flight, st.move.entropy);
    } else if Begins(st.move) && st.move.flight !in st.pre.flights {
      DepartureNear(cfg, s, st.move);
      SameSessionsNear(s, Departure(cfg, s, st.move).0);
      NearIgnoresDrawn(Departure(cfg, s, st.move).0, drawn);
      DepartsInTime(cfg, s, st.move);
    } else {
      SingleNear(s, st.move);
      NearIgnoresDrawn(s, drawn);
      NearIgnoresDrawn(Single(s, st.move).0, drawn);
    }
  }

  lemma DepartsInTime(cfg: Config, s: Sys, m: Move)
    requires Begins(m)
    ensures var r := Departure(cfg, s, m).1; r.Ok? ==> InTime(r.value)
  {
    hide ChallengeUser, PasswordMatches, SecondsUp, LockedOut;
  }

  /**
   However refreshes overlap, every refresh token of a session asks to expire within the second
   after the expiry the session was created with.
   */
  lemma {:induction false} NoExpiryDriftByOverlap(cfg: Config, trace: seq<Stage>, n: nat)
    requires ValidTrace(cfg, trace) && trace != [] && n <= |trace| && WorldFits(trace[0].pre) && NearFits(trace[0].pre)
    ensures NearFits(WorldAt(trace, n))
  {
    hide ValidStage, WorldFits, NearFits;
    if n > 0 {
      NoExpiryDriftByOverlap(cfg, trace, n - 1);
      TraceFits(cfg, trace, n - 1);
      StageNear(cfg, trace[n - 1]);
    }
  }
}
