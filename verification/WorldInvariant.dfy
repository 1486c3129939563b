/** What holds between any two repository calls, whatever requests are in flight. */
module WorldInvariant {
  import opened Wrappers
  import opened Rows
  import opened Cache
  import opened Protocol
  import opened Machine
  import opened Consistency
  import opened Rotation
  import opened Interleaving

  /** What a request has read may be stale, except for what never changes. */
  predicate FlightFits(s: Sys, flight: Flight) {
    match flight
    case Rotating(id, session, _) =>
      && id in s.core.db.sessions
      && s.core.db.sessions[id].userId == session.userId && s.core.db.sessions[id].expiresAt == session.expiresAt
    case Ending(_, ending, _) => !ending.Active?
    case Unlocking(u, _, _) => u in s.core.db.users
    case Failing(u, _, _) => u in s.core.db.users
    case Succeeding(u, _, _) => u in s.core.db.users
    case Gating(u, _) => u in s.core.db.users
    case Creating(u, _, _, _, _) => u in s.core.db.users
    case _ => true
  }

  ghost predicate RecoveryFits(s: Sys) {
    forall h | h in s.core.db.recovery :: h.text in s.drawn
  }

  ghost predicate ChallengesDrawn(s: Sys) {
    forall id | ChallengeKey(id) in s.core.cache :: id in s.drawn
  }

  ghost predicate TablesFit(s: Sys) {
    SessionsFit(s) && RecoveryFits(s) && ChallengesDrawn(s)
  }

  ghost predicate WorldFits(w: World) {
    TablesFit(w.sys) && forall f | f in w.flights :: FlightFits(w.sys, w.flights[f])
  }

  /** Any state that requests one at a time lead to is one that overlapping calls can start from. */
  lemma SequentialStateFits(s: Sys)
    requires Fits(s)
    ensures WorldFits(World(s, map[]))
  {
    hide UsersFit, SessionsFit, ChallengeKey, CeremonyKey;
  }

  // ---------------------------------------------------------------------------
  // Onward
  // ---------------------------------------------------------------------------

  predicate Claimable(recovery: map<Hash, RecoveryCode>, hash: Hash) {
    hash in recovery && recovery[hash].usedAt.None?
  }

  /** Sessions and tokens stay, owners and expiries never change, an ended session stays ended, a new hash is newly drawn. */
  ghost predicate SessionsOnward(s: Sys, s1: Sys) {
    && (forall id | id in s.core.db.sessions ::
          && id in s1.core.db.sessions
          && var a, b := s.core.db.sessions[id], s1.core.db.sessions[id];
             && b.userId == a.userId && b.expiresAt == a.expiresAt
             && (b.status.Active? ==> a.status.Active?)
             && (b.refreshTokenHash == a.refreshTokenHash || b.refreshTokenHash.text !in s.drawn))
    && (forall t | t in s.refreshTokens :: t in s1.refreshTokens && s1.refreshTokens[t] == s.refreshTokens[t])
    && (forall t | t in s.accessTokens :: t in s1.accessTokens && s1.accessTokens[t] == s.accessTokens[t])
  }

  /** A code that was drawn and is not there unused does not come back. */
  ghost predicate CodesOnward(s: Sys, s1: Sys) {
    forall h | Claimable(s1.core.db.recovery, h) && h.text in s.drawn :: Claimable(s.core.db.recovery, h)
  }

  /** Nor does a challenge that was drawn and is not pending. */
  ghost predicate ChallengesOnward(s: Sys, s1: Sys) {
    forall id | ChallengeKey(id) in s1.core.cache && id in s.drawn :: ChallengeKey(id) in s.core.cache
  }

  ghost predicate Onward(s: Sys, s1: Sys) {
    && s.core.db.users.Keys <= s1.core.db.users.Keys && s.drawn <= s1.drawn
    && SessionsOnward(s, s1) && CodesOnward(s, s1) && ChallengesOnward(s, s1)
  }

  lemma OnwardKeepsFlight(s: Sys, s1: Sys, flight: Flight)
    requires Onward(s, s1) && FlightFits(s, flight)
    ensures FlightFits(s1, flight)
  {
    hide CodesOnward, ChallengesOnward;
  }

  /** The state once the values drawn are recorded: it fits and is onward. */
  ghost predicate Good(s: Sys, s1: Sys, drawn: set<string>) {
    Onward(s, s1.(drawn := drawn)) && TablesFit(s1.(drawn := drawn))
  }

  // Table by table: what is not touched is kept

  lemma SessionsUntouched(s: Sys, s1: Sys, drawn: set<string>)
    requires SessionsFit(s) && SameSessions(s, s1) && s.core.db.users.Keys <= s1.core.db.users.Keys && s.drawn <= drawn
    ensures SessionsOnward(s, s1.(drawn := drawn)) && SessionsFit(s1.(drawn := drawn))
  {
    SessionsKept(s, s1.core, drawn);
    assert s.(core := s1.core, drawn := drawn) == s1.(drawn := drawn);
    hide SessionsFit;
  }

  lemma CodesUntouched(s: Sys, s1: Sys, drawn: set<string>)
    requires RecoveryFits(s) && s1.core.db.recovery == s.core.db.recovery && s.drawn <= drawn
    ensures CodesOnward(s, s1.(drawn := drawn)) && RecoveryFits(s1.(drawn := drawn))
  {
  }

  lemma ChallengesUntouched(s: Sys, s1: Sys, drawn: set<string>)
    requires ChallengesDrawn(s) && s.drawn <= drawn
    requires forall id | ChallengeKey(id) in s1.core.cache :: ChallengeKey(id) in s.core.cache
    ensures ChallengesOnward(s, s1.(drawn := drawn)) && ChallengesDrawn(s1.(drawn := drawn))
  {
    hide ChallengeKey;
  }

  // ---------------------------------------------------------------------------
  // Flights that write sessions
  // ---------------------------------------------------------------------------

  ghost predicate SessionsGood(s: Sys, s1: Sys, drawn: set<string>) {
    SessionsOnward(s, s1.(drawn := drawn)) && SessionsFit(s1.(drawn := drawn))
  }

  /** Owner and expiry are all a rotation takes from what it read, and they never change. */
  lemma RotatesAsRead(cfg: Config, s: Sys, id: Id, session: Session, now: Time, e: Entropy)
    requires FlightFits(s, Rotating(id, session, now))
    ensures RotatedFrom(cfg, s, id, session, now, e) == Rotated(cfg, s, now, id, e)
  {
    hide SecondsUp;
  }

  lemma HashWrittenOnward(s: Sys, s1: Sys, id: Id, token: string)
    requires id in s.core.db.sessions && token !in s.drawn
    requires s1.core.db.sessions == s.core.db.sessions[id := s.core.db.sessions[id].(refreshTokenHash := Sha256(token))]
    requires forall t | t in s.refreshTokens :: t in s1.refreshTokens && s1.refreshTokens[t] == s.refreshTokens[t]
    requires forall t | t in s.accessTokens :: t in s1.accessTokens && s1.accessTokens[t] == s.accessTokens[t]
    ensures SessionsOnward(s, s1)
  {
  }

  lemma RotateGood(cfg: Config, s: Sys, id: Id, session: Session, now: Time, e: Entropy, drawn: set<string>)
    requires SessionsFit(s) && FlightFits(s, Rotating(id, session, now))
    requires {e.access, e.refresh} !! s.drawn && s.drawn + {e.access, e.refresh} <= drawn
    ensures SessionsGood(s, RotatedFrom(cfg, s, id, session, now, e), drawn)
  {
    NotYetUsed(s, e.refresh);
    NotYetUsed(s, e.access);
    RotatesAsRead(cfg, s, id, session, now, e);
    hide SessionsFit, RotatedFrom, SecondsUp, SessionsOnward, FlightFits;
    RotatedSessionsFit(cfg, s, now, id, e, drawn);
    HashWrittenOnward(s, Rotated(cfg, s, now, id, e).(drawn := drawn), id, e.refresh);
  }

  lemma EvolvesOnward(s: Sys, s1: Sys, token: string, drawn: set<string>)
    requires Evolves(s, s1, Some(token)) && token !in s.drawn
    ensures SessionsOnward(s, s1.(drawn := drawn))
  {
    hide NewSessions, NearExpiry;
  }

  lemma CreateGood(cfg: Config, s: Sys, u: Id, rememberMe: bool, now: Time, e: Entropy, drawn: set<string>)
    requires SessionsFit(s) && u in s.core.db.users
    requires {e.uuid, e.access, e.refresh} !! s.drawn && s.drawn + {e.uuid, e.access, e.refresh} <= drawn
    ensures SessionsGood(s, IssueTokens(cfg, s, now, u, rememberMe, e).0, drawn)
  {
    hide SessionsFit, Evolves, SessionsOnward;
    IssueTokensFits(cfg, s, now, u, rememberMe, e, drawn);
    IssueEvolves(cfg, s, now, u, rememberMe, e);
    hide IssueTokens;
    EvolvesOnward(s, IssueTokens(cfg, s, now, u, rememberMe, e).0, e.refresh, drawn);
  }

  /** Sessions that differ, if at all, in having ended. */
  ghost predicate OnlyEnded(a: map<Id, Session>, b: map<Id, Session>) {
    && a.Keys == b.Keys
    && forall id | id in a :: b[id] == a[id] || (!b[id].status.Active? && b[id] == a[id].(status := b[id].status))
  }

  lemma OnlyEndedGood(s: Sys, sessions: map<Id, Session>, drawn: set<string>)
    requires s.drawn <= drawn && OnlyEnded(s.core.db.sessions, sessions) && SessionsFit(WithSessions(s, sessions))
    ensures SessionsGood(s, WithSessions(s, sessions), drawn)
  {
    SessionsKept(WithSessions(s, sessions), WithSessions(s, sessions).core, drawn);
    hide SessionsFit;
  }

  lemma EndGood(s: Sys, id: Id, ending: SessionStatus, drawn: set<string>)
    requires SessionsFit(s) && !ending.Active? && s.drawn <= drawn
    ensures SessionsGood(s, WithSessions(s, EndSession(s.core.db.sessions, id, ending)), drawn)
  {
    hide SessionsFit, SessionsGood;
    EndedSessionsFit(s, id, ending);
    OnlyEndedGood(s, EndSession(s.core.db.sessions, id, ending), drawn);
  }

  lemma RevokeAllGood(s: Sys, u: Id, drawn: set<string>)
    requires SessionsFit(s) && s.drawn <= drawn
    ensures SessionsGood(s, WithSessions(s, RevokeAllForUser(s.core.db.sessions, u)), drawn)
  {
    hide SessionsFit, SessionsGood;
    RevokedSessionsFit(s, u);
    OnlyEndedGood(s, RevokeAllForUser(s.core.db.sessions, u), drawn);
  }

  lemma GoSessionSessions(cfg: Config, s: Sys, flight: Flight, e: Entropy, drawn: set<string>)
    requires SessionsFit(s) && FlightFits(s, flight) && WritesSessions(flight)
    requires DrawnFor(flight, e) !! s.drawn && s.drawn + DrawnFor(flight, e) <= drawn
    ensures SessionsGood(s, GoSession(cfg, s, flight, e).0, drawn)
  {
    hide SessionsFit, SessionsGood, RotatedFrom, EndSession, RevokeAllForUser, IssueTokens, SecondsUp;
    match flight
    case Rotating(id, session, now) => RotateGood(cfg, s, id, session, now, e, drawn);
    case Ending(id, ending, _) => EndGood(s, id, ending, drawn);
    case RevokingAll(u) => RevokeAllGood(s, u, drawn);
    case Creating(u, rememberMe, _, _, now) => CreateGood(cfg, s, u, rememberMe, now, e, drawn);
  }

  lemma GoSessionFrame(cfg: Config, s: Sys, flight: Flight, e: Entropy)
    requires WritesSessions(flight)
    ensures var s1 := GoSession(cfg, s, flight, e).0;
            && s1.core == s.core.(db := s.core.db.(sessions := s1.core.db.sessions)) && s1.drawn == s.drawn
    ensures GoSession(cfg, s, flight, e).1.Landed?
  {
    hide RotateToken, EndSession, RevokeAllForUser, SecondsUp, SessionTtl;
  }

  lemma GoSessionGood(cfg: Config, s: Sys, flight: Flight, e: Entropy, drawn: set<string>)
    requires TablesFit(s) && FlightFits(s, flight) && WritesSessions(flight)
    requires DrawnFor(flight, e) !! s.drawn && s.drawn + DrawnFor(flight, e) <= drawn
    ensures Good(s, GoSession(cfg, s, flight, e).0, drawn)
  {
    hide SessionsFit, RecoveryFits, ChallengesDrawn, SessionsOnward, CodesOnward, ChallengesOnward, GoSession, FlightFits, DrawnFor;
    GoSessionSessions(cfg, s, flight, e, drawn);
    GoSessionFrame(cfg, s, flight, e);
    CodesUntouched(s, GoSession(cfg, s, flight, e).0, drawn);
    ChallengesUntouched(s, GoSession(cfg, s, flight, e).0, drawn);
  }

  // ---------------------------------------------------------------------------
  // Flights that write users
  // ---------------------------------------------------------------------------

  lemma UnlockKeys(users: map<Id, User>, u: Id)
    ensures Unlock(users, u).Keys == users.Keys && MarkLoginSuccess(users, u).Keys == users.Keys
    ensures MarkEmailVerified(users, u).Keys == users.Keys
  {
  }

  lemma FailedKeys(cfg: Config, users: map<Id, User>, u: Id, row: User, now: Time)
    ensures FailedLogin(cfg, users, u, row, now).Keys == users.Keys
  {
  }

  lemma ChangedKeys(users: map<Id, User>, command: Command)
    ensures Changed(users, command).Keys == users.Keys
  {
  }

  lemma GoUsersKeys(cfg: Config, users: map<Id, User>, flight: Flight)
    requires WritesUsers(flight)
    ensures GoUsers(cfg, users, flight).0.Keys == users.Keys
  {
    hide Unlock, MarkLoginSuccess, MarkEmailVerified, FailedLogin, Changed, Compare;
    match flight
    case Unlocking(u, _, _) => UnlockKeys(users, u);
    case Failing(u, row, now) => FailedKeys(cfg, users, u, row, now);
    case Succeeding(u, _, _) => UnlockKeys(users, u);
    case Changing(_, command) => ChangedKeys(users, command);
    case Activating(u) => UnlockKeys(users, u);
  }

  lemma GoUsersFlight(cfg: Config, s: Sys, users: map<Id, User>, flight: Flight)
    requires WritesUsers(flight) && FlightFits(s, flight) && users.Keys == s.core.db.users.Keys
    ensures var next := GoUsers(cfg, s.core.db.users, flight).1; next.On? ==> FlightFits(WithUsers(s, users), next.flight)
  {
    hide Unlock, MarkLoginSuccess, MarkEmailVerified, FailedLogin, Changed, PasswordMatches;
  }

  lemma UsersGood(s: Sys, users: map<Id, User>, drawn: set<string>)
    requires TablesFit(s) && users.Keys == s.core.db.users.Keys && s.drawn <= drawn
    ensures Good(s, WithUsers(s, users), drawn)
  {
    hide SessionsFit, RecoveryFits, ChallengesDrawn, SessionsOnward, CodesOnward, ChallengesOnward;
    SessionsUntouched(s, WithUsers(s, users), drawn);
    CodesUntouched(s, WithUsers(s, users), drawn);
    ChallengesUntouched(s, WithUsers(s, users), drawn);
  }

  lemma GoUsersGood(cfg: Config, s: Sys, flight: Flight, drawn: set<string>)
    requires TablesFit(s) && FlightFits(s, flight) && WritesUsers(flight) && s.drawn <= drawn
    ensures var (users, next) := GoUsers(cfg, s.core.db.users, flight);
            Good(s, WithUsers(s, users), drawn) && (next.On? ==> FlightFits(WithUsers(s, users), next.flight))
  {
    hide TablesFit, Good, GoUsers, FlightFits;
    GoUsersKeys(cfg, s.core.db.users, flight);
    GoUsersFlight(cfg, s, GoUsers(cfg, s.core.db.users, flight).0, flight);
    UsersGood(s, GoUsers(cfg, s.core.db.users, flight).0, drawn);
  }

  // ---------------------------------------------------------------------------
  // Flights that write recovery codes
  // ---------------------------------------------------------------------------

  lemma RecoveryGood(s: Sys, recovery: map<Hash, RecoveryCode>, drawn: set<string>)
    requires TablesFit(s) && s.drawn <= drawn
    requires forall h | h in recovery :: h.text in drawn
    requires forall h | Claimable(recovery, h) && h.text in s.drawn :: Claimable(s.core.db.recovery, h)
    ensures Good(s, WithRecovery(s, recovery), drawn)
  {
    hide SessionsFit, ChallengesDrawn, SessionsOnward, ChallengesOnward;
    SessionsUntouched(s, WithRecovery(s, recovery), drawn);
    ChallengesUntouched(s, WithRecovery(s, recovery), drawn);
  }

  lemma ClaimGood(s: Sys, u: Id, hash: Hash, now: Time, drawn: set<string>)
    requires TablesFit(s) && s.drawn <= drawn
    ensures Good(s, WithRecovery(s, ConsumeRecoveryCode(s.core.db.recovery, u, hash, now).0), drawn)
  {
    hide SessionsFit, ChallengesDrawn, Good;
    RecoveryGood(s, ConsumeRecoveryCode(s.core.db.recovery, u, hash, now).0, drawn);
  }

  lemma DeleteGood(s: Sys, u: Id, drawn: set<string>)
    requires TablesFit(s) && s.drawn <= drawn
    ensures Good(s, WithRecovery(s, DeleteRecoveryCodes(s.core.db.recovery, u)), drawn)
  {
    hide SessionsFit, ChallengesDrawn, Good;
    RecoveryGood(s, DeleteRecoveryCodes(s.core.db.recovery, u), drawn);
  }

  lemma InsertGood(s: Sys, u: Id, hashes: seq<Hash>, drawn: set<string>)
    requires TablesFit(s) && s.drawn <= drawn
    requires forall i | 0 <= i < |hashes| :: hashes[i].text !in s.drawn
    requires forall i | 0 <= i < |hashes| :: hashes[i].text in drawn
    ensures Good(s, WithRecovery(s, CreateRecoveryCodes(s.core.db.recovery, u, hashes)), drawn)
  {
    hide SessionsFit, ChallengesDrawn, Good;
    RecoveryGood(s, CreateRecoveryCodes(s.core.db.recovery, u, hashes), drawn);
  }

  lemma BatchDrawn(u: Id, e: Entropy, drawn: set<string>)
    requires HexDraw(e.hex) && DrawnFor(Inserting(u), e) <= drawn
    ensures forall i | 0 <= i < |RecoveryHashes(e.hex)| :: RecoveryHashes(e.hex)[i].text in DrawnFor(Inserting(u), e)
  {
    hide HexDraw, RecoveryHashes;
    forall i | 0 <= i < |RecoveryHashes(e.hex)| ensures RecoveryHashes(e.hex)[i].text in DrawnFor(Inserting(u), e) {
      assert RecoveryHashes(e.hex)[i] in RecoveryHashes(e.hex);
    }
  }

  lemma GoCodesGood(cfg: Config, s: Sys, flight: Flight, e: Entropy, drawn: set<string>)
    requires TablesFit(s) && WritesCodes(flight)
    requires DrawnFor(flight, e) !! s.drawn && s.drawn + DrawnFor(flight, e) <= drawn
    ensures var (recovery, next) := GoCodes(s.core.db.recovery, flight, e);
            Good(s, WithRecovery(s, recovery), drawn) && (next.On? ==> FlightFits(WithRecovery(s, recovery), next.flight))
  {
    hide TablesFit, Good, RecoveryHashes, HexDraw, DeleteRecoveryCodes, CreateRecoveryCodes, ConsumeRecoveryCode, Normalize, DrawnFor,
      Insertable, RecoveryCodes;
    match flight
    case Deleting(u) => DeleteGood(s, u, drawn);
    case Inserting(u) =>
      if HexDraw(e.hex) {
        BatchDrawn(u, e, drawn);
        InsertGood(s, u, RecoveryHashes(e.hex), drawn);
      } else {
        UsersGood(s, s.core.db.users, drawn);
        assert WithUsers(s, s.core.db.users) == s == WithRecovery(s, s.core.db.recovery);
      }
    case Answering(_, u, answer, now) => ClaimGood(s, u, Sha256(Normalize(answer.code)), now, drawn);
  }

  // ---------------------------------------------------------------------------
  // Flights that write the cache, and the rest
  // ---------------------------------------------------------------------------

  lemma CacheGood(s: Sys, cache: Store<Pending>, drawn: set<string>)
    requires TablesFit(s) && s.drawn <= drawn
    requires forall id | ChallengeKey(id) in cache :: id in drawn
    requires forall id | ChallengeKey(id) in cache && id in s.drawn :: ChallengeKey(id) in s.core.cache
    ensures Good(s, WithCache(s, cache), drawn)
  {
    hide SessionsFit, RecoveryFits, SessionsOnward, CodesOnward, ChallengeKey;
    SessionsUntouched(s, WithCache(s, cache), drawn);
    CodesUntouched(s, WithCache(s, cache), drawn);
  }

  lemma OpenedGood(s: Sys, id: string, state: Pending, ttl: int, now: Time, drawn: set<string>)
    requires TablesFit(s) && id !in s.drawn && s.drawn + {id} <= drawn
    ensures Good(s, WithCache(s, SetItem(s.core.cache, ChallengeKey(id), state, ttl, now)), drawn)
  {
    KeysDistinct();
    hide SessionsFit, RecoveryFits, Good, ChallengeKey, CeremonyKey;
    CacheGood(s, SetItem(s.core.cache, ChallengeKey(id), state, ttl, now), drawn);
  }

  lemma CeremonyGood(s: Sys, id: string, state: Pending, ttl: int, now: Time, drawn: set<string>)
    requires TablesFit(s) && s.drawn <= drawn
    ensures Good(s, WithCache(s, SetItem(s.core.cache, CeremonyKey(id), state, ttl, now)), drawn)
  {
    KeysDistinct();
    hide SessionsFit, RecoveryFits, Good, ChallengeKey, CeremonyKey;
    CacheGood(s, SetItem(s.core.cache, CeremonyKey(id), state, ttl, now), drawn);
  }

  lemma DroppedGood(s: Sys, key: string, now: Time, drawn: set<string>)
    requires TablesFit(s) && s.drawn <= drawn
    ensures Good(s, WithCache(s, s.core.cache - {key}), drawn)
    ensures Good(s, WithCache(s, GetItem(s.core.cache, key, now).0), drawn)
  {
    hide SessionsFit, RecoveryFits, Good, ChallengeKey;
    CacheGood(s, s.core.cache - {key}, drawn);
    CacheGood(s, GetItem(s.core.cache, key, now).0, drawn);
  }

  lemma GoCacheGood(cfg: Config, s: Sys, flight: Flight, e: Entropy, drawn: set<string>)
    requires TablesFit(s) && WritesCache(flight)
    requires DrawnFor(flight, e) !! s.drawn && s.drawn + DrawnFor(flight, e) <= drawn
    ensures var (cache, next) := GoCache(cfg, s.core.cache, flight, e);
            Good(s, WithCache(s, cache), drawn) && (next.On? ==> FlightFits(WithCache(s, cache), next.flight))
  {
    hide TablesFit, Good, ChallengeKey, CeremonyKey, SetItem, GetItem;
    match flight
    case Opening(u, rememberMe, methods, now) =>
      OpenedGood(s, e.uuid, LoginChallenge(u, rememberMe, methods), cfg.challengeTtl, now, drawn);
    case Staging(id, u, _, now) => CeremonyGood(s, id, Ceremony(true, u, e.token), cfg.challengeTtl, now, drawn);
    case Clearing(id, _, _, now) => DroppedGood(s, CeremonyKey(id), now, drawn);
    case Dropping(id, _, _, _, now) => DroppedGood(s, ChallengeKey(id), now, drawn);
    case Answering(id, _, _, now) => DroppedGood(s, CeremonyKey(id), now, drawn);
  }

  lemma ElseGood(s: Sys, db: Tables, drawn: set<string>)
    requires TablesFit(s) && s.drawn <= drawn
    requires db == s.core.db.(credentials := db.credentials, devices := db.devices, verifications := db.verifications)
    ensures Good(s, s.(core := s.core.(db := db)), drawn)
  {
    hide SessionsFit, RecoveryFits, ChallengesDrawn, SessionsOnward, CodesOnward, ChallengesOnward;
    var s1 := s.(core := s.core.(db := db));
    SessionsUntouched(s, s1, drawn);
    CodesUntouched(s, s1, drawn);
    ChallengesUntouched(s, s1, drawn);
  }

  lemma GoElseFrame(cfg: Config, c: Core, flight: Flight, e: Entropy)
    requires !WritesSessions(flight) && !WritesUsers(flight) && !WritesCodes(flight) && !WritesCache(flight)
    ensures var db := GoElse(cfg, c, flight, e).0;
            db == c.db.(credentials := db.credentials, devices := db.devices, verifications := db.verifications)
  {
    hide Proof, Admission, Objection, DeviceTrusted, UpdateCounter, MarkUsed, AvailableMethods, CredentialsOf;
  }

  lemma GoElseFlight(cfg: Config, s: Sys, db: Tables, flight: Flight, e: Entropy)
    requires !WritesSessions(flight) && !WritesUsers(flight) && !WritesCodes(flight) && !WritesCache(flight)
    requires FlightFits(s, flight) && db.users == s.core.db.users
    ensures var next := GoElse(cfg, s.core, flight, e).1; next.On? ==> FlightFits(s.(core := s.core.(db := db)), next.flight)
  {
    hide Objection, DeviceTrusted, UpdateCounter, MarkUsed, AvailableMethods, CredentialsOf, SessionActive;
  }

  lemma GoElseGood(cfg: Config, s: Sys, flight: Flight, e: Entropy, drawn: set<string>)
    requires TablesFit(s) && FlightFits(s, flight) && s.drawn <= drawn
    requires !WritesSessions(flight) && !WritesUsers(flight) && !WritesCodes(flight) && !WritesCache(flight)
    ensures var (db, next) := GoElse(cfg, s.core, flight, e);
            var s1 := s.(core := s.core.(db := db));
            Good(s, s1, drawn) && (next.On? ==> FlightFits(s1, next.flight))
  {
    hide TablesFit, Good, GoElse, FlightFits;
    GoElseFrame(cfg, s.core, flight, e);
    GoElseFlight(cfg, s, GoElse(cfg, s.core, flight, e).0, flight, e);
    ElseGood(s, GoElse(cfg, s.core, flight, e).0, drawn);
  }

  // ---------------------------------------------------------------------------
  // Any call
  // ---------------------------------------------------------------------------

  lemma ContinueGood(cfg: Config, s: Sys, flight: Flight, e: Entropy, drawn: set<string>)
    requires TablesFit(s) && FlightFits(s, flight)
    requires DrawnFor(flight, e) !! s.drawn && s.drawn + DrawnFor(flight, e) <= drawn
    ensures var (s1, next) := Continue(cfg, s, flight, e);
            Good(s, s1, drawn) && (next.On? ==> FlightFits(s1, next.flight))
  {
    hide TablesFit, Good, FlightFits, DrawnFor, GoSession, GoUsers, GoCodes, GoCache, GoElse, WritesSessions, WritesUsers, WritesCodes, WritesCache;
    if WritesSessions(flight) {
      GoSessionGood(cfg, s, flight, e, drawn);
      GoSessionFrame(cfg, s, flight, e);
    } else if WritesUsers(flight) {
      GoUsersGood(cfg, s, flight, drawn);
    } else if WritesCodes(flight) {
      GoCodesGood(cfg, s, flight, e, drawn);
    } else if WritesCache(flight) {
      GoCacheGood(cfg, s, flight, e, drawn);
    } else {
      GoElseGood(cfg, s, flight, e, drawn);
    }
  }

  lemma SingleGood(s: Sys, m: Move, drawn: set<string>)
    requires TablesFit(s) && s.drawn <= drawn
    ensures Good(s, Single(s, m).0, drawn)
  {
    hide SessionsFit, RecoveryFits, ChallengesDrawn, SessionsOnward, CodesOnward, ChallengesOnward, LogoutTarget, EndSession, DeleteRecoveryCodes;
    UsersGood(s, s.core.db.users, drawn);
    assert WithUsers(s, s.core.db.users) == s;
    if m.SignOutNow? && LogoutTarget(s, m.now, m.refreshCookie, m.accessCookie).Some? {
      var id := LogoutTarget(s, m.now, m.refreshCookie, m.accessCookie).value;
      EndGood(s, id, Revoked, drawn);
      CodesUntouched(s, WithSessions(s, EndSession(s.core.db.sessions, id, Revoked)), drawn);
      ChallengesUntouched(s, WithSessions(s, EndSession(s.core.db.sessions, id, Revoked)), drawn);
    } else if m.Forget? {
      DeleteGood(s, m.userId, drawn);
    }
  }

  lemma DepartureGood(cfg: Config, s: Sys, m: Move, drawn: set<string>)
    requires TablesFit(s) && Begins(m) && s.drawn <= drawn
    ensures var (s1, r) := Departure(cfg, s, m);
            Good(s, s1, drawn) && (r.Ok? ==> FlightFits(s1, r.value))
  {
    hide SessionsFit, RecoveryFits, ChallengesDrawn, Good, ChallengeKey, PasswordMatches, SecondsUp, LockedOut;
    UsersGood(s, s.core.db.users, drawn);
    assert WithUsers(s, s.core.db.users) == s;
    if m.ReadForAnswer? {
      DroppedGood(s, ChallengeKey(m.challengeId), m.now, drawn);
    }
  }

  lemma FlightIgnoresDrawn(s: Sys, drawn: set<string>, flight: Flight)
    ensures FlightFits(s.(drawn := drawn), flight) == FlightFits(s, flight)
  {
  }

  /** A call that keeps the tables also keeps what the other flights have read. */
  lemma GoodKeepsFlights(s: Sys, s1: Sys, drawn: set<string>, flights: map<nat, Flight>)
    requires Good(s, s1, drawn) && forall f | f in flights :: FlightFits(s, flights[f])
    ensures forall f | f in flights :: FlightFits(s1.(drawn := drawn), flights[f])
  {
    hide TablesFit, Onward, FlightFits;
    forall f | f in flights ensures FlightFits(s1.(drawn := drawn), flights[f]) {
      OnwardKeepsFlight(s, s1.(drawn := drawn), flights[f]);
    }
  }

  lemma GoStage(cfg: Config, st: Stage)
    requires ValidStage(cfg, st) && WorldFits(st.pre) && Flying(st).Some?
    ensures WorldFits(st.post) && Onward(st.pre.sys, st.post.sys)
  {
    StageParts(cfg, st);
    hide TablesFit, Onward, Call, FlightFits, Continue, DrawnFor;
    var (s, drawn) := (st.pre.sys, st.post.sys.drawn);
    var (s1, next) := Continue(cfg, s, Flying(st).value, st.move.entropy);
    ContinueGood(cfg, s, Flying(st).value, st.move.entropy, drawn);
    GoodKeepsFlights(s, s1, drawn, st.pre.flights);
    if next.On? {
      FlightIgnoresDrawn(s1, drawn, next.flight);
    }
  }

  lemma BeginStage(cfg: Config, st: Stage)
    requires ValidStage(cfg, st) && WorldFits(st.pre) && Begins(st.move) && st.move.flight !in st.pre.flights
    ensures WorldFits(st.post) && Onward(st.pre.sys, st.post.sys)
  {
    StageParts(cfg, st);
    hide TablesFit, Onward, Call, FlightFits, Departure;
    var (s, drawn) := (st.pre.sys, st.post.sys.drawn);
    var (s1, r) := Departure(cfg, s, st.move);
    DepartureGood(cfg, s, st.move, drawn);
    GoodKeepsFlights(s, s1, drawn, st.pre.flights);
    if r.Ok? {
      FlightIgnoresDrawn(s1, drawn, r.value);
    }
  }

  /** Any call of any request in flight keeps the world fitting, and goes onward. */
  lemma StageGood(cfg: Config, st: Stage)
    requires ValidStage(cfg, st) && WorldFits(st.pre)
    ensures WorldFits(st.post) && Onward(st.pre.sys, st.post.sys)
  {
    hide ValidStage, TablesFit, Onward, FlightFits, Single;
    if Flying(st).Some? {
      GoStage(cfg, st);
    } else if Begins(st.move) && st.move.flight !in st.pre.flights {
      BeginStage(cfg, st);
    } else {
      StageParts(cfg, st);
      var (s, drawn) := (st.pre.sys, st.post.sys.drawn);
      var s1 := if Begins(st.move) || st.move.Go? then s else Single(s, st.move).0;
      SingleGood(s, st.move, drawn);
      UsersGood(s, s.core.db.users, drawn);
      assert WithUsers(s, s.core.db.users) == s;
      GoodKeepsFlights(s, s1, drawn, st.pre.flights);
    }
  }

  lemma {:induction false} TraceFits(cfg: Config, trace: seq<Stage>, n: nat)
    requires ValidTrace(cfg, trace) && trace != [] && n <= |trace| && WorldFits(trace[0].pre)
    ensures WorldFits(WorldAt(trace, n))
  {
    hide ValidStage, WorldFits, Onward;
    if n > 0 {
      TraceFits(cfg, trace, n - 1);
      StageGood(cfg, trace[n - 1]);
    }
  }
}
