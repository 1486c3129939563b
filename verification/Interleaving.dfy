/**
 The same requests one repository call per step, any number of them in flight at once.
 A request in flight holds what it has read, and that says which call it makes next.
 */
module Interleaving {
  import opened Wrappers
  import opened Rows
  import opened Cache
  import opened Protocol
  import opened Machine

  // ---------------------------------------------------------------------------
  // Requests in flight
  // ---------------------------------------------------------------------------

  /** What a sign-in was given, and when. */
  datatype Attempt = Attempt(password: string, rememberMe: bool, device: Option<string>, at: Time)

  /** What a pending challenge is asked with: an answer, or for a security-key ceremony. */
  datatype Answer =
    | ByTotp(code: string, remember: bool)
    | ByRecovery(code: string)
    | ByKey(key: string, assertion: string, remember: bool)
    | ForKey

  datatype Flight =
    // refresh and logout
    | Rotating(id: Id, session: Session, at: Time)
    | Ending(id: Id, ending: SessionStatus, error: Error)
    // signing in
    | Unlocking(userId: Id, row: User, attempt: Attempt)
    | Failing(userId: Id, row: User, at: Time)
    | Succeeding(userId: Id, row: User, attempt: Attempt)
    | Gating(userId: Id, attempt: Attempt)
    | Listing(userId: Id, rememberMe: bool, at: Time)
    | Opening(userId: Id, rememberMe: bool, methods: seq<Method>, at: Time)
    // answering a challenge
    | Answering(challengeId: string, userId: Id, answer: Answer, at: Time)
    | Staging(challengeId: string, userId: Id, keys: set<string>, at: Time)
    | Asserting(challengeId: string, userId: Id, key: string, assertion: string, expected: string, remember: bool, at: Time)
    | Counting(challengeId: string, userId: Id, key: string, counter: int, remember: bool, at: Time)
    | Clearing(challengeId: string, userId: Id, remember: bool, at: Time)
    | Dropping(challengeId: string, userId: Id, remember: bool, byRecovery: bool, at: Time)
    | Trusting(userId: Id, at: Time)
    | Finishing(userId: Id, deviceToken: Option<string>, byRecovery: bool, at: Time)
    | Creating(userId: Id, rememberMe: bool, deviceToken: Option<string>, byRecovery: bool, at: Time)
    // authenticated requests and administration
    | Admitting(userId: Id, id: Id, administrator: bool, order: Option<Command>, at: Time)
    | Ordering(actor: Id, command: Command)
    | Changing(actor: Id, command: Command)
    | RevokingAll(userId: Id)
    // recovery codes and email verification
    | Deleting(userId: Id)
    | Inserting(userId: Id)
    | Confirming(hash: Hash, userId: Id, activate: bool, at: Time)
    | Activating(userId: Id)

  datatype World = World(sys: Sys, flights: map<nat, Flight>)

  /** A first call names a new flight, `Go` a flight there is; the rest are single calls. */
  datatype Move =
    | ReadForRefresh(flight: nat, refresh: string, now: Time)
    | ReadForSignIn(flight: nat, email: string, attempt: Attempt)
    | ReadForAnswer(flight: nat, challengeId: string, answer: Answer, now: Time)
    | ReadForAdmission(flight: nat, access: string, order: Option<Command>, now: Time)
    | ReadForConfirm(flight: nat, verification: string, now: Time)
    | BeginRegeneration(flight: nat, userId: Id)
    | Go(flight: nat, entropy: Entropy)
    | SignOutNow(refreshCookie: Option<string>, accessCookie: Option<string>, now: Time)
    | Forget(userId: Id)

  datatype Reply =
    | Going
    | Said(out: Outcome)
    | Admitted(userId: Id)

  // ---------------------------------------------------------------------------
  // First calls
  // ---------------------------------------------------------------------------

  /** What a refresh does with the session it read; `None` sends it on to rotate. */
  function RefreshDecision(session: Session, user: User, token: string, now: Time): Option<(Option<SessionStatus>, Error)> {
    if session.refreshTokenHash != Sha256(token) then Some((Some(Revoked), TokenReused))
    else if session.expiresAt < now then Some((Some(Expired), SessionExpired))
    else if user.status.DISABLED? then Some((None, AccountDisabled))
    else None
  }

  function BeginRefresh(s: Sys, token: string, now: Time): Result<Flight, Error> {
    match VerifyRefreshToken(s, token, now)
    case None => Err(TokenInvalid)
    case Some(claims) =>
      match FindActive(s.core.db, claims.jti)
      case None => Err(SessionInactive)
      case Some((session, user)) =>
        match RefreshDecision(session, user, token, now)
        case None => Ok(Rotating(claims.jti, session, now))
        case Some((None, error)) => Err(error)
        case Some((Some(ending), error)) => Ok(Ending(claims.jti, ending, error))
  }

  /** Past the lock: the address, then the password, of the row that was read. */
  function Compare(cfg: Config, u: Id, row: User, attempt: Attempt): Result<Flight, Error> {
    if !row.emailVerified || row.status.PENDING_VERIFICATION? then Err(EmailNotVerified)
    else if !PasswordMatches(cfg, row, attempt.password) then Ok(Failing(u, row, attempt.at))
    else Ok(Succeeding(u, row, attempt))
  }

  function BeginSignIn(cfg: Config, db: Tables, email: string, attempt: Attempt): Result<Flight, Error> {
    match FindByEmail(db, email)
    case None => Err(InvalidCredentials(false))
    case Some(u) =>
      var row := db.users[u];
      if row.status.DISABLED? then Err(AccountDisabled)
      else if LockedOut(row, attempt.at) then Err(AccountLocked(SecondsUp(row.lockedUntil.value - attempt.at)))
      else if row.status.LOCKED? then Ok(Unlocking(u, row, attempt))
      else Compare(cfg, u, row, attempt)
  }

  function BeginAdmission(s: Sys, access: string, order: Option<Command>, now: Time): Result<Flight, Error> {
    match VerifyAccessToken(s, access, now)
    case None => Err(TokenInvalid)
    case Some(claims) =>
      if claims.sub !in s.core.db.users then Err(AccountMissing)
      else if s.core.db.users[claims.sub].status.DISABLED? then Err(AccountDisabled)
      else Ok(Admitting(claims.sub, claims.sessionId, s.core.db.users[claims.sub].role.ADMIN?, order, now))
  }

  function BeginConfirm(db: Tables, token: string, now: Time): Result<Flight, Error> {
    var hash := Sha256(token);
    if hash !in db.verifications || db.verifications[hash].userId !in db.users then Err(VerificationInvalid)
    else
      var record := db.verifications[hash];
      if db.users[record.userId].emailVerified then Ok(Confirming(hash, record.userId, false, now))
      else if record.usedAt.Some? || record.expiresAt < now then Err(VerificationInvalid)
      else Ok(Confirming(hash, record.userId, true, now))
  }

  /** A new flight takes off, or its request is refused at once. */
  function TakeOff(w: World, flight: nat, r: Result<Flight, Error>): (World, Reply) {
    match r
    case Err(error) => (w, Said(Failed(error)))
    case Ok(f) => (w.(flights := w.flights[flight := f]), Going)
  }

  predicate Begins(m: Move) {
    m.ReadForRefresh? || m.ReadForSignIn? || m.ReadForAnswer? || m.ReadForAdmission? || m.ReadForConfirm? || m.BeginRegeneration?
  }

  /** What the first call of a request leads to; only reading a challenge may touch the cache. */
  function Departure(cfg: Config, s: Sys, m: Move): (Sys, Result<Flight, Error>)
    requires Begins(m)
  {
    match m
    case ReadForRefresh(_, token, now) => (s, BeginRefresh(s, token, now))
    case ReadForSignIn(_, email, attempt) => (s, BeginSignIn(cfg, s.core.db, email, attempt))
    case ReadForAnswer(_, id, answer, now) =>
      var (core, user) := ChallengeUser(s.core, now, id);
      (s.(core := core), if user.Some? then Ok(Answering(id, user.value, answer, now)) else Err(ChallengeInvalid))
    case ReadForAdmission(_, access, order, now) => (s, BeginAdmission(s, access, order, now))
    case ReadForConfirm(_, token, now) => (s, BeginConfirm(s.core.db, token, now))
    case BeginRegeneration(_, u) => (s, if u in s.core.db.users then Ok(Deleting(u)) else Err(NotFound))
  }

  // ---------------------------------------------------------------------------
  // Later calls
  // ---------------------------------------------------------------------------

  /** Where a flight goes after a call, and what its request answers if that was the last. */
  datatype Next = On(flight: Flight) | Landed(reply: Reply)

  function Refused(error: Error): Next {
    Landed(Said(Failed(error)))
  }

  function WithUsers(s: Sys, users: map<Id, User>): Sys {
    s.(core := s.core.(db := s.core.db.(users := users)))
  }

  function WithRecovery(s: Sys, recovery: map<Hash, RecoveryCode>): Sys {
    s.(core := s.core.(db := s.core.db.(recovery := recovery)))
  }

  function WithCache(s: Sys, cache: Store<Pending>): Sys {
    s.(core := s.core.(cache := cache))
  }

  /** The rotation writes the hash it made and the expiry it read. */
  function RotatedFrom(cfg: Config, s: Sys, jti: Id, session: Session, now: Time, e: Entropy): Sys {
    var s1 := WithSessions(s, RotateToken(s.core.db.sessions, jti, Sha256(e.refresh), session.expiresAt));
    s1.(refreshTokens := s1.refreshTokens[e.refresh := RefreshClaims(session.userId, jti, now + SecondsUp(session.expiresAt - now) * 1000)],
        accessTokens := s1.accessTokens[e.access := AccessClaims(session.userId, jti, now + cfg.accessTtl * 1000)])
  }

  predicate WritesSessions(flight: Flight) {
    flight.Rotating? || flight.Ending? || flight.RevokingAll? || flight.Creating?
  }

  function GoSession(cfg: Config, s: Sys, flight: Flight, e: Entropy): (Sys, Next)
    requires WritesSessions(flight)
  {
    match flight
    case Rotating(id, session, now) =>
      (RotatedFrom(cfg, s, id, session, now, e),
       Landed(Said(Refreshed(Tokens(e.access, e.refresh, SecondsUp(session.expiresAt - now))))))
    case Ending(id, ending, error) => (WithSessions(s, EndSession(s.core.db.sessions, id, ending)), Refused(error))
    case RevokingAll(u) => (WithSessions(s, RevokeAllForUser(s.core.db.sessions, u)), Landed(Said(Accepted)))
    case Creating(u, rememberMe, deviceToken, _, now) =>
      var (s1, tokens) := IssueTokens(cfg, s, now, u, rememberMe, e);
      (s1, Landed(Said(Login(LoggedIn(u, tokens, deviceToken)))))
  }

  predicate WritesUsers(flight: Flight) {
    flight.Unlocking? || flight.Failing? || flight.Succeeding? || flight.Changing? || flight.Activating?
  }

  function Changed(users: map<Id, User>, command: Command): map<Id, User> {
    match command
    case ChangeRole(target, role) => SetRole(users, target, role)
    case ChangeStatus(target, status) => SetStatus(users, target, status, if status.LOCKED? then Some(FAR_FUTURE) else None)
  }

  /** The user table a flight leaves, and where it goes. */
  function GoUsers(cfg: Config, users: map<Id, User>, flight: Flight): (map<Id, User>, Next)
    requires WritesUsers(flight)
  {
    match flight
    case Unlocking(u, row, attempt) =>
      (Unlock(users, u),
       match Compare(cfg, u, row, attempt)
       case Ok(next) => On(next)
       case Err(error) => Refused(error))
    case Failing(u, row, now) => (FailedLogin(cfg, users, u, row, now), Refused(InvalidCredentials(true)))
    case Succeeding(u, row, attempt) =>
      (MarkLoginSuccess(users, u),
       On(if row.mfaEnabled then Gating(u, attempt) else Creating(u, attempt.rememberMe, None, false, attempt.at)))
    case Changing(_, command) =>
      (Changed(users, command),
       if command.ChangeStatus? && (command.status.LOCKED? || command.status.DISABLED?)
       then On(RevokingAll(command.target)) else Landed(Said(Accepted)))
    case Activating(u) => (MarkEmailVerified(users, u), Landed(Said(Confirmed(u))))
  }

  predicate WritesCodes(flight: Flight) {
    flight.Deleting? || flight.Inserting? || (flight.Answering? && flight.answer.ByRecovery?)
  }

  function GoCodes(recovery: map<Hash, RecoveryCode>, flight: Flight, e: Entropy): (map<Hash, RecoveryCode>, Next)
    requires WritesCodes(flight)
  {
    match flight
    case Deleting(u) => (DeleteRecoveryCodes(recovery, u), On(Inserting(u)))
    case Inserting(u) =>
      if HexDraw(e.hex) then
        (CreateRecoveryCodes(recovery, u, RecoveryHashes(e.hex)),
         Landed(Said(if Insertable(recovery, RecoveryHashes(e.hex)) then Codes(RecoveryCodes(e.hex)) else Failed(Conflict))))
      else (recovery, On(flight))
    case Answering(id, u, answer, now) =>
      var (claimed, consumed) := ConsumeRecoveryCode(recovery, u, Sha256(Normalize(answer.code)), now);
      (claimed, if consumed then On(Dropping(id, u, false, true, now)) else Refused(CodeInvalid))
  }

  predicate WritesCache(flight: Flight) {
    flight.Opening? || flight.Staging? || flight.Clearing? || flight.Dropping? || (flight.Answering? && flight.answer.ByKey?)
  }

  function GoCache(cfg: Config, cache: Store<Pending>, flight: Flight, e: Entropy): (Store<Pending>, Next)
    requires WritesCache(flight)
  {
    match flight
    case Opening(u, rememberMe, methods, now) =>
      (SetItem(cache, ChallengeKey(e.uuid), LoginChallenge(u, rememberMe, methods), cfg.challengeTtl, now),
       Landed(Said(Login(Challenged(u, Challenge(e.uuid, if methods == [] then MethodRecovery else methods[0], methods,
                                                 now + cfg.challengeTtl * 1000))))))
    case Staging(id, u, keys, now) =>
      (SetItem(cache, CeremonyKey(id), Ceremony(true, u, e.token), cfg.challengeTtl, now), Landed(Said(Keys(keys))))
    case Clearing(id, u, remember, now) => (cache - {CeremonyKey(id)}, On(Dropping(id, u, remember, false, now)))
    case Dropping(id, u, remember, byRecovery, now) =>
      (cache - {ChallengeKey(id)}, On(if remember then Trusting(u, now) else Finishing(u, None, byRecovery, now)))
    case Answering(id, u, answer, now) =>
      var (after, ceremony) := GetItem(cache, CeremonyKey(id), now);
      (after,
       if ceremony.Some? && ceremony.value.Ceremony? && ceremony.value.authenticate
       then On(Asserting(id, u, answer.key, answer.assertion, ceremony.value.expectedChallenge, answer.remember, now))
       else Refused(ChallengeInvalid))
  }

  /** Calls that only read, and those on the tables no other flight writes. */
  function GoElse(cfg: Config, c: Core, flight: Flight, e: Entropy): (Tables, Next)
    requires !WritesSessions(flight) && !WritesUsers(flight) && !WritesCodes(flight) && !WritesCache(flight)
  {
    var db := c.db;
    match flight
    case Gating(u, attempt) =>
      (db, On(if DeviceTrusted(c, u, attempt.device) then Creating(u, attempt.rememberMe, None, false, attempt.at)
              else Listing(u, attempt.rememberMe, attempt.at)))
    case Listing(u, rememberMe, now) =>
      (db, if u in db.users then On(Opening(u, rememberMe, AvailableMethods(db.users[u]), now)) else Refused(AccountMissing))
    case Answering(id, u, answer, now) => (db, Proof(cfg, db, id, u, answer, now))
    case Asserting(id, u, key, assertion, expected, remember, now) =>
      (db,
       if key !in CredentialsOf(db.credentials, u) then Refused(KeyInvalid)
       else match cfg.assertionOk(assertion, expected, db.credentials[key])
            case Some(counter) => On(Counting(id, u, key, counter, remember, now))
            case None => Refused(KeyInvalid))
    case Counting(id, u, key, counter, remember, now) =>
      (db.(credentials := UpdateCounter(db.credentials, key, counter)), On(Clearing(id, u, remember, now)))
    case Trusting(u, now) =>
      (db.(devices := db.devices + {(u, Sha256(e.token))}), On(Finishing(u, Some(e.token), false, now)))
    case Finishing(u, deviceToken, byRecovery, now) =>
      (db, if u in db.users then On(Creating(u, false, deviceToken, byRecovery, now)) else Refused(AccountMissing))
    case Admitting(u, id, administrator, order, now) => (db, Admission(db, u, id, administrator, order, now))
    case Ordering(actor, command) =>
      (db, match Objection(db, actor, command)
           case Some(error) => Refused(error)
           case None => On(Changing(actor, command)))
    case Confirming(hash, u, activate, now) =>
      (db.(verifications := MarkUsed(db.verifications, hash, now)), if activate then On(Activating(u)) else Landed(Said(Confirmed(u))))
  }

  /** A one-time code is checked against the stored secret; asking for a ceremony lists the keys. */
  function Proof(cfg: Config, db: Tables, id: string, u: Id, answer: Answer, now: Time): Next {
    if answer.ForKey? then On(Staging(id, u, CredentialsOf(db.credentials, u), now))
    else if !answer.ByTotp? || u !in db.totp then Refused(CodeInvalid)
    else match cfg.decrypt(db.totp[u].secret)
         case None => Refused(DecryptFailed)
         case Some(secret) =>
           if cfg.totpOk(secret, answer.code, now) then On(Dropping(id, u, answer.remember, false, now)) else Refused(CodeInvalid)
  }

  /** The session is read last; the role is that of the account as it was read before. */
  function Admission(db: Tables, u: Id, id: Id, administrator: bool, order: Option<Command>, now: Time): Next {
    if !SessionActive(db.sessions, id, u, now) then Refused(SessionInactive)
    else if order.None? then Landed(Admitted(u))
    else if !administrator then Refused(AdminRequired)
    else On(Ordering(u, order.value))
  }

  /** What the target, as it is read, has against an order. */
  function Objection(db: Tables, actor: Id, command: Command): Option<Error> {
    if command.target !in db.users then Some(NotFound)
    else
      var row := db.users[command.target];
      match command
      case ChangeRole(target, role) => if target == actor && role != row.role then Some(OwnRole) else None
      case ChangeStatus(target, status) =>
        if target == actor && status.DISABLED? then Some(OwnAccount)
        else if status != row.status && status !in AllowedTransitions(row.status) then Some(BadTransition)
        else None
  }

  function Continue(cfg: Config, s: Sys, flight: Flight, e: Entropy): (Sys, Next) {
    if WritesSessions(flight) then GoSession(cfg, s, flight, e)
    else if WritesUsers(flight) then
      var (users, next) := GoUsers(cfg, s.core.db.users, flight);
      (WithUsers(s, users), next)
    else if WritesCodes(flight) then
      var (recovery, next) := GoCodes(s.core.db.recovery, flight, e);
      (WithRecovery(s, recovery), next)
    else if WritesCache(flight) then
      var (cache, next) := GoCache(cfg, s.core.cache, flight, e);
      (WithCache(s, cache), next)
    else
      var (db, next) := GoElse(cfg, s.core, flight, e);
      (s.(core := s.core.(db := db)), next)
  }

  /** Calls that are a whole request, or the one of another request that matters here. */
  function Single(s: Sys, m: Move): (Sys, Reply) {
    match m
    case SignOutNow(refresh, access, now) => var (s1, revoked) := Logout(s, now, refresh, access); (s1, Said(SignedOut(revoked)))
    case Forget(u) => (WithRecovery(s, DeleteRecoveryCodes(s.core.db.recovery, u)), Going)
    case _ => (s, Going)
  }

  // ---------------------------------------------------------------------------
  // One call, and traces of calls
  // ---------------------------------------------------------------------------

  function Land(flights: map<nat, Flight>, f: nat, next: Next): map<nat, Flight> {
    if next.On? then flights[f := next.flight] else flights - {f}
  }

  /** A first move must name a new flight and `Go` a flight there is; else nothing happens. */
  function Do(cfg: Config, w: World, m: Move): (World, Reply) {
    if Begins(m) then
      if m.flight in w.flights then (w, Going)
      else
        var (s, r) := Departure(cfg, w.sys, m);
        TakeOff(w.(sys := s), m.flight, r)
    else if m.Go? then
      if m.flight in w.flights then
        var (s, next) := Continue(cfg, w.sys, w.flights[m.flight], m.entropy);
        (World(s, Land(w.flights, m.flight, next)), if next.On? then Going else next.reply)
      else (w, Going)
    else
      var (s, reply) := Single(w.sys, m);
      (w.(sys := s), reply)
  }

  /** The random values a flight draws for its next call. */
  function DrawnFor(flight: Flight, e: Entropy): set<string> {
    match flight
    case Rotating(_, _, _) => {e.access, e.refresh}
    case Creating(_, _, _, _, _) => {e.uuid, e.access, e.refresh}
    case Opening(_, _, _, _) => {e.uuid}
    case Staging(_, _, _, _) => {e.token}
    case Trusting(_, _) => {e.token}
    case Inserting(_) => if HexDraw(e.hex) then set h | h in RecoveryHashes(e.hex) :: h.text else {}
    case _ => {}
  }

  function DrawnBy(w: World, m: Move): set<string> {
    if m.Go? && m.flight in w.flights then DrawnFor(w.flights[m.flight], m.entropy) else {}
  }

  function Call(cfg: Config, w: World, m: Move): (World, Reply) {
    var (w1, reply) := Do(cfg, w, m);
    (w1.(sys := w1.sys.(drawn := w.sys.drawn + DrawnBy(w, m))), reply)
  }

  datatype Stage = Stage(pre: World, move: Move, post: World, reply: Reply)

  ghost predicate ValidStage(cfg: Config, st: Stage) {
    DrawnBy(st.pre, st.move) !! st.pre.sys.drawn && (st.post, st.reply) == Call(cfg, st.pre, st.move)
  }

  /** Calls of any requests in any order. */
  ghost predicate ValidTrace(cfg: Config, trace: seq<Stage>) {
    && (forall i | 0 <= i < |trace| :: ValidStage(cfg, trace[i]))
    && (forall i | 0 <= i < |trace| - 1 :: trace[i].post == trace[i + 1].pre)
  }

  function WorldAt(trace: seq<Stage>, n: nat): World
    requires trace != [] && n <= |trace|
  {
    if n < |trace| then trace[n].pre else trace[n - 1].post
  }

  /** The next call of `flight` in this stage, if it is one. */
  function Flying(st: Stage): Option<Flight> {
    if st.move.Go? && st.move.flight in st.pre.flights then Some(st.pre.flights[st.move.flight]) else None
  }

  /** The flight that takes off in this stage, if one does. */
  function TakingOff(st: Stage): Option<Flight> {
    if Begins(st.move) && st.move.flight !in st.pre.flights && st.move.flight in st.post.flights
    then Some(st.post.flights[st.move.flight]) else None
  }

  /** What a stage is, taken apart: a take-off, a call of a flight, a single call, or nothing. */
  lemma StageParts(cfg: Config, st: Stage)
    requires ValidStage(cfg, st)
    ensures Begins(st.move) && st.move.flight !in st.pre.flights ==>
              var (s, r) := Departure(cfg, st.pre.sys, st.move);
              && st.post.sys == s.(drawn := st.post.sys.drawn)
              && st.post.flights == (if r.Ok? then st.pre.flights[st.move.flight := r.value] else st.pre.flights)
              && st.reply == (if r.Ok? then Going else Said(Failed(r.error)))
              && TakingOff(st) == (if r.Ok? then Some(r.value) else None)
    ensures Flying(st).Some? ==>
              var (s, next) := Continue(cfg, st.pre.sys, Flying(st).value, st.move.entropy);
              && st.post.sys == s.(drawn := st.post.sys.drawn)
              && st.post.flights == Land(st.pre.flights, st.move.flight, next)
              && st.reply == (if next.On? then Going else next.reply)
    ensures !Begins(st.move) && !st.move.Go? ==>
              && st.post.sys == Single(st.pre.sys, st.move).0.(drawn := st.post.sys.drawn)
              && st.post.flights == st.pre.flights
    ensures (Begins(st.move) && st.move.flight in st.pre.flights) || (st.move.Go? && st.move.flight !in st.pre.flights) ==>
              st.post.sys == st.pre.sys.(drawn := st.post.sys.drawn) && st.post.flights == st.pre.flights
    ensures st.post.sys.drawn == st.pre.sys.drawn + DrawnBy(st.pre, st.move)
  {
    hide Departure, Continue, Single, DrawnFor;
  }

  // ---------------------------------------------------------------------------
  // Traces from moves
  // ---------------------------------------------------------------------------

  /** The world after the moves. */
  function After(cfg: Config, w: World, moves: seq<Move>): World {
    if moves == [] then w else Call(cfg, After(cfg, w, moves[..|moves| - 1]), moves[|moves| - 1]).0
  }

  function TraceOf(cfg: Config, w: World, moves: seq<Move>): seq<Stage> {
    seq(|moves|, i requires 0 <= i < |moves| =>
      Stage(After(cfg, w, moves[..i]), moves[i], After(cfg, w, moves[..i + 1]), Call(cfg, After(cfg, w, moves[..i]), moves[i]).1))
  }

  ghost predicate FreshAlong(cfg: Config, w: World, moves: seq<Move>) {
    forall i | 0 <= i < |moves| :: DrawnBy(After(cfg, w, moves[..i]), moves[i]) !! After(cfg, w, moves[..i]).sys.drawn
  }

  lemma AfterOne(cfg: Config, w: World, moves: seq<Move>, m: Move)
    ensures After(cfg, w, moves + [m]) == Call(cfg, After(cfg, w, moves), m).0
  {
    hide Call;
    assert (moves + [m])[..|moves|] == moves;
  }

  lemma AfterNext(cfg: Config, w: World, moves: seq<Move>, i: nat)
    requires i < |moves|
    ensures After(cfg, w, moves[..i + 1]) == Call(cfg, After(cfg, w, moves[..i]), moves[i]).0
  {
    hide Call, After;
    assert moves[..i + 1] == moves[..i] + [moves[i]];
    AfterOne(cfg, w, moves[..i], moves[i]);
  }

  lemma StageIsValid(cfg: Config, w: World, moves: seq<Move>, i: nat)
    requires FreshAlong(cfg, w, moves) && i < |moves|
    ensures ValidStage(cfg, TraceOf(cfg, w, moves)[i])
  {
    hide Call, DrawnBy, After;
    AfterNext(cfg, w, moves, i);
  }

  /** Moves that draw new values make a trace, from the world they start in to the one after them. */
  lemma TraceOfIsValid(cfg: Config, w: World, moves: seq<Move>)
    requires FreshAlong(cfg, w, moves)
    ensures ValidTrace(cfg, TraceOf(cfg, w, moves)) && |TraceOf(cfg, w, moves)| == |moves|
    ensures moves != [] ==> WorldAt(TraceOf(cfg, w, moves), 0) == w && WorldAt(TraceOf(cfg, w, moves), |moves|) == After(cfg, w, moves)
  {
    hide Call, DrawnBy, ValidStage, After, FreshAlong;
    var trace := TraceOf(cfg, w, moves);
    forall i | 0 <= i < |trace| ensures ValidStage(cfg, trace[i]) {
      StageIsValid(cfg, w, moves, i);
    }
    assert moves[..|moves|] == moves && moves[..0] == [];
    Unextended(cfg, w);
  }

  /** One more move of a trace. */
  lemma Extended(cfg: Config, w: World, moves: seq<Move>, m: Move)
    requires FreshAlong(cfg, w, moves) && DrawnBy(After(cfg, w, moves), m) !! After(cfg, w, moves).sys.drawn
    ensures FreshAlong(cfg, w, moves + [m]) && After(cfg, w, moves + [m]) == Call(cfg, After(cfg, w, moves), m).0
  {
    hide Call, DrawnBy, After;
    AfterOne(cfg, w, moves, m);
    var more := moves + [m];
    forall i | 0 <= i < |more| ensures DrawnBy(After(cfg, w, more[..i]), more[i]) !! After(cfg, w, more[..i]).sys.drawn {
      assert more[..i] == moves[..i];
      if i == |moves| {
        assert moves[..i] == moves;
      }
    }
  }

  lemma Unextended(cfg: Config, w: World)
    ensures FreshAlong(cfg, w, []) && After(cfg, w, []) == w
  {
  }

  lemma StageOf(cfg: Config, w: World, moves: seq<Move>, i: nat)
    requires i < |moves|
    ensures TraceOf(cfg, w, moves)[i].pre == After(cfg, w, moves[..i]) && TraceOf(cfg, w, moves)[i].move == moves[i]
    ensures TraceOf(cfg, w, moves)[i].reply == Call(cfg, After(cfg, w, moves[..i]), moves[i]).1
  {
    hide Call, After;
  }

  /** The move draws nothing and leads from `w` to `w1`. */
  ghost predicate Quietly(cfg: Config, w: World, m: Move, w1: World) {
    Call(cfg, w, m).0 == w1 && DrawnBy(w, m) == {}
  }

  ghost predicate AllQuietly(cfg: Config, worlds: seq<World>, moves: seq<Move>) {
    && |worlds| == |moves| + 1
    && forall i | 0 <= i < |moves| :: Quietly(cfg, worlds[i], moves[i], worlds[i + 1])
  }

  lemma {:induction false} QuietPrefix(cfg: Config, worlds: seq<World>, moves: seq<Move>, n: nat)
    requires AllQuietly(cfg, worlds, moves) && n <= |moves|
    ensures FreshAlong(cfg, worlds[0], moves[..n]) && After(cfg, worlds[0], moves[..n]) == worlds[n]
  {
    hide Call, DrawnBy, After, FreshAlong;
    if n == 0 {
      Unextended(cfg, worlds[0]);
      assert moves[..0] == [];
    } else {
      QuietPrefix(cfg, worlds, moves, n - 1);
      assert Quietly(cfg, worlds[n - 1], moves[n - 1], worlds[n]);
      Extended(cfg, worlds[0], moves[..n - 1], moves[n - 1]);
      assert moves[..n - 1] + [moves[n - 1]] == moves[..n];
    }
  }

  /** Moves that draw nothing make a trace through the worlds they lead to. */
  lemma QuietTrace(cfg: Config, worlds: seq<World>, moves: seq<Move>)
    requires AllQuietly(cfg, worlds, moves)
    ensures FreshAlong(cfg, worlds[0], moves)
    ensures forall i | 0 <= i <= |moves| :: After(cfg, worlds[0], moves[..i]) == worlds[i]
    ensures After(cfg, worlds[0], moves) == worlds[|moves|]
  {
    hide AllQuietly, After, FreshAlong;
    assert |worlds| == |moves| + 1 by { QuietLength(cfg, worlds, moves); }
    forall i | 0 <= i <= |moves| ensures After(cfg, worlds[0], moves[..i]) == worlds[i] {
      QuietPrefix(cfg, worlds, moves, i);
    }
    QuietPrefix(cfg, worlds, moves, |moves|);
    assert moves[..|moves|] == moves;
  }

  lemma QuietLength(cfg: Config, worlds: seq<World>, moves: seq<Move>)
    requires AllQuietly(cfg, worlds, moves)
    ensures |worlds| == |moves| + 1
  {
  }
}
