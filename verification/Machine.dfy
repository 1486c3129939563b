/**
 The service as a state machine, one whole request per step: every request an
 anonymous client, a signed-in user or an administrator can make, the runs they form,
 and the invariant that ties the tables, the tokens and the cache together.
 */
module Machine {
  import opened Wrappers
  import opened Rows
  import opened Cache
  import opened Protocol

  // ---------------------------------------------------------------------------
  // Requests
  // ---------------------------------------------------------------------------

  /** What a signed-in user can do to their own second factors. */
  datatype Action =
    | StartTotp
    | FinishTotp(code: string)
    | StartWebAuthn
    | FinishWebAuthn(challengeId: string, registration: string)
    | RegenerateCodes(password: string)
    | RemoveKey(credentialId: string)
    | DisableMfa(password: string)

  datatype Command =
    | ChangeRole(target: Id, role: Role)
    | ChangeStatus(target: Id, status: Status)

  datatype Request =
    | SignUp(email: string, password: string)
    | Resend(email: string)
    | ConfirmEmail(verification: string)
    | SignIn(email: string, password: string, rememberMe: bool, device: Option<string>)
    | AnswerTotp(challengeId: string, code: string, rememberDevice: bool)
    | AnswerRecovery(challengeId: string, code: string)
    | StartAssertion(challengeId: string)
    | AnswerWebAuthn(challengeId: string, credentialId: string, assertion: string, rememberDevice: bool)
    | RefreshSession(refresh: string)
    | SignOut(refreshCookie: Option<string>, accessCookie: Option<string>)
    | Settings(access: string, action: Action)
    | Administer(access: string, command: Command)

  datatype Outcome =
    | Accepted
    | Failed(error: Error)
    | Confirmed(userId: Id)
    | Login(login: LoginOutcome)
    | Keys(credentialIds: set<string>)
    | Refreshed(tokens: Tokens)
    | SignedOut(revoked: bool)
    | Started(text: string)
    | Codes(codes: seq<string>)

  function OfResult(r: Result<(), Error>): Outcome {
    match r
    case Ok(_) => Accepted
    case Err(e) => Failed(e)
  }

  function OfText(r: Result<string, Error>): Outcome {
    match r
    case Ok(t) => Started(t)
    case Err(e) => Failed(e)
  }

  function OfCodes(r: Result<seq<string>, Error>): Outcome {
    match r
    case Ok(codes) => Codes(codes)
    case Err(e) => Failed(e)
  }

  function Act(cfg: Config, c: Core, now: Time, user: Id, action: Action, e: Entropy): (Core, Outcome)
    requires HexDraw(e.hex)
  {
    match action
    case StartTotp => var (c1, r) := BeginTotpEnrollment(cfg, c, user, e.token); (c1, OfText(r))
    case FinishTotp(code) => var (c1, r) := CompleteTotpEnrollment(cfg, c, now, user, code, e.hex); (c1, OfCodes(r))
    case StartWebAuthn => var (c1, r) := BeginWebAuthnRegistration(cfg, c, now, user, e.uuid, e.token); (c1, OfText(r))
    case FinishWebAuthn(id, registration) =>
      var (c1, r) := CompleteWebAuthnRegistration(cfg, c, now, id, user, registration, e.hex); (c1, OfCodes(r))
    case RegenerateCodes(password) => var (c1, r) := RegenerateWithPassword(cfg, c, user, password, e.hex); (c1, OfCodes(r))
    case RemoveKey(id) => var (c1, r) := RemoveWebAuthnCredential(c, user, id); (c1, OfResult(r))
    case DisableMfa(password) => var (c1, r) := Disable(cfg, c, user, password); (c1, OfResult(r))
  }

  function Order(db: Tables, actor: Id, command: Command): (Tables, Outcome) {
    match command
    case ChangeRole(target, role) =>
      var (db1, r) := SetUserRole(db, actor, target, role);
      (db1, if r.Ok? then Accepted else Failed(r.error))
    case ChangeStatus(target, status) =>
      var (db1, r) := SetUserStatus(db, actor, target, status);
      (db1, if r.Ok? then Accepted else Failed(r.error))
  }

  function Handle(cfg: Config, s: Sys, now: Time, req: Request, e: Entropy): (Sys, Outcome)
    requires HexDraw(e.hex)
  {
    match req
    case SignUp(email, password) => (s.(core := Register(cfg, s.core, now, email, password, e.uuid, e.token)), Accepted)
    case Resend(email) => (s.(core := ResendVerification(cfg, s.core, now, email, e.token)), Accepted)
    case ConfirmEmail(token) =>
      var (c1, r) := VerifyEmail(s.core, now, token);
      (s.(core := c1), if r.Ok? then Confirmed(r.value) else Failed(r.error))
    case SignIn(email, password, rememberMe, device) =>
      var (s1, r) := Protocol.Login(cfg, s, now, email, password, rememberMe, device, e); (s1, Login(r))
    case AnswerTotp(id, code, remember) => var (s1, r) := CompleteMfaTotp(cfg, s, now, id, code, remember, e); (s1, Login(r))
    case AnswerRecovery(id, code) => var (s1, r) := CompleteMfaRecovery(cfg, s, now, id, code, e); (s1, Login(r))
    case StartAssertion(id) =>
      var (c1, r) := BeginWebAuthnLogin(cfg, s.core, now, id, e.token);
      (s.(core := c1), if r.Ok? then Keys(r.value) else Failed(r.error))
    case AnswerWebAuthn(id, key, assertion, remember) =>
      var (s1, r) := CompleteWebAuthnMfa(cfg, s, now, id, key, assertion, remember, e); (s1, Login(r))
    case RefreshSession(token) =>
      var (s1, r) := Refresh(cfg, s, now, token, e);
      (s1, if r.Ok? then Refreshed(r.value) else Failed(r.error))
    case SignOut(refresh, access) => var (s1, revoked) := Logout(s, now, refresh, access); (s1, SignedOut(revoked))
    case Settings(access, action) =>
      (match Authenticate(s, now, access)
       case Err(error) => (s, Failed(error))
       case Ok(user) => var (c1, out) := Act(cfg, s.core, now, user, action, e); (s.(core := c1), out))
    case Administer(access, command) =>
      (match Authenticate(s, now, access)
       case Err(error) => (s, Failed(error))
       case Ok(actor) =>
         if RequireAdmin(s, actor).Err? then (s, Failed(AdminRequired))
         else var (db, out) := Order(s.core.db, actor, command); (s.(core := s.core.(db := db)), out))
  }

  // ---------------------------------------------------------------------------
  // Randomness
  // ---------------------------------------------------------------------------

  function NormalCodes(e: Entropy): seq<string>
    requires HexDraw(e.hex)
  {
    seq(RECOVERY_CODES_COUNT, i requires 0 <= i < RECOVERY_CODES_COUNT => Normalize(FormatRecoveryCode(e.hex[i])))
  }

  function Drawn(e: Entropy): set<string>
    requires HexDraw(e.hex)
  {
    {e.uuid, e.access, e.refresh, e.token} + set c | c in NormalCodes(e)
  }

  /** Random values never repeat from one request to another, nor do the codes of one batch. */
  ghost predicate FreshDraw(s: Sys, e: Entropy) {
    && HexDraw(e.hex)
    && Drawn(e) !! s.drawn
    && (forall i, j | 0 <= i < j < RECOVERY_CODES_COUNT :: NormalCodes(e)[i] != NormalCodes(e)[j])
  }

  function Step(cfg: Config, s: Sys, now: Time, req: Request, e: Entropy): (Sys, Outcome)
    requires HexDraw(e.hex)
  {
    var (s1, out) := Handle(cfg, s, now, req, e);
    (s1.(drawn := s.drawn + Drawn(e)), out)
  }

  // ---------------------------------------------------------------------------
  // Runs
  // ---------------------------------------------------------------------------

  datatype Event = Event(now: Time, req: Request, entropy: Entropy, pre: Sys, out: Outcome, post: Sys)

  ghost predicate ValidEvent(cfg: Config, ev: Event) {
    FreshDraw(ev.pre, ev.entropy) && (ev.post, ev.out) == Step(cfg, ev.pre, ev.now, ev.req, ev.entropy)
  }

  /** Requests one after the other, on a clock that does not go back. */
  ghost predicate ValidRun(cfg: Config, run: seq<Event>) {
    && (forall i | 0 <= i < |run| :: ValidEvent(cfg, run[i]))
    && (forall i | 0 <= i < |run| - 1 :: run[i].post == run[i + 1].pre && run[i].now <= run[i + 1].now)
  }

  /** The state before event `n`; after the last event for `n == |run|`. */
  function StateAt(run: seq<Event>, n: nat): Sys
    requires run != [] && n <= |run|
  {
    if n < |run| then run[n].pre else run[n - 1].post
  }

  lemma {:induction false} ClockMonotone(cfg: Config, run: seq<Event>, i: nat, j: nat)
    requires ValidRun(cfg, run) && i <= j < |run|
    ensures run[i].now <= run[j].now
    decreases j
  {
    hide ValidEvent;
    if i < j {
      ClockMonotone(cfg, run, i, j - 1);
    }
  }

  // ---------------------------------------------------------------------------
  // The tables, tokens and cache fit together
  // ---------------------------------------------------------------------------

  ghost predicate UsersFit(db: Tables, drawn: set<string>) {
    && (forall u | u in db.users :: u in drawn && db.users[u].email in db.emails && db.emails[db.users[u].email] == u)
    && (forall m | m in db.emails :: db.emails[m] in db.users && db.users[db.emails[m]].email == m)
    && (forall h | h in db.verifications :: h.text in drawn && db.verifications[h].userId in db.users)
  }

  ghost predicate FactorsFit(db: Tables, drawn: set<string>) {
    && (forall u | u in db.totp :: u in db.users)
    && (forall c | c in db.credentials :: db.credentials[c].userId in db.users)
    && (forall h | h in db.recovery :: db.recovery[h].userId in db.users && h.text in drawn)
    && (forall d | d in db.devices :: d.0 in db.users && d.1.text in drawn)
  }

  ghost predicate CacheFits(c: Core, drawn: set<string>) {
    && (forall id | ChallengeKey(id) in c.cache ::
          && id in drawn && c.cache[ChallengeKey(id)].value.LoginChallenge?
          && c.cache[ChallengeKey(id)].value.userId in c.db.users)
    && (forall id | CeremonyKey(id) in c.cache :: c.cache[CeremonyKey(id)].value.Ceremony?)
  }

  ghost predicate CoreFits(c: Core, drawn: set<string>) {
    UsersFit(c.db, drawn) && FactorsFit(c.db, drawn) && CacheFits(c, drawn)
  }

  ghost predicate SessionsFit(s: Sys) {
    var db := s.core.db;
    && (forall id | id in db.sessions ::
          && id in s.drawn && db.sessions[id].userId in db.users
          && db.sessions[id].refreshTokenHash.text in s.refreshTokens
          && s.refreshTokens[db.sessions[id].refreshTokenHash.text].jti == id)
    && (forall t | t in s.refreshTokens ::
          && t in s.drawn && s.refreshTokens[t].jti in db.sessions
          && s.refreshTokens[t].sub == db.sessions[s.refreshTokens[t].jti].userId)
    && (forall t | t in s.accessTokens ::
          && t in s.drawn && s.accessTokens[t].sessionId in db.sessions
          && s.accessTokens[t].sub == db.sessions[s.accessTokens[t].sessionId].userId)
  }

  ghost predicate Fits(s: Sys) {
    CoreFits(s.core, s.drawn) && SessionsFit(s)
  }

  /** The service before its first request. */
  const Empty := Sys(Core(Tables(map[], map[], map[], map[], map[], map[], {}, map[]), map[]), map[], map[], {})
}
