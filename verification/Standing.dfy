/** How long an administrator's lock or disabling lasts, and what it keeps out. */
module Standing {
  import opened Wrappers
  import opened Rows
  import opened Cache
  import opened Protocol
  import opened Machine
  import opened Consistency
  import opened Frames
  import opened Admins
  import opened Lockout
  import opened Rotation
  import opened Provenance
  import opened SessionLifetimes
  import opened Verification

  /** Disabled, or locked as an administrator locks: until the far future. */
  predicate Held(row: User) {
    row.status.DISABLED? || (row.status.LOCKED? && row.lockedUntil == Some(FAR_FUTURE))
  }

  /** The address of the account is being verified with a token that is still good. */
  predicate Confirms(ev: Event, u: Id) {
    && ev.req.ConfirmEmail? && !AddressVerified(ev.pre.core.db, u)
    && var rows, h := ev.pre.core.db.verifications, Sha256(ev.req.verification);
       h in rows && rows[h].userId == u && rows[h].usedAt.None? && ev.now <= rows[h].expiresAt
  }

  /** A sign-in to a held account is refused and leaves the row as it is. */
  lemma HeldSignIn(cfg: Config, db: Tables, now: Time, email: string, password: string, u: Id)
    requires FindByEmail(db, email) == Some(u) && Held(db.users[u]) && now < FAR_FUTURE
    ensures Refusal(db.users[u], now).Some? && LoginRows(cfg, db, now, email, password) == db.users
  {
    hide PasswordMatches, SecondsUp;
  }

  lemma ConfirmingActivates(cfg: Config, ev: Event, u: Id)
    requires ValidEvent(cfg, ev) && u in ev.pre.core.db.users && Confirms(ev, u)
    ensures u in ev.post.core.db.users && ev.post.core.db.users[u].status.ACTIVE?
  {
    hide HexDraw, Drawn;
  }

  lemma UntouchedOrVerified(a: Tables, b: Tables, u: Id)
    requires RowUntouched(a.users, b.users, u) && !(AddressVerified(b, u) && !AddressVerified(a, u))
    ensures SameLogin(a.users[u], b.users[u])
  {
  }

  /**
   Requests that are not an administrator's change of status lift a lock or a disabling in
   exactly one way: by verifying the address of an account whose address was not verified.
   */
  lemma LiftedOnlyByConfirming(cfg: Config, ev: Event, u: Id)
    requires ValidEvent(cfg, ev) && Fits(ev.pre) && u in ev.pre.core.db.users && !StatusChanged(ev, u)
    requires Held(ev.pre.core.db.users[u]) && ev.now < FAR_FUTURE
    ensures u in ev.post.core.db.users
    ensures Held(ev.post.core.db.users[u]) <==> !Confirms(ev, u)
    ensures !Confirms(ev, u) ==> SameLogin(ev.pre.core.db.users[u], ev.post.core.db.users[u])
  {
    hide ValidEvent, Fits, AddressVerified, RowUntouched, LoginRows, FindByEmail, StatusChanged;
    var a, b := ev.pre.core.db, ev.post.core.db;
    RowStep(cfg, ev, u);
    if SignsInTo(ev, u) {
      HeldSignIn(cfg, a, ev.now, ev.req.email, ev.req.password, u);
    } else {
      InBoth(a.users, b.users, u);
      if Confirms(ev, u) {
        ConfirmingActivates(cfg, ev, u);
      } else {
        if AddressVerified(b, u) && !AddressVerified(a, u) {
          VerifyingEvent(cfg, ev, u);
        }
        UntouchedOrVerified(a, b, u);
      }
    }
  }

  lemma InBoth(a: map<Id, User>, b: map<Id, User>, u: Id)
    requires RowUntouched(a, b, u)
    ensures u in b
  {
  }

  ghost predicate NoStatusChange(run: seq<Event>, u: Id) {
    forall i | 0 <= i < |run| :: !StatusChanged(run[i], u) && run[i].now < FAR_FUTURE
  }

  /** So for an account with a verified address it lasts until an administrator lifts it. */
  lemma {:induction false} HeldUntilLifted(cfg: Config, run: seq<Event>, n: nat, u: Id)
    requires ValidRun(cfg, run) && run != [] && n <= |run| && Fits(run[0].pre) && NoStatusChange(run, u)
    requires AddressVerified(run[0].pre.core.db, u) && Held(run[0].pre.core.db.users[u])
    ensures AddressVerified(StateAt(run, n).core.db, u)
    ensures Held(StateAt(run, n).core.db.users[u])
    ensures StateAt(run, n).core.db.users[u].status == run[0].pre.core.db.users[u].status
  {
    hide ValidEvent, Fits, StatusChanged, Held;
    if n > 0 {
      HeldUntilLifted(cfg, run, n - 1, u);
      RunFits(cfg, run, n - 1);
      LiftedOnlyByConfirming(cfg, run[n - 1], u);
      HeldBySameLogin(run[n - 1].pre.core.db.users[u], run[n - 1].post.core.db.users[u]);
    }
  }

  lemma HeldBySameLogin(a: User, b: User)
    requires SameLogin(a, b)
    ensures Held(a) == Held(b)
  {
  }

  lemma HeldNotProven(cfg: Config, ev: Event, u: Id)
    requires u in ev.pre.core.db.users && Held(ev.pre.core.db.users[u]) && ev.now < FAR_FUTURE
    ensures !PasswordProven(cfg, ev, u)
  {
    hide PasswordMatches, SecondsUp;
  }

  /**
   What it keeps out is the password: a held account is logged in exactly by a factor given on
   one of its challenges that was opened before and is still live.
   */
  lemma HeldLoginIff(cfg: Config, ev: Event, u: Id)
    requires ValidEvent(cfg, ev) && Fits(ev.pre) && u in ev.pre.core.db.users
    requires Held(ev.pre.core.db.users[u]) && ev.now < FAR_FUTURE
    ensures LogsIn(ev, u) <==> Answers(ev.req) && FactorProven(cfg, ev, u)
  {
    hide ValidEvent, Fits, Held, PasswordProven, FactorProven, ChallengeStep, DeviceStep;
    HeldNotProven(cfg, ev, u);
    EventSteps(cfg, ev);
    if Answers(ev.req) {
      AnswersIff(cfg, ev, u);
    }
  }

  /** That state is reached: an account signs up, an administrator disables it, and its address is confirmed after that. */
  lemma DisabledThenConfirmed(cfg: Config, s: Sys, now: Time, access: string, email: string, password: string,
                              e1: Entropy, e2: Entropy, e3: Entropy)
    requires Fits(s) && FreshDraw(s, e1) && cfg.verificationTtl >= 0 && now < FAR_FUTURE
    requires Authenticate(s, now, access).Ok? && RequireAdmin(s, Authenticate(s, now, access).value).Ok?
    requires FindByEmail(s.core.db, email).None?
    requires var s1 := Step(cfg, s, now, SignUp(email, password), e1).0;
             && FreshDraw(s1, e2)
             && FreshDraw(Step(cfg, s1, now, Administer(access, ChangeStatus(e1.uuid, DISABLED)), e2).0, e3)
    ensures var s1 := Step(cfg, s, now, SignUp(email, password), e1).0;
            var s2 := Step(cfg, s1, now, Administer(access, ChangeStatus(e1.uuid, DISABLED)), e2).0;
            var (s3, out) := Step(cfg, s2, now, ConfirmEmail(e1.token), e3);
            && e1.uuid in s2.core.db.users && Held(s2.core.db.users[e1.uuid])
            && Confirms(Event(now, ConfirmEmail(e1.token), e3, s2, out, s3), e1.uuid)
            && e1.uuid in s3.core.db.users && s3.core.db.users[e1.uuid].status.ACTIVE?
  {
    hide Fits, HexDraw, Drawn, Step, Authenticate, RequireAdmin, NewUser, Held, Confirms;
    NotYetUsedAsUser(s, e1.uuid);
    DrawnParts(e1);
    SignedUp(cfg, s, now, email, password, e1);
    NewcomerIs(cfg, email, password);
    var s1 := Step(cfg, s, now, SignUp(email, password), e1).0;
    StillLetIn(s, s1, now, access, e1.uuid);
    DisabledByOrder(cfg, s1, now, access, e1.uuid, e2);
    var s2 := Step(cfg, s1, now, Administer(access, ChangeStatus(e1.uuid, DISABLED)), e2).0;
    var (s3, out) := Step(cfg, s2, now, ConfirmEmail(e1.token), e3);
    HeldByStatus(s2.core.db.users[e1.uuid]);
    ConfirmsIfUnverified(s2, now, e1.uuid, e1.token, e3, out, s3);
    ConfirmingActivates(cfg, Event(now, ConfirmEmail(e1.token), e3, s2, out, s3), e1.uuid);
  }

  lemma HeldByStatus(row: User)
    ensures row.status.DISABLED? || (row.status.LOCKED? && row.lockedUntil == Some(FAR_FUTURE)) ==> Held(row)
  {
  }

  lemma NewcomerIs(cfg: Config, email: string, password: string)
    ensures NewUser(cfg, email, password).status.PENDING_VERIFICATION? && !NewUser(cfg, email, password).emailVerified
  {
  }

  lemma ConfirmsIfUnverified(s: Sys, now: Time, u: Id, token: string, e: Entropy, out: Outcome, s1: Sys)
    requires u in s.core.db.users && Held(s.core.db.users[u]) && !s.core.db.users[u].emailVerified
    requires Sha256(token) in s.core.db.verifications
    requires var row := s.core.db.verifications[Sha256(token)]; row.userId == u && row.usedAt.None? && now <= row.expiresAt
    ensures Confirms(Event(now, ConfirmEmail(token), e, s, out, s1), u)
  {
  }

  lemma SignedUp(cfg: Config, s: Sys, now: Time, email: string, password: string, e: Entropy)
    requires HexDraw(e.hex) && FindByEmail(s.core.db, email).None?
    ensures var s1 := Step(cfg, s, now, SignUp(email, password), e).0;
            && s1.core.db.users == s.core.db.users[e.uuid := NewUser(cfg, email, password)]
            && Sha256(e.token) in s1.core.db.verifications
            && s1.core.db.verifications[Sha256(e.token)] == EmailVerification(e.uuid, now + cfg.verificationTtl * 1000, None)
            && s1.core.db.sessions == s.core.db.sessions && s1.accessTokens == s.accessTokens
  {
    hide HexDraw, Drawn, RevokePending, NewUser;
  }

  lemma StillLetIn(s: Sys, s1: Sys, now: Time, access: string, newcomer: Id)
    requires newcomer !in s.core.db.users && newcomer in s1.core.db.users && s.core.db.users.Keys + {newcomer} == s1.core.db.users.Keys
    requires forall u | u in s.core.db.users :: s1.core.db.users[u] == s.core.db.users[u]
    requires s1.core.db.sessions == s.core.db.sessions && s1.accessTokens == s.accessTokens
    requires Authenticate(s, now, access).Ok? && RequireAdmin(s, Authenticate(s, now, access).value).Ok?
    ensures Authenticate(s1, now, access) == Authenticate(s, now, access) && Authenticate(s, now, access).value != newcomer
    ensures RequireAdmin(s1, Authenticate(s1, now, access).value).Ok?
  {
  }

  /** An administrator other than `u` gives an order about `u`'s status that the transitions allow. */
  predicate Commands(s: Sys, now: Time, access: string, u: Id, status: Status) {
    && u in s.core.db.users && status in AllowedTransitions(s.core.db.users[u].status)
    && Authenticate(s, now, access).Ok? && RequireAdmin(s, Authenticate(s, now, access).value).Ok? && Authenticate(s, now, access).value != u
  }

  function HeldUntil(status: Status): Option<Time> {
    if status.LOCKED? then Some(FAR_FUTURE) else None
  }

  lemma StatusByOrder(cfg: Config, s: Sys, now: Time, access: string, u: Id, status: Status, e: Entropy)
    requires HexDraw(e.hex) && Commands(s, now, access, u, status)
    ensures var (s1, out) := Step(cfg, s, now, Administer(access, ChangeStatus(u, status)), e);
            && out == Accepted && s1.core.cache == s.core.cache && s1.accessTokens == s.accessTokens
            && s1.core.db == s.core.db.(users := s1.core.db.users, sessions := s1.core.db.sessions)
            && s1.core.db.users == SetStatus(s.core.db.users, u, status, HeldUntil(status))
            && s1.core.db.sessions == (if status.LOCKED? || status.DISABLED? then RevokeAllForUser(s.core.db.sessions, u)
                                       else s.core.db.sessions)
            && u in s1.core.db.users && s1.core.db.users[u] == s.core.db.users[u].(status := status, lockedUntil := HeldUntil(status))
  {
    hide HexDraw, Drawn, Authenticate, RequireAdmin, RevokeAllForUser, AllowedTransitions;
  }

  /** The administrator is let in again after an order about somebody else. */
  lemma CommandsAgain(s: Sys, s1: Sys, now: Time, access: string, u: Id, status: Status, next: Status)
    requires Commands(s, now, access, u, status) && s1.accessTokens == s.accessTokens
    requires s1.core.db.users == SetStatus(s.core.db.users, u, status, HeldUntil(status))
    requires s1.core.db.sessions == s.core.db.sessions || s1.core.db.sessions == RevokeAllForUser(s.core.db.sessions, u)
    requires next in AllowedTransitions(status)
    ensures Commands(s1, now, access, u, next)
  {
  }

  lemma DisabledByOrder(cfg: Config, s: Sys, now: Time, access: string, u: Id, e: Entropy)
    requires HexDraw(e.hex) && u in s.core.db.users && s.core.db.users[u].status.PENDING_VERIFICATION?
    requires Authenticate(s, now, access).Ok? && RequireAdmin(s, Authenticate(s, now, access).value).Ok?
    requires Authenticate(s, now, access).value != u
    ensures var db := Step(cfg, s, now, Administer(access, ChangeStatus(u, DISABLED)), e).0.core.db;
            && db.users == SetStatus(s.core.db.users, u, DISABLED, None) && db.verifications == s.core.db.verifications
            && u in db.users && db.users[u] == s.core.db.users[u].(status := DISABLED, lockedUntil := None)
  {
    hide Step, Authenticate, RequireAdmin, HexDraw;
    StatusByOrder(cfg, s, now, access, u, DISABLED, e);
  }

  /** The same with a lock: activated while unverified, locked, and then confirmed. */
  lemma LockedThenConfirmed(cfg: Config, s: Sys, now: Time, access: string, email: string, password: string,
                            e1: Entropy, e2: Entropy, e3: Entropy, e4: Entropy)
    requires Fits(s) && FreshDraw(s, e1) && cfg.verificationTtl >= 0 && now < FAR_FUTURE
    requires Authenticate(s, now, access).Ok? && RequireAdmin(s, Authenticate(s, now, access).value).Ok?
    requires FindByEmail(s.core.db, email).None?
    requires var s1 := Step(cfg, s, now, SignUp(email, password), e1).0;
             && FreshDraw(s1, e2)
             && var s2 := Step(cfg, s1, now, Administer(access, ChangeStatus(e1.uuid, ACTIVE)), e2).0;
                && FreshDraw(s2, e3)
                && FreshDraw(Step(cfg, s2, now, Administer(access, ChangeStatus(e1.uuid, LOCKED)), e3).0, e4)
    ensures var s1 := Step(cfg, s, now, SignUp(email, password), e1).0;
            var s2 := Step(cfg, s1, now, Administer(access, ChangeStatus(e1.uuid, ACTIVE)), e2).0;
            var s3 := Step(cfg, s2, now, Administer(access, ChangeStatus(e1.uuid, LOCKED)), e3).0;
            var (s4, out) := Step(cfg, s3, now, ConfirmEmail(e1.token), e4);
            && e1.uuid in s3.core.db.users && s3.core.db.users[e1.uuid].status.LOCKED? && Held(s3.core.db.users[e1.uuid])
            && Confirms(Event(now, ConfirmEmail(e1.token), e4, s3, out, s4), e1.uuid)
            && e1.uuid in s4.core.db.users && s4.core.db.users[e1.uuid].status.ACTIVE?
  {
    hide Fits, HexDraw, Drawn, Step, Authenticate, RequireAdmin, NewUser, Held, Confirms, Commands, SetStatus, RevokeAllForUser;
    var u := e1.uuid;
    NotYetUsedAsUser(s, u);
    DrawnParts(e1);
    SignedUp(cfg, s, now, email, password, e1);
    NewcomerIs(cfg, email, password);
    var s1 := Step(cfg, s, now, SignUp(email, password), e1).0;
    StillLetIn(s, s1, now, access, u);
    CommandsNewcomer(s1, now, access, u);
    StatusByOrder(cfg, s1, now, access, u, ACTIVE, e2);
    var s2 := Step(cfg, s1, now, Administer(access, ChangeStatus(u, ACTIVE)), e2).0;
    CommandsAgain(s1, s2, now, access, u, ACTIVE, LOCKED);
    StatusByOrder(cfg, s2, now, access, u, LOCKED, e3);
    var s3 := Step(cfg, s2, now, Administer(access, ChangeStatus(u, LOCKED)), e3).0;
    var (s4, out) := Step(cfg, s3, now, ConfirmEmail(e1.token), e4);
    HeldByStatus(s3.core.db.users[u]);
    ConfirmsIfUnverified(s3, now, u, e1.token, e4, out, s4);
    ConfirmingActivates(cfg, Event(now, ConfirmEmail(e1.token), e4, s3, out, s4), u);
  }

  lemma CommandsNewcomer(s: Sys, now: Time, access: string, u: Id)
    requires u in s.core.db.users && s.core.db.users[u].status.PENDING_VERIFICATION?
    requires Authenticate(s, now, access).Ok? && RequireAdmin(s, Authenticate(s, now, access).value).Ok?
    requires Authenticate(s, now, access).value != u
    ensures Commands(s, now, access, u, ACTIVE)
  {
  }

  // ---------------------------------------------------------------------------
  // Sessions of a held account
  // ---------------------------------------------------------------------------

  /** No pending challenge of `u` is live at `now`; none then is later either. */
  ghost predicate NoneLive(cache: Store<Pending>, u: Id, now: Time) {
    forall id | ChallengeKey(id) in cache :: !LiveChallenge(cache, id, u, now)
  }

  lemma NoneLiveLater(cache: Store<Pending>, u: Id, now: Time, later: Time, id: string)
    requires NoneLive(cache, u, now) && now <= later
    ensures !LiveChallenge(cache, id, u, later)
  {
    hide ChallengeKey;
    LiveBefore(cache, u, now, later, id);
  }

  lemma LiveBefore(cache: Store<Pending>, u: Id, now: Time, later: Time, id: string)
    requires now <= later
    ensures LiveChallenge(cache, id, u, later) ==> ChallengeKey(id) in cache && LiveChallenge(cache, id, u, now)
  {
    hide ChallengeKey;
  }

  /** No challenge is opened for a held account. */
  lemma HeldKeepsNoneLive(cfg: Config, ev: Event, u: Id, now: Time)
    requires u in ev.pre.core.db.users && Held(ev.pre.core.db.users[u]) && ev.now < FAR_FUTURE
    requires ChallengeStep(cfg, ev) && NoneLive(ev.pre.core.cache, u, now)
    ensures NoneLive(ev.post.core.cache, u, now)
  {
    HeldNotProven(cfg, ev, u);
    hide Held, PasswordProven, ChallengeKey;
    forall id | ChallengeKey(id) in ev.post.core.cache ensures !LiveChallenge(ev.post.core.cache, id, u, now) {
      if ChallengeKey(id) in ev.pre.core.cache && ev.post.core.cache[ChallengeKey(id)] == ev.pre.core.cache[ChallengeKey(id)] {
        assert !LiveChallenge(ev.pre.core.cache, id, u, now);
      }
    }
  }

  /** Nor does one log in, as long as it has no live challenge. */
  lemma HeldWithoutChallenge(cfg: Config, ev: Event, u: Id, now: Time)
    requires ValidEvent(cfg, ev) && Fits(ev.pre) && u in ev.pre.core.db.users
    requires Held(ev.pre.core.db.users[u]) && ev.now < FAR_FUTURE && NoneLive(ev.pre.core.cache, u, now) && now <= ev.now
    ensures !LogsIn(ev, u)
  {
    hide ValidEvent, Fits, Held, NoneLive, FactorProven, LiveChallenge;
    HeldLoginIff(cfg, ev, u);
    if LogsIn(ev, u) {
      FactorOnLiveChallenge(cfg, ev, u);
      NoneLiveLater(ev.pre.core.cache, u, now, ev.now, ChallengeOf(ev.req));
    }
  }

  lemma NobodyLogsIn(cfg: Config, ev: Event, u: Id)
    requires ValidEvent(cfg, ev) && Fits(ev.pre) && Fits(ev.post) && !LogsIn(ev, u) && AllEnded(ev.pre, u)
    ensures AllEnded(ev.post, u)
  {
    hide ValidEvent, Fits, LogsIn, NewSessions, TokensGrow, HandedOut, HandedFor;
    EventEvolves(cfg, ev);
    forall id | id in ev.post.core.db.sessions && ev.post.core.db.sessions[id].userId == u
      ensures !ev.post.core.db.sessions[id].status.Active?
    {
      if id !in ev.pre.core.db.sessions {
        NewSessionCreated(cfg, ev, id);
        CreatesLogsIn(ev, id, u);
      }
    }
  }

  /**
   A held account with a verified address, no active session and no live challenge gets no
   active session through any run in which no administrator changes its status.
   */
  lemma {:induction false} NoSessionWhileHeld(cfg: Config, run: seq<Event>, n: nat, u: Id)
    requires ValidRun(cfg, run) && run != [] && n <= |run| && Fits(run[0].pre) && NoStatusChange(run, u)
    requires AddressVerified(run[0].pre.core.db, u) && Held(run[0].pre.core.db.users[u])
    requires AllEnded(run[0].pre, u) && NoneLive(run[0].pre.core.cache, u, run[0].now)
    ensures AllEnded(StateAt(run, n), u) && NoneLive(StateAt(run, n).core.cache, u, run[0].now)
  {
    hide ValidEvent, Fits, Held, StatusChanged, AllEnded, NoneLive, ChallengeStep, DeviceStep, LoginStep;
    if n > 0 {
      NoSessionWhileHeld(cfg, run, n - 1, u);
      HeldUntilLifted(cfg, run, n - 1, u);
      ClockMonotone(cfg, run, 0, n - 1);
      RunFits(cfg, run, n);
      RunSteps(cfg, run, n - 1);
      HeldKeepsNoneLive(cfg, run[n - 1], u, run[0].now);
      HeldWithoutChallenge(cfg, run[n - 1], u, run[0].now);
      NobodyLogsIn(cfg, run[n - 1], u);
    }
  }

  /**
   The challenge makes the difference, with no requests overlapping: an account is locked, has
   no active session then, and by answering a challenge that was live gets one while it is held.
   */
  lemma LockedThenAnswered(cfg: Config, s: Sys, now: Time, access: string, u: Id, id: string, code: string, e1: Entropy, e2: Entropy)
    requires Fits(s) && FreshDraw(s, e1) && now < FAR_FUTURE && Commands(s, now, access, u, LOCKED)
    requires FreshDraw(Step(cfg, s, now, Administer(access, ChangeStatus(u, LOCKED)), e1).0, e2)
    requires LiveChallenge(s.core.cache, id, u, now) && TotpProven(cfg, s.core.db, now, u, code)
    ensures var (s1, out) := Step(cfg, s, now, Administer(access, ChangeStatus(u, LOCKED)), e1);
            var (s2, answer) := Step(cfg, s1, now, AnswerTotp(id, code, false), e2);
            && out == Accepted && u in s1.core.db.users && Held(s1.core.db.users[u]) && AllEnded(s1, u)
            && LogsIn(Event(now, AnswerTotp(id, code, false), e2, s1, answer, s2), u)
            && !AllEnded(s2, u) && u in s2.core.db.users && Held(s2.core.db.users[u])
  {
    hide Step, Fits, FreshDraw, HexDraw, LiveChallenge, Commands, SetStatus, Held, AllEnded;
    DrawIsHex(s, e1);
    var order := Administer(access, ChangeStatus(u, LOCKED));
    var s1 := Step(cfg, s, now, order, e1).0;
    StatusByOrder(cfg, s, now, access, u, LOCKED, e1);
    RevokedAll(s, s1, u);
    HeldByStatus(s1.core.db.users[u]);
    StepFits(cfg, s, now, order, e1);
    AnsweredEnters(cfg, s1, now, u, id, code, e2);
  }

  lemma DrawIsHex(s: Sys, e: Entropy)
    requires FreshDraw(s, e)
    ensures HexDraw(e.hex)
  {
  }

  /** Whatever the status of the account, the right answer logs it in, to an active session. */
  lemma AnsweredEnters(cfg: Config, s: Sys, now: Time, u: Id, id: string, code: string, e: Entropy)
    requires Fits(s) && FreshDraw(s, e) && LiveChallenge(s.core.cache, id, u, now) && TotpProven(cfg, s.core.db, now, u, code)
    ensures var (s1, answer) := Step(cfg, s, now, AnswerTotp(id, code, false), e);
            && LogsIn(Event(now, AnswerTotp(id, code, false), e, s, answer, s1), u)
            && !AllEnded(s1, u) && s1.core.db.users == s.core.db.users
  {
    hide Step, Fits, FreshDraw, HexDraw, LiveChallenge, TotpProven, AllEnded, LastsFor;
    DrawIsHex(s, e);
    var (s1, answer) := Step(cfg, s, now, AnswerTotp(id, code, false), e);
    var ev := Event(now, AnswerTotp(id, code, false), e, s, answer, s1);
    AnswersIff(cfg, ev, u);
    LoginLasts(cfg, ev, u);
    AnswerKeepsUsers(cfg, s, now, id, code, e);
    HasActive(s1, answer.login, u, now, cfg.sessionTimeoutMinutes * 60);
  }

  lemma RevokedAll(s: Sys, s1: Sys, u: Id)
    requires s1.core.db.sessions == RevokeAllForUser(s.core.db.sessions, u)
    ensures AllEnded(s1, u)
  {
  }

  lemma AnswerKeepsUsers(cfg: Config, s: Sys, now: Time, id: string, code: string, e: Entropy)
    requires HexDraw(e.hex)
    ensures Step(cfg, s, now, AnswerTotp(id, code, false), e).0.core.db.users == s.core.db.users
  {
    hide HexDraw, Drawn, CompleteMfaTotp;
    AnswerFrame(cfg, s, now, id, code, "", false, e);
  }

  lemma HasActive(s: Sys, out: LoginOutcome, u: Id, now: Time, ttl: int)
    requires LastsFor(s, out, now, ttl) && out.LoggedIn? && out.userId == u
    ensures !AllEnded(s, u)
  {
  }

  // ---------------------------------------------------------------------------
  // An administrator who can act
  // ---------------------------------------------------------------------------

  /** An administrator who is neither held nor waiting for its address to be verified; failures may have locked it for a while. */
  predicate CanAct(users: map<Id, User>, u: Id) {
    u in users && users[u].role.ADMIN? && !Held(users[u]) && !users[u].status.PENDING_VERIFICATION?
  }

  ghost predicate SomeCanAct(users: map<Id, User>) {
    exists u :: CanAct(users, u)
  }

  /** The administrator whose order the event carries out. */
  predicate OrdersBy(ev: Event, a: Id) {
    ev.req.Administer? && ev.out == Accepted && Authenticate(ev.pre, ev.now, ev.req.access) == Ok(a)
  }

  predicate HoldsItself(ev: Event, a: Id) {
    && OrdersBy(ev, a) && ev.req.command.ChangeStatus? && ev.req.command.target == a
    && (ev.req.command.status.LOCKED? || ev.req.command.status.PENDING_VERIFICATION?)
  }

  lemma OrderedOutcome(cfg: Config, ev: Event, a: Id)
    requires ValidEvent(cfg, ev) && OrdersBy(ev, a)
    ensures Order(ev.pre.core.db, a, ev.req.command) == (ev.post.core.db, Accepted)
    ensures a in ev.pre.core.db.users && ev.pre.core.db.users[a].role.ADMIN?
  {
    hide HexDraw, Drawn, Order;
  }

  /** One who can act and gives an order can act afterwards, except exactly by locking itself or sending itself back to verification. */
  lemma ActorCanActIff(cfg: Config, ev: Event, a: Id)
    requires ValidEvent(cfg, ev) && OrdersBy(ev, a) && CanAct(ev.pre.core.db.users, a)
    ensures CanAct(ev.post.core.db.users, a) <==> !HoldsItself(ev, a)
  {
    hide ValidEvent, Order, CanAct;
    OrderedOutcome(cfg, ev, a);
    OrderCanAct(ev.pre.core.db, a, ev.req.command);
  }

  lemma OrderCanAct(db: Tables, a: Id, command: Command)
    requires CanAct(db.users, a) && Order(db, a, command).1 == Accepted
    ensures CanAct(Order(db, a, command).0.users, a) <==>
              !(command.ChangeStatus? && command.target == a && (command.status.LOCKED? || command.status.PENDING_VERIFICATION?))
  {
    hide RevokeAllForUser;
  }

  lemma SignInKeepsActing(cfg: Config, db: Tables, now: Time, email: string, password: string, u: Id)
    requires CanAct(db.users, u) && FindByEmail(db, email) == Some(u) && now + LockoutMs(cfg) < FAR_FUTURE
    ensures CanAct(LoginRows(cfg, db, now, email, password), u)
  {
    hide PasswordMatches, SecondsUp;
  }

  lemma UntouchedKeepsActing(a: map<Id, User>, b: map<Id, User>, u: Id)
    requires CanAct(a, u) && LeavesRow(a, b, u)
    ensures CanAct(b, u)
  {
  }

  /** Requests other than an administrator's take nobody who can act away. */
  lemma OthersKeepActing(cfg: Config, ev: Event, u: Id)
    requires ValidEvent(cfg, ev) && Fits(ev.pre) && !ev.req.Administer? && CanAct(ev.pre.core.db.users, u)
    requires ev.now + LockoutMs(cfg) < FAR_FUTURE
    ensures CanAct(ev.post.core.db.users, u)
  {
    var s, req, e := ev.pre, ev.req, ev.entropy;
    assert u in s.core.db.users;
    hide Fits, HexDraw, Drawn, Handle, CanAct, LeavesRow, LoginRows, FindByEmail, LockoutMs;
    HandleUsers(cfg, s, ev.now, req, e);
    if req.SignIn? && FindByEmail(s.core.db, req.email) == Some(u) {
      SignInKeepsActing(cfg, s.core.db, ev.now, req.email, req.password, u);
    } else {
      hide UsersAfter;
      OthersLeaveRow(cfg, s, ev.now, req, e, u);
      UntouchedKeepsActing(s.core.db.users, UsersAfter(cfg, s, ev.now, req, e), u);
    }
  }

  lemma RefusedOrderChangesNothing(cfg: Config, ev: Event)
    requires ValidEvent(cfg, ev) && ev.req.Administer? && (forall a :: !OrdersBy(ev, a))
    ensures ev.post.core.db.users == ev.pre.core.db.users
  {
    if Authenticate(ev.pre, ev.now, ev.req.access).Ok? {
      assert !OrdersBy(ev, Authenticate(ev.pre, ev.now, ev.req.access).value);
    }
    hide HexDraw, Drawn, Authenticate, RevokeAllForUser, AllowedTransitions;
  }

  lemma EventKeepsActing(cfg: Config, ev: Event)
    requires ValidEvent(cfg, ev) && Fits(ev.pre) && SomeCanAct(ev.pre.core.db.users) && ev.now + LockoutMs(cfg) < FAR_FUTURE
    requires forall a | OrdersBy(ev, a) :: CanAct(ev.pre.core.db.users, a) && !HoldsItself(ev, a)
    ensures SomeCanAct(ev.post.core.db.users)
  {
    var u :| CanAct(ev.pre.core.db.users, u);
    hide ValidEvent, Fits, CanAct, HoldsItself, LockoutMs, OrdersBy;
    if a :| OrdersBy(ev, a) {
      ActorCanActIff(cfg, ev, a);
      assert CanAct(ev.post.core.db.users, a);
    } else if ev.req.Administer? {
      RefusedOrderChangesNothing(cfg, ev);
    } else {
      OthersKeepActing(cfg, ev, u);
      assert CanAct(ev.post.core.db.users, u);
    }
  }

  /**
   As long as orders come from administrators who can act and none of them locks itself or
   sends itself back to verification, one who can act remains.
   */
  lemma {:induction false} OneWhoCanActRemains(cfg: Config, run: seq<Event>, n: nat)
    requires ValidRun(cfg, run) && run != [] && n <= |run| && Fits(run[0].pre) && SomeCanAct(run[0].pre.core.db.users)
    requires forall i | 0 <= i < |run| :: run[i].now + LockoutMs(cfg) < FAR_FUTURE
    requires forall i, a | 0 <= i < |run| && OrdersBy(run[i], a) :: CanAct(run[i].pre.core.db.users, a) && !HoldsItself(run[i], a)
    ensures SomeCanAct(StateAt(run, n).core.db.users)
  {
    hide ValidEvent, Fits, CanAct, HoldsItself, LockoutMs, OrdersBy, SomeCanAct;
    if n > 0 {
      OneWhoCanActRemains(cfg, run, n - 1);
      RunFits(cfg, run, n - 1);
      EventKeepsActing(cfg, run[n - 1]);
    }
  }

  /** And the only administrator may lock itself: then one remains, but none who can act. */
  lemma LockingItselfLeavesNone(cfg: Config, s: Sys, now: Time, access: string, a: Id, e: Entropy)
    requires HexDraw(e.hex) && Authenticate(s, now, access) == Ok(a) && s.core.db.users[a].role.ADMIN? && s.core.db.users[a].status.ACTIVE?
    requires forall u | u in s.core.db.users && s.core.db.users[u].role.ADMIN? :: u == a
    ensures var (s1, out) := Step(cfg, s, now, Administer(access, ChangeStatus(a, LOCKED)), e);
            out == Accepted && SomeAdministrator(s1.core.db.users) && !SomeCanAct(s1.core.db.users)
  {
    var users := Step(cfg, s, now, Administer(access, ChangeStatus(a, LOCKED)), e).0.core.db.users;
    assert users == SetStatus(s.core.db.users, a, LOCKED, Some(FAR_FUTURE)) by {
      hide HexDraw, Drawn, Authenticate, RevokeAllForUser, SetStatus;
    }
    hide Step, Authenticate;
    assert Administrator(users, a);
  }
}
