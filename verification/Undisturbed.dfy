/** Run with no other call between, the calls of a request are the request of `Protocol`. */
module Undisturbed {
  import opened Wrappers
  import opened Rows
  import opened Cache
  import opened Protocol
  import opened Machine
  import opened Interleaving

  /** The calls of one flight one right after the other, at most `calls` of them. */
  function Through(cfg: Config, s: Sys, next: Next, e: Entropy, calls: nat): (Sys, Reply)
    decreases calls
  {
    match next
    case Landed(reply) => (s, reply)
    case On(flight) =>
      if calls == 0 then (s, Going)
      else
        var (s1, next1) := Continue(cfg, s, flight, e);
        Through(cfg, s1, next1, e, calls - 1)
  }

  /** No request takes more than eight calls after its first. */
  const CALLS := 8

  function Whole(cfg: Config, s: Sys, m: Move, e: Entropy): (Sys, Reply)
    requires Begins(m)
  {
    var (s1, r) := Departure(cfg, s, m);
    match r
    case Err(error) => (s1, Said(Failed(error)))
    case Ok(flight) => Through(cfg, s1, On(flight), e, CALLS)
  }

  /** The same in a world of other flights: calls of `f` until one of them answers. */
  function Fly(cfg: Config, w: World, f: nat, e: Entropy, calls: nat): (World, Reply)
    decreases calls
  {
    if calls == 0 then (w, Going)
    else
      var (w1, reply) := Do(cfg, w, Go(f, e));
      if reply.Going? then Fly(cfg, w1, f, e, calls - 1) else (w1, reply)
  }

  lemma {:induction false} FlyIsThrough(cfg: Config, s: Sys, flights: map<nat, Flight>, f: nat, flight: Flight, e: Entropy, calls: nat)
    requires f !in flights && !Through(cfg, s, On(flight), e, calls).1.Going?
    ensures var (s1, reply) := Through(cfg, s, On(flight), e, calls);
            Fly(cfg, World(s, flights[f := flight]), f, e, calls) == (World(s1, flights), reply)
    decreases calls
  {
    hide Continue;
    var (s1, next) := Continue(cfg, s, flight, e);
    assert flights[f := flight] - {f} == flights;
    if next.On? {
      assert flights[f := flight][f := next.flight] == flights[f := next.flight];
      FlyIsThrough(cfg, s1, flights, f, next.flight, e, calls - 1);
    }
  }

  /** So whatever else is in flight, it is enough to look at one flight. */
  lemma UndisturbedCalls(cfg: Config, w: World, m: Move, e: Entropy)
    requires Begins(m) && m.flight !in w.flights && !Whole(cfg, w.sys, m, e).1.Going?
    ensures var (w1, reply) := Do(cfg, w, m);
            var (s, answer) := Whole(cfg, w.sys, m, e);
            (if reply.Going? then Fly(cfg, w1, m.flight, e, CALLS) else (w1, reply)) == (World(s, w.flights), answer)
  {
    hide Departure, Fly, Through, Continue;
    var (s1, r) := Departure(cfg, w.sys, m);
    if r.Ok? {
      FlyIsThrough(cfg, s1, w.flights, m.flight, r.value, e, CALLS);
    }
  }

  lemma Onto(cfg: Config, s: Sys, flight: Flight, e: Entropy, calls: nat)
    requires calls > 0
    ensures var (s1, next) := Continue(cfg, s, flight, e);
            && Through(cfg, s, On(flight), e, calls) == Through(cfg, s1, next, e, calls - 1)
            && (next.Landed? ==> Through(cfg, s, On(flight), e, calls) == (s1, next.reply))
  {
    hide Continue;
  }

  // ---------------------------------------------------------------------------
  // Refresh
  // ---------------------------------------------------------------------------

  lemma RotatedFromCurrent(cfg: Config, s: Sys, jti: Id, now: Time, e: Entropy)
    requires jti in s.core.db.sessions
    ensures RotatedFrom(cfg, s, jti, s.core.db.sessions[jti], now, e) == Rotated(cfg, s, now, jti, e)
  {
    hide SecondsUp;
  }

  lemma UndisturbedRefresh(cfg: Config, s: Sys, f: nat, token: string, now: Time, e: Entropy)
    ensures var (s1, r) := Refresh(cfg, s, now, token, e);
            Whole(cfg, s, ReadForRefresh(f, token, now), e) == (s1, Said(if r.Ok? then Refreshed(r.value) else Failed(r.error)))
  {
    hide SecondsUp, RotatedFrom, Rotated, EndSession, Through, GoUsers, GoCodes, GoCache, GoElse;
    var begun := BeginRefresh(s, token, now);
    if begun.Ok? {
      Onto(cfg, s, begun.value, e, CALLS);
      if begun.value.Rotating? {
        RotatedFromCurrent(cfg, s, begun.value.id, now, e);
      }
    }
  }

  // ---------------------------------------------------------------------------
  // Administration and admission
  // ---------------------------------------------------------------------------

  lemma UndisturbedAdmission(cfg: Config, s: Sys, f: nat, access: string, now: Time, e: Entropy)
    ensures var r := Authenticate(s, now, access);
            Whole(cfg, s, ReadForAdmission(f, access, None, now), e)
            == (s, if r.Ok? then Admitted(r.value) else Said(Failed(r.error)))
  {
    hide Through, GoSession, GoUsers, GoCodes, GoCache;
    var begun := BeginAdmission(s, access, None, now);
    if begun.Ok? {
      Onto(cfg, s, begun.value, e, CALLS);
    }
  }

  /** From the order on: the target is read, the order carried out, and sessions revoked if it asks for that. */
  lemma OrderThrough(cfg: Config, s: Sys, actor: Id, command: Command, e: Entropy, calls: nat)
    requires calls >= 3
    ensures var (db, out) := Order(s.core.db, actor, command);
            Through(cfg, s, On(Ordering(actor, command)), e, calls) == (s.(core := s.core.(db := db)), Said(out))
  {
    hide Through, GoCodes, GoCache, SetRole, SetStatus, RevokeAllForUser, AllowedTransitions;
    Onto(cfg, s, Ordering(actor, command), e, calls);
    Onto(cfg, s, Changing(actor, command), e, calls - 1);
    if command.ChangeStatus? {
      Onto(cfg, WithUsers(s, Changed(s.core.db.users, command)), RevokingAll(command.target), e, calls - 2);
    }
  }

  lemma UndisturbedOrder(cfg: Config, s: Sys, f: nat, access: string, command: Command, now: Time, e: Entropy)
    requires HexDraw(e.hex)
    ensures var (s1, out) := Handle(cfg, s, now, Administer(access, command), e);
            Whole(cfg, s, ReadForAdmission(f, access, Some(command), now), e) == (s1, Said(out))
  {
    hide Through, GoSession, GoUsers, GoCodes, GoCache, Order, HexDraw;
    var begun := BeginAdmission(s, access, Some(command), now);
    if begun.Ok? {
      Onto(cfg, s, begun.value, e, CALLS);
      OrderThrough(cfg, s, begun.value.userId, command, e, CALLS - 1);
    }
  }

  // ---------------------------------------------------------------------------
  // Signing in
  // ---------------------------------------------------------------------------

  function OfLogin(out: LoginOutcome): Reply {
    Said(if out.Rejected? then Failed(out.error) else Login(out))
  }

  lemma CreatingThrough(cfg: Config, s: Sys, u: Id, rememberMe: bool, d: Option<string>, byRecovery: bool, now: Time, e: Entropy, calls: nat)
    requires calls >= 1
    ensures var (s1, tokens) := IssueTokens(cfg, s, now, u, rememberMe, e);
            Through(cfg, s, On(Creating(u, rememberMe, d, byRecovery, now)), e, calls) == (s1, Said(Login(LoggedIn(u, tokens, d))))
  {
    hide Through, GoUsers, GoCodes, GoCache, GoElse, IssueTokens;
    Onto(cfg, s, Creating(u, rememberMe, d, byRecovery, now), e, calls);
  }

  /** The gate for an account with a second factor. */
  lemma GatingThrough(cfg: Config, s: Sys, u: Id, attempt: Attempt, e: Entropy, calls: nat)
    requires calls >= 3
    ensures Through(cfg, s, On(Gating(u, attempt)), e, calls)
         == if DeviceTrusted(s.core, u, attempt.device) then
              var (s1, tokens) := IssueTokens(cfg, s, attempt.at, u, attempt.rememberMe, e);
              (s1, Said(Login(LoggedIn(u, tokens, None))))
            else
              var (core, challenge) := IssueLoginChallenge(cfg, s.core, attempt.at, u, attempt.rememberMe, e.uuid);
              (s.(core := core), Said(if challenge.Ok? then Login(Challenged(u, challenge.value)) else Failed(challenge.error)))
  {
    hide Through, GoSession, GoUsers, GoCodes, IssueTokens, DeviceTrusted, AvailableMethods, ChallengeKey, SetItem;
    Onto(cfg, s, Gating(u, attempt), e, calls);
    if DeviceTrusted(s.core, u, attempt.device) {
      CreatingThrough(cfg, s, u, attempt.rememberMe, None, false, attempt.at, e, calls - 1);
    } else {
      Onto(cfg, s, Listing(u, attempt.rememberMe, attempt.at), e, calls - 1);
      if u in s.core.db.users {
        MethodsOffered(s.core.db.users[u]);
        Onto(cfg, s, Opening(u, attempt.rememberMe, AvailableMethods(s.core.db.users[u]), attempt.at), e, calls - 2);
      }
    }
  }

  /** From the password on: counter cleared, second-factor gate, tokens or a challenge. */
  lemma SucceedingThrough(cfg: Config, s: Sys, u: Id, row: User, attempt: Attempt, e: Entropy, calls: nat)
    requires calls >= 4
    ensures var (s1, out) := PasswordAccepted(cfg, s, attempt.at, u, row, attempt.rememberMe, attempt.device, e);
            Through(cfg, s, On(Succeeding(u, row, attempt)), e, calls) == (s1, OfLogin(out))
  {
    hide Through, GoSession, GoCodes, GoCache, GoElse, IssueTokens, MarkLoginSuccess, DeviceTrusted, IssueLoginChallenge;
    Onto(cfg, s, Succeeding(u, row, attempt), e, calls);
    var s1 := WithUsers(s, MarkLoginSuccess(s.core.db.users, u));
    if row.mfaEnabled {
      GatingThrough(cfg, s1, u, attempt, e, calls - 1);
    } else {
      CreatingThrough(cfg, s1, u, attempt.rememberMe, None, false, attempt.at, e, calls - 1);
    }
  }

  lemma MethodsOffered(row: User)
    ensures AvailableMethods(row) != []
  {
  }

  lemma FailingThrough(cfg: Config, s: Sys, u: Id, row: User, now: Time, e: Entropy, calls: nat)
    requires calls >= 1
    ensures Through(cfg, s, On(Failing(u, row, now)), e, calls)
         == (WithUsers(s, FailedLogin(cfg, s.core.db.users, u, row, now)), Said(Failed(InvalidCredentials(true))))
  {
    hide Through, GoSession, GoCodes, GoCache, GoElse, FailedLogin;
    Onto(cfg, s, Failing(u, row, now), e, calls);
  }

  /** What the row that was read leads to, once the lock is out of the way. */
  function Judged(cfg: Config, s: Sys, u: Id, row: User, attempt: Attempt, e: Entropy): (Sys, LoginOutcome) {
    if Refusal(row, attempt.at).Some? then (s, Rejected(Refusal(row, attempt.at).value))
    else if !PasswordMatches(cfg, row, attempt.password) then
      (WithUsers(s, FailedLogin(cfg, s.core.db.users, u, row, attempt.at)), Rejected(InvalidCredentials(true)))
    else PasswordAccepted(cfg, s, attempt.at, u, row, attempt.rememberMe, attempt.device, e)
  }

  function CompareThrough(cfg: Config, s: Sys, u: Id, row: User, attempt: Attempt, e: Entropy, calls: nat): (Sys, Reply) {
    match Compare(cfg, u, row, attempt)
    case Ok(next) => Through(cfg, s, On(next), e, calls)
    case Err(error) => (s, Said(Failed(error)))
  }

  lemma ComparedThrough(cfg: Config, s: Sys, u: Id, row: User, attempt: Attempt, e: Entropy, calls: nat)
    requires calls >= 4 && !row.status.DISABLED? && !LockedOut(row, attempt.at)
    ensures var (s1, out) := Judged(cfg, s, u, row, attempt, e);
            CompareThrough(cfg, s, u, row, attempt, e, calls) == (s1, OfLogin(out))
  {
    hide Through, PasswordAccepted, PasswordMatches, FailedLogin, LockedOut;
    FailingThrough(cfg, s, u, row, attempt.at, e, calls);
    SucceedingThrough(cfg, s, u, row, attempt, e, calls);
  }

  lemma UnlockingThrough(cfg: Config, s: Sys, u: Id, row: User, attempt: Attempt, e: Entropy)
    ensures Through(cfg, s, On(Unlocking(u, row, attempt)), e, CALLS)
         == CompareThrough(cfg, WithUsers(s, Unlock(s.core.db.users, u)), u, row, attempt, e, CALLS - 1)
  {
    hide Through, GoSession, GoCodes, GoCache, GoElse, Unlock, Compare;
    Onto(cfg, s, Unlocking(u, row, attempt), e, CALLS);
  }

  lemma KnownThrough(cfg: Config, s: Sys, f: nat, email: string, u: Id, attempt: Attempt, e: Entropy)
    requires FindByEmail(s.core.db, email) == Some(u)
    ensures var (s1, out) := LoginKnown(cfg, s, attempt.at, u, attempt.password, attempt.rememberMe, attempt.device, e);
            Whole(cfg, s, ReadForSignIn(f, email, attempt), e) == (s1, OfLogin(out))
  {
    hide Through, Compare, FailedLogin, PasswordAccepted, PasswordMatches, Unlock, SecondsUp, FindByEmail;
    FoundIn(s.core.db, email);
    var row := s.core.db.users[u];
    if !row.status.DISABLED? && !LockedOut(row, attempt.at) {
      if row.status.LOCKED? {
        var s1 := WithUsers(s, Unlock(s.core.db.users, u));
        UnlockKeeps(s.core.db.users, u);
        UnlockingThrough(cfg, s, u, row, attempt, e);
        ComparedThrough(cfg, s1, u, row, attempt, e, CALLS - 1);
      } else {
        ComparedThrough(cfg, s, u, row, attempt, e, CALLS);
      }
    }
  }

  lemma FoundIn(db: Tables, email: string)
    ensures FindByEmail(db, email).Some? ==> FindByEmail(db, email).value in db.users
  {
  }

  lemma UnlockKeeps(users: map<Id, User>, u: Id)
    ensures Unlock(users, u).Keys == users.Keys
  {
  }

  lemma UndisturbedSignIn(cfg: Config, s: Sys, f: nat, email: string, attempt: Attempt, e: Entropy)
    ensures var (s1, out) := Protocol.Login(cfg, s, attempt.at, email, attempt.password, attempt.rememberMe, attempt.device, e);
            Whole(cfg, s, ReadForSignIn(f, email, attempt), e) == (s1, OfLogin(out))
  {
    hide LoginKnown, Through, Compare;
    if FindByEmail(s.core.db, email).Some? {
      KnownThrough(cfg, s, f, email, FindByEmail(s.core.db, email).value, attempt, e);
    }
  }

  // ---------------------------------------------------------------------------
  // Answering a challenge
  // ---------------------------------------------------------------------------

  lemma FinishingThrough(cfg: Config, s: Sys, u: Id, d: Option<string>, byRecovery: bool, now: Time, e: Entropy, calls: nat)
    requires calls >= 2
    ensures var (s1, out) := FinishMfaLogin(cfg, s, now, u, d, e);
            Through(cfg, s, On(Finishing(u, d, byRecovery, now)), e, calls) == (s1, OfLogin(out))
  {
    hide Through, GoSession, GoUsers, GoCodes, GoCache, IssueTokens;
    Onto(cfg, s, Finishing(u, d, byRecovery, now), e, calls);
    CreatingThrough(cfg, s, u, false, d, byRecovery, now, e, calls - 1);
  }

  /** From a proven factor on: challenge dropped, device trusted, session created. */
  lemma DroppingThrough(cfg: Config, s: Sys, id: string, u: Id, remember: bool, byRecovery: bool, now: Time, e: Entropy, calls: nat)
    requires calls >= 4
    ensures var c1 := s.core.(cache := s.core.cache - {ChallengeKey(id)});
            var (c2, device) := TrustDevice(c1, u, remember, e.token);
            var (s1, out) := FinishMfaLogin(cfg, s.(core := c2), now, u, device, e);
            Through(cfg, s, On(Dropping(id, u, remember, byRecovery, now)), e, calls) == (s1, OfLogin(out))
  {
    hide Through, GoSession, GoUsers, GoCodes, FinishMfaLogin, ChallengeKey;
    Onto(cfg, s, Dropping(id, u, remember, byRecovery, now), e, calls);
    var s1 := WithCache(s, s.core.cache - {ChallengeKey(id)});
    FinishingThrough(cfg, s1, u, None, byRecovery, now, e, calls - 1);
    if remember {
      Onto(cfg, s1, Trusting(u, now), e, calls - 1);
      var s2 := s1.(core := s1.core.(db := s1.core.db.(devices := s1.core.db.devices + {(u, Sha256(e.token))})));
      FinishingThrough(cfg, s2, u, Some(e.token), false, now, e, calls - 2);
    }
  }

  lemma UndisturbedTotp(cfg: Config, s: Sys, f: nat, id: string, code: string, remember: bool, now: Time, e: Entropy)
    ensures var (s1, out) := CompleteMfaTotp(cfg, s, now, id, code, remember, e);
            Whole(cfg, s, ReadForAnswer(f, id, ByTotp(code, remember), now), e) == (s1, OfLogin(out))
  {
    hide Through, GoSession, GoUsers, GoCodes, GoCache, ChallengeUser, ChallengeKey, FinishMfaLogin, TrustDevice;
    var (core, user) := ChallengeUser(s.core, now, id);
    if user.Some? {
      var s1 := s.(core := core);
      Onto(cfg, s1, Answering(id, user.value, ByTotp(code, remember), now), e, CALLS);
      DroppingThrough(cfg, s1, id, user.value, remember, false, now, e, CALLS - 1);
    }
  }

  lemma UndisturbedRecovery(cfg: Config, s: Sys, f: nat, id: string, code: string, now: Time, e: Entropy)
    ensures var (s1, out) := CompleteMfaRecovery(cfg, s, now, id, code, e);
            Whole(cfg, s, ReadForAnswer(f, id, ByRecovery(code), now), e) == (s1, OfLogin(out))
  {
    hide Through, GoSession, GoUsers, GoCache, GoElse, ChallengeUser, ChallengeKey, FinishMfaLogin, Normalize, ConsumeRecoveryCode;
    var (core, user) := ChallengeUser(s.core, now, id);
    if user.Some? {
      var s1 := s.(core := core);
      Onto(cfg, s1, Answering(id, user.value, ByRecovery(code), now), e, CALLS);
      UnclaimedKept(s1.core.db.recovery, user.value, Sha256(Normalize(code)), now);
      var s2 := WithRecovery(s1, ConsumeRecoveryCode(s1.core.db.recovery, user.value, Sha256(Normalize(code)), now).0);
      DroppingThrough(cfg, s2, id, user.value, false, true, now, e, CALLS - 1);
    }
  }

  lemma UnclaimedKept(recovery: map<Hash, RecoveryCode>, u: Id, hash: Hash, now: Time)
    ensures var (after, consumed) := ConsumeRecoveryCode(recovery, u, hash, now); !consumed ==> after == recovery
  {
  }

  lemma CountingThrough(cfg: Config, s: Sys, id: string, u: Id, key: string, counter: int, remember: bool, now: Time, e: Entropy, calls: nat)
    requires calls >= 6
    ensures var c1 := s.core.(db := s.core.db.(credentials := UpdateCounter(s.core.db.credentials, key, counter)),
                              cache := s.core.cache - {CeremonyKey(id)} - {ChallengeKey(id)});
            var (c2, device) := TrustDevice(c1, u, remember, e.token);
            var (s1, out) := FinishMfaLogin(cfg, s.(core := c2), now, u, device, e);
            Through(cfg, s, On(Counting(id, u, key, counter, remember, now)), e, calls) == (s1, OfLogin(out))
  {
    hide Through, GoSession, GoUsers, GoCodes, FinishMfaLogin, TrustDevice, ChallengeKey, CeremonyKey, UpdateCounter;
    Onto(cfg, s, Counting(id, u, key, counter, remember, now), e, calls);
    var s1 := s.(core := s.core.(db := s.core.db.(credentials := UpdateCounter(s.core.db.credentials, key, counter))));
    Onto(cfg, s1, Clearing(id, u, remember, now), e, calls - 1);
    DroppingThrough(cfg, WithCache(s1, s1.core.cache - {CeremonyKey(id)}), id, u, remember, false, now, e, calls - 2);
  }

  lemma UndisturbedKey(cfg: Config, s: Sys, f: nat, id: string, key: string, assertion: string, remember: bool, now: Time, e: Entropy)
    ensures var (s1, out) := CompleteWebAuthnMfa(cfg, s, now, id, key, assertion, remember, e);
            Whole(cfg, s, ReadForAnswer(f, id, ByKey(key, assertion, remember), now), e) == (s1, OfLogin(out))
  {
    hide Through, GoSession, GoUsers, GoCodes, ChallengeUser, ChallengeKey, CeremonyKey, FinishMfaLogin, TrustDevice, UpdateCounter, GetItem;
    var (core, user) := ChallengeUser(s.core, now, id);
    if user.Some? {
      var s1 := s.(core := core);
      Onto(cfg, s1, Answering(id, user.value, ByKey(key, assertion, remember), now), e, CALLS);
      var (cache, ceremony) := GetItem(core.cache, CeremonyKey(id), now);
      var s2 := WithCache(s1, cache);
      if ceremony.Some? && ceremony.value.Ceremony? && ceremony.value.authenticate {
        AssertingThrough(cfg, s2, id, user.value, key, assertion, ceremony.value.expectedChallenge, remember, now, e);
      }
    }
  }

  lemma AssertingThrough(cfg: Config, s: Sys, id: string, u: Id, key: string, assertion: string, expected: string, remember: bool,
                         now: Time, e: Entropy)
    ensures Through(cfg, s, On(Asserting(id, u, key, assertion, expected, remember, now)), e, CALLS - 1)
         == if key !in CredentialsOf(s.core.db.credentials, u) then (s, Said(Failed(KeyInvalid)))
            else
              var counter := cfg.assertionOk(assertion, expected, s.core.db.credentials[key]);
              if counter.None? then (s, Said(Failed(KeyInvalid)))
              else
                var c1 := s.core.(db := s.core.db.(credentials := UpdateCounter(s.core.db.credentials, key, counter.value)),
                                  cache := s.core.cache - {CeremonyKey(id)} - {ChallengeKey(id)});
                var (c2, device) := TrustDevice(c1, u, remember, e.token);
                var (s1, out) := FinishMfaLogin(cfg, s.(core := c2), now, u, device, e);
                (s1, OfLogin(out))
  {
    hide Through, GoSession, GoUsers, GoCodes, GoCache, ChallengeKey, CeremonyKey, FinishMfaLogin, TrustDevice, UpdateCounter;
    Onto(cfg, s, Asserting(id, u, key, assertion, expected, remember, now), e, CALLS - 1);
    if key in CredentialsOf(s.core.db.credentials, u) {
      var counter := cfg.assertionOk(assertion, expected, s.core.db.credentials[key]);
      if counter.Some? {
        CountingThrough(cfg, s, id, u, key, counter.value, remember, now, e, CALLS - 2);
      }
    }
  }

  lemma UndisturbedCeremony(cfg: Config, s: Sys, f: nat, id: string, now: Time, e: Entropy)
    ensures var (c1, r) := BeginWebAuthnLogin(cfg, s.core, now, id, e.token);
            Whole(cfg, s, ReadForAnswer(f, id, ForKey, now), e)
            == (s.(core := c1), Said(if r.Ok? then Keys(r.value) else Failed(r.error)))
  {
    hide Through, GoSession, GoUsers, GoCodes, ChallengeUser, CeremonyKey, SetItem;
    var (core, user) := ChallengeUser(s.core, now, id);
    if user.Some? {
      var s1 := s.(core := core);
      Onto(cfg, s1, Answering(id, user.value, ForKey, now), e, CALLS);
      Onto(cfg, s1, Staging(id, user.value, CredentialsOf(s1.core.db.credentials, user.value), now), e, CALLS - 1);
    }
  }

  // ---------------------------------------------------------------------------
  // Recovery codes and email verification
  // ---------------------------------------------------------------------------

  lemma UndisturbedRegeneration(cfg: Config, s: Sys, f: nat, u: Id, e: Entropy)
    requires HexDraw(e.hex) && u in s.core.db.users
    ensures var (c1, r) := RegenerateRecoveryCodes(s.core, u, e.hex);
            Whole(cfg, s, BeginRegeneration(f, u), e) == (s.(core := c1), Said(OfCodes(r)))
  {
    hide Through, GoSession, GoUsers, GoCache, GoElse, HexDraw, RecoveryHashes, RecoveryCodes, Insertable, CreateRecoveryCodes, DeleteRecoveryCodes;
    Onto(cfg, s, Deleting(u), e, CALLS);
    Onto(cfg, WithRecovery(s, DeleteRecoveryCodes(s.core.db.recovery, u)), Inserting(u), e, CALLS - 1);
  }

  lemma UndisturbedConfirm(cfg: Config, s: Sys, f: nat, token: string, now: Time, e: Entropy)
    ensures var (c1, r) := VerifyEmail(s.core, now, token);
            Whole(cfg, s, ReadForConfirm(f, token, now), e)
            == (s.(core := c1), Said(if r.Ok? then Confirmed(r.value) else Failed(r.error)))
  {
    hide Through, GoSession, GoCodes, GoCache, MarkUsed, MarkEmailVerified;
    var begun := BeginConfirm(s.core.db, token, now);
    if begun.Ok? {
      var flight := begun.value;
      Onto(cfg, s, flight, e, CALLS);
      if flight.activate {
        var s1 := s.(core := s.core.(db := s.core.db.(verifications := MarkUsed(s.core.db.verifications, flight.hash, now))));
        Onto(cfg, s1, Activating(flight.userId), e, CALLS - 1);
      }
    }
  }
}
