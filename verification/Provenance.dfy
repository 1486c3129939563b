/** Where every session comes from, and what one second-factor challenge is good for. */
module Provenance {
  import opened Wrappers
  import opened Rows
  import opened Cache
  import opened Protocol
  import opened Machine
  import opened Consistency
  import opened Frames
  import opened Lockout
  import opened Rotation

  // ---------------------------------------------------------------------------
  // What the events mean
  // ---------------------------------------------------------------------------

  /** The password of an account that may sign in was given. */
  predicate PasswordProven(cfg: Config, ev: Event, u: Id) {
    && SignsInTo(ev, u) && u in ev.pre.core.db.users
    && Refusal(ev.pre.core.db.users[u], ev.now).None?
    && PasswordMatches(cfg, ev.pre.core.db.users[u], ev.req.password)
  }

  predicate LiveChallenge(cache: Store<Pending>, id: string, u: Id, now: Time) {
    && ChallengeKey(id) in cache && !Lapsed(cache[ChallengeKey(id)], now) && cache[ChallengeKey(id)].value.userId == u
  }

  predicate TotpProven(cfg: Config, db: Tables, now: Time, u: Id, code: string) {
    && u in db.totp
    && cfg.decrypt(db.totp[u].secret).Some? && cfg.totpOk(cfg.decrypt(db.totp[u].secret).value, code, now)
  }

  predicate KeyProven(cfg: Config, c: Core, now: Time, u: Id, id: string, key: string, assertion: string) {
    && key in CredentialsOf(c.db.credentials, u)
    && CeremonyKey(id) in c.cache && !Lapsed(c.cache[CeremonyKey(id)], now)
    && var ceremony := c.cache[CeremonyKey(id)].value;
       && ceremony.Ceremony? && ceremony.authenticate
       && cfg.assertionOk(assertion, ceremony.expectedChallenge, c.db.credentials[key]).Some?
  }

  /** A second factor of `u` was given on a live challenge of `u`. */
  predicate FactorProven(cfg: Config, ev: Event, u: Id) {
    var c := ev.pre.core;
    match ev.req
    case AnswerTotp(id, code, _) => LiveChallenge(c.cache, id, u, ev.now) && TotpProven(cfg, c.db, ev.now, u, code)
    case AnswerRecovery(id, code) => LiveChallenge(c.cache, id, u, ev.now) && Unused(c.db.recovery, u, Sha256(Normalize(code)))
    case AnswerWebAuthn(id, key, assertion, _) =>
      LiveChallenge(c.cache, id, u, ev.now) && KeyProven(cfg, c, ev.now, u, id, key, assertion)
    case _ => false
  }

  predicate LogsIn(ev: Event, u: Id) {
    ev.out.Login? && ev.out.login.LoggedIn? && ev.out.login.userId == u
  }

  /** The challenge `id` was opened for `u`, who had given the password and has a second factor. */
  predicate Opens(cfg: Config, ev: Event, u: Id, id: string) {
    && PasswordProven(cfg, ev, u) && ev.pre.core.db.users[u].mfaEnabled
    && ev.out.Login? && ev.out.login.Challenged? && ev.out.login.userId == u && ev.out.login.challenge.id == id
  }

  /** A device cookie was handed out along with a login that gave a second factor. */
  predicate Trusts(cfg: Config, ev: Event, u: Id, hash: Hash) {
    FactorProven(cfg, ev, u) && LogsIn(ev, u) && ev.out.login.deviceToken == Some(hash.text)
  }

  predicate Disables(ev: Event, u: Id) {
    && ev.req.Settings? && ev.req.action.DisableMfa?
    && Authenticate(ev.pre, ev.now, ev.req.access) == Ok(u) && ev.out == Accepted
  }

  // ---------------------------------------------------------------------------
  // Challenges and devices, request by request
  // ---------------------------------------------------------------------------

  /** No challenge is new or changed. */
  ghost predicate ChallengesKept(a: Store<Pending>, b: Store<Pending>) {
    forall id | ChallengeKey(id) in b :: ChallengeKey(id) in a && b[ChallengeKey(id)] == a[ChallengeKey(id)]
  }

  /** Entries only go. */
  ghost predicate Fewer(a: Store<Pending>, b: Store<Pending>) {
    forall k | k in b :: k in a && b[k] == a[k]
  }

  lemma FewerChallenges(a: Store<Pending>, b: Store<Pending>)
    requires Fewer(a, b)
    ensures ChallengesKept(a, b)
  {
  }

  lemma ChallengesKeptOn(a: Store<Pending>, b: Store<Pending>, c: Store<Pending>)
    requires ChallengesKept(a, b) && ChallengesKept(b, c)
    ensures ChallengesKept(a, c)
  {
  }

  lemma CeremonySet(a: Store<Pending>, id: string, state: Pending, ttl: int, now: Time)
    ensures ChallengesKept(a, SetItem(a, CeremonyKey(id), state, ttl, now))
  {
    hide ChallengeKey, CeremonyKey;
    KeysDistinct();
  }

  lemma ReadFewer(c: Core, now: Time, id: string)
    ensures Fewer(c.cache, GetItem(c.cache, CeremonyKey(id), now).0)
    ensures var (c1, user) := ChallengeUser(c, now, id);
            && c1.db == c.db && Fewer(c.cache, c1.cache)
            && (user.Some? ==> c1 == c && LiveChallenge(c.cache, id, user.value, now))
  {
    hide ChallengeKey, CeremonyKey;
  }

  function WithDevice(devices: set<(Id, Hash)>, who: Option<Id>, device: Option<string>): set<(Id, Hash)> {
    if who.Some? && device.Some? then devices + {(who.value, Sha256(device.value))} else devices
  }

  /** What answering a challenge does to the core, if it names `who` or fails. */
  ghost predicate Answered(c: Core, c1: Core, now: Time, id: string, who: Option<Id>, device: Option<string>) {
    && Fewer(c.cache, c1.cache)
    && (who.Some? ==> LiveChallenge(c.cache, id, who.value, now) && ChallengeKey(id) !in c1.cache)
    && c1.db.devices == WithDevice(c.db.devices, who, device)
  }

  lemma TotpAnswer(cfg: Config, c: Core, now: Time, id: string, code: string, remember: bool, token: string)
    ensures var (c1, r) := VerifyTotpLogin(cfg, c, now, id, code, remember, token);
            match r
            case Ok(v) => Answered(c, c1, now, id, Some(v.userId), v.deviceToken) && TotpProven(cfg, c.db, now, v.userId, code)
            case Err(_) => Answered(c, c1, now, id, None, None)
  {
    hide ChallengeUser, ChallengeKey;
    ReadFewer(c, now, id);
    var (c1, user) := ChallengeUser(c, now, id);
    assert user.Some? ==> c1 == c && LiveChallenge(c.cache, id, user.value, now);
  }

  lemma RecoveryAnswer(c: Core, now: Time, id: string, code: string)
    ensures var (c1, r) := VerifyRecoveryLogin(c, now, id, code);
            match r
            case Ok(u) => Answered(c, c1, now, id, Some(u), None) && Unused(c.db.recovery, u, Sha256(Normalize(code)))
            case Err(_) => Answered(c, c1, now, id, None, None)
  {
    hide ChallengeUser, ChallengeKey, Normalize;
    ReadFewer(c, now, id);
    var (c1, user) := ChallengeUser(c, now, id);
    assert user.Some? ==> c1 == c && LiveChallenge(c.cache, id, user.value, now);
  }

  lemma KeyAnswer(cfg: Config, c: Core, now: Time, id: string, key: string, assertion: string, remember: bool, token: string)
    ensures var (c1, r) := VerifyWebAuthnLogin(cfg, c, now, id, key, assertion, remember, token);
            match r
            case Ok(v) => Answered(c, c1, now, id, Some(v.userId), v.deviceToken) && KeyProven(cfg, c, now, v.userId, id, key, assertion)
            case Err(_) => Answered(c, c1, now, id, None, None)
  {
    hide ChallengeUser, ChallengeKey, CeremonyKey, UpdateCounter;
    ReadFewer(c, now, id);
    var (c1, user) := ChallengeUser(c, now, id);
    assert user.Some? ==> c1 == c && LiveChallenge(c.cache, id, user.value, now);
  }

  /** What a request that answers a challenge does. */
  ghost predicate AnswerEffect(s: Sys, s1: Sys, now: Time, id: string, out: LoginOutcome) {
    && !out.Challenged?
    && Fewer(s.core.cache, s1.core.cache)
    && (out.LoggedIn? ==> LiveChallenge(s.core.cache, id, out.userId, now) && ChallengeKey(id) !in s1.core.cache)
    && s1.core.db.devices == (if out.LoggedIn? then WithDevice(s.core.db.devices, Some(out.userId), out.deviceToken)
                              else s.core.db.devices)
  }

  lemma FinishAnswer(cfg: Config, s: Sys, core: Core, now: Time, id: string, u: Id, device: Option<string>, e: Entropy)
    requires CacheFits(s.core, s.drawn) && core.db.users == s.core.db.users
    requires Answered(s.core, core, now, id, Some(u), device)
    ensures var (s1, out) := FinishMfaLogin(cfg, s.(core := core), now, u, device, e);
            AnswerEffect(s, s1, now, id, out) && out.LoggedIn? && out.userId == u && out.deviceToken == device
  {
    hide ChallengeKey, Fewer;
  }

  lemma FailedAnswer(s: Sys, core: Core, now: Time, id: string, error: Error)
    requires Answered(s.core, core, now, id, None, None)
    ensures AnswerEffect(s, s.(core := core), now, id, Rejected(error))
  {
  }

  lemma TotpEffect(cfg: Config, s: Sys, now: Time, id: string, code: string, remember: bool, e: Entropy)
    requires CacheFits(s.core, s.drawn)
    ensures var (s1, out) := CompleteMfaTotp(cfg, s, now, id, code, remember, e);
            AnswerEffect(s, s1, now, id, out) && (out.LoggedIn? ==> TotpProven(cfg, s.core.db, now, out.userId, code))
  {
    hide CacheFits, AnswerEffect, Answered, TotpProven, FinishMfaLogin, VerifyTotpLogin, VerifyRecoveryLogin, VerifyWebAuthnLogin;
    TotpAnswer(cfg, s.core, now, id, code, remember, e.token);
    AnswerCoreFrame(cfg, s.core, now, id, code, "", remember, e.token);
    var (core, r) := VerifyTotpLogin(cfg, s.core, now, id, code, remember, e.token);
    match r
    case Ok(v) => FinishAnswer(cfg, s, core, now, id, v.userId, v.deviceToken, e);
    case Err(error) => FailedAnswer(s, core, now, id, error);
  }

  lemma RecoveryEffect(cfg: Config, s: Sys, now: Time, id: string, code: string, e: Entropy)
    requires CacheFits(s.core, s.drawn)
    ensures var (s1, out) := CompleteMfaRecovery(cfg, s, now, id, code, e);
            AnswerEffect(s, s1, now, id, out) && (out.LoggedIn? ==> Unused(s.core.db.recovery, out.userId, Sha256(Normalize(code))))
  {
    hide CacheFits, AnswerEffect, Answered, Unused, Normalize, FinishMfaLogin, VerifyTotpLogin, VerifyRecoveryLogin, VerifyWebAuthnLogin;
    RecoveryAnswer(s.core, now, id, code);
    AnswerCoreFrame(cfg, s.core, now, id, code, "", false, e.token);
    var (core, r) := VerifyRecoveryLogin(s.core, now, id, code);
    match r
    case Ok(u) => FinishAnswer(cfg, s, core, now, id, u, None, e);
    case Err(error) => FailedAnswer(s, core, now, id, error);
  }

  lemma KeyEffect(cfg: Config, s: Sys, now: Time, id: string, key: string, assertion: string, remember: bool, e: Entropy)
    requires CacheFits(s.core, s.drawn)
    ensures var (s1, out) := CompleteWebAuthnMfa(cfg, s, now, id, key, assertion, remember, e);
            AnswerEffect(s, s1, now, id, out) && (out.LoggedIn? ==> KeyProven(cfg, s.core, now, out.userId, id, key, assertion))
  {
    hide CacheFits, AnswerEffect, Answered, KeyProven, CredentialsOf, FinishMfaLogin, VerifyTotpLogin, VerifyRecoveryLogin, VerifyWebAuthnLogin;
    KeyAnswer(cfg, s.core, now, id, key, assertion, remember, e.token);
    AnswerCoreFrame(cfg, s.core, now, id, assertion, key, remember, e.token);
    var (core, r) := VerifyWebAuthnLogin(cfg, s.core, now, id, key, assertion, remember, e.token);
    match r
    case Ok(v) => FinishAnswer(cfg, s, core, now, id, v.userId, v.deviceToken, e);
    case Err(error) => FailedAnswer(s, core, now, id, error);
  }

  predicate Answers(req: Request) {
    req.AnswerTotp? || req.AnswerRecovery? || req.AnswerWebAuthn?
  }

  function ChallengeOf(req: Request): string
    requires Answers(req)
  {
    req.challengeId
  }

  lemma AnswerEvent(cfg: Config, ev: Event)
    requires ValidEvent(cfg, ev) && Fits(ev.pre) && Answers(ev.req)
    ensures ev.out.Login? && AnswerEffect(ev.pre, ev.post, ev.now, ChallengeOf(ev.req), ev.out.login)
    ensures ev.out.login.LoggedIn? ==> FactorProven(cfg, ev, ev.out.login.userId)
  {
    hide AnswerEffect, CacheFits, UsersFit, FactorsFit, SessionsFit, HexDraw, Drawn, TotpProven, KeyProven, LiveChallenge, Unused,
      CompleteMfaTotp, CompleteMfaRecovery, CompleteWebAuthnMfa, Normalize;
    var s, now, e := ev.pre, ev.now, ev.entropy;
    var s1 := Handle(cfg, s, now, ev.req, e).0;
    match ev.req {
      case AnswerTotp(id, code, remember) => TotpEffect(cfg, s, now, id, code, remember, e);
      case AnswerRecovery(id, code) => RecoveryEffect(cfg, s, now, id, code, e);
      case AnswerWebAuthn(id, key, assertion, remember) => KeyEffect(cfg, s, now, id, key, assertion, remember, e);
    }
    EffectIgnoresDrawn(s, s1, ev.post.drawn, now, ChallengeOf(ev.req), ev.out.login);
  }

  lemma ProvenAnswers(cfg: Config, s: Sys, now: Time, u: Id, id: string, code: string, key: string, remember: bool, e: Entropy)
    requires u in s.core.db.users && LiveChallenge(s.core.cache, id, u, now)
    ensures TotpProven(cfg, s.core.db, now, u, code) ==> CompleteMfaTotp(cfg, s, now, id, code, remember, e).1.LoggedIn?
    ensures Unused(s.core.db.recovery, u, Sha256(Normalize(code))) ==> CompleteMfaRecovery(cfg, s, now, id, code, e).1.LoggedIn?
    ensures KeyProven(cfg, s.core, now, u, id, key, code) ==> CompleteWebAuthnMfa(cfg, s, now, id, key, code, remember, e).1.LoggedIn?
  {
    hide Normalize, ChallengeKey, CeremonyKey, UpdateCounter, IssueTokens;
  }

  lemma LiveIsOnes(cache: Store<Pending>, id: string, u: Id, v: Id, now: Time)
    requires LiveChallenge(cache, id, u, now) && LiveChallenge(cache, id, v, now)
    ensures u == v
  {
  }

  lemma LiveHasUser(c: Core, drawn: set<string>, id: string, u: Id, now: Time)
    requires CacheFits(c, drawn) && LiveChallenge(c.cache, id, u, now)
    ensures u in c.db.users
  {
  }

  /**
   Answering a challenge logs an account in exactly when the challenge is live and that
   account's, and the factor is right. Nothing else about the account is looked at.
   */
  lemma AnswersIff(cfg: Config, ev: Event, u: Id)
    requires ValidEvent(cfg, ev) && Fits(ev.pre) && Answers(ev.req)
    ensures LogsIn(ev, u) <==> FactorProven(cfg, ev, u)
  {
    AnswerEvent(cfg, ev);
    hide AnswerEffect, UsersFit, FactorsFit, SessionsFit, CacheFits, HexDraw, Drawn, TotpProven, KeyProven, LiveChallenge, Unused, Normalize,
      CompleteMfaTotp, CompleteMfaRecovery, CompleteWebAuthnMfa;
    if FactorProven(cfg, ev, u) {
      var id := ChallengeOf(ev.req);
      FactorOnLiveChallenge(cfg, ev, u);
      LiveHasUser(ev.pre.core, ev.pre.drawn, id, u, ev.now);
      match ev.req {
        case AnswerTotp(_, code, remember) => ProvenAnswers(cfg, ev.pre, ev.now, u, id, code, "", remember, ev.entropy);
        case AnswerRecovery(_, code) => ProvenAnswers(cfg, ev.pre, ev.now, u, id, code, "", false, ev.entropy);
        case AnswerWebAuthn(_, key, assertion, remember) =>
          ProvenAnswers(cfg, ev.pre, ev.now, u, id, assertion, key, remember, ev.entropy);
      }
      var v := ev.out.login.userId;
      FactorOnLiveChallenge(cfg, ev, v);
      LiveIsOnes(ev.pre.core.cache, id, u, v, ev.now);
    }
  }

  lemma EffectIgnoresDrawn(s: Sys, s1: Sys, drawn: set<string>, now: Time, id: string, out: LoginOutcome)
    requires AnswerEffect(s, s1, now, id, out)
    ensures AnswerEffect(s, s1.(drawn := drawn), now, id, out)
    ensures out.LoggedIn? ==> LiveChallenge(s.core.cache, id, out.userId, now)
  {
    hide Fewer, LiveChallenge;
  }

  // Signing in

  /** What a sign-in that is accepted does to the cache; the devices stay. */
  ghost predicate SignInEffect(cfg: Config, s: Sys, s1: Sys, now: Time, user: User, device: Option<string>, e: Entropy, out: LoginOutcome) {
    && s1.core.db.devices == s.core.db.devices
    && match out
       case Rejected(_) => s1.core.cache == s.core.cache
       case LoggedIn(u, _, _) => s1.core.cache == s.core.cache && (user.mfaEnabled ==> DeviceTrusted(s.core, u, device))
       case Challenged(u, challenge) =>
         && user.mfaEnabled && challenge.id == e.uuid
         && exists state: Pending ::
              && state.LoginChallenge? && state.userId == u
              && s1.core.cache == SetItem(s.core.cache, ChallengeKey(e.uuid), state, cfg.challengeTtl, now)
  }

  lemma PasswordEffect(cfg: Config, s: Sys, now: Time, id: Id, read: User, rememberMe: bool, device: Option<string>, e: Entropy)
    requires id in s.core.db.users
    ensures var (s1, out) := PasswordAccepted(cfg, s, now, id, read, rememberMe, device, e);
            SignInEffect(cfg, s, s1, now, read, device, e, out) && !out.Rejected? && out.userId == id
  {
    hide ChallengeKey, AvailableMethods, MarkLoginSuccess;
    var s1 := s.(core := s.core.(db := s.core.db.(users := MarkLoginSuccess(s.core.db.users, id))));
    LoginKeepsAccounts(s.core.db.users, id);
    assert DeviceTrusted(s1.core, id, device) == DeviceTrusted(s.core, id, device);
    if read.mfaEnabled && !DeviceTrusted(s.core, id, device) {
      var state := LoginChallenge(id, rememberMe, AvailableMethods(s1.core.db.users[id]));
      assert PasswordAccepted(cfg, s, now, id, read, rememberMe, device, e).0.core.cache
          == SetItem(s.core.cache, ChallengeKey(e.uuid), state, cfg.challengeTtl, now);
    }
  }

  lemma EffectIgnoresUsers(cfg: Config, s: Sys, users: map<Id, User>, s1: Sys, drawn: set<string>, now: Time, user: User,
                           device: Option<string>, e: Entropy, out: LoginOutcome)
    requires SignInEffect(cfg, s.(core := s.core.(db := s.core.db.(users := users))), s1, now, user, device, e, out)
    ensures SignInEffect(cfg, s, s1.(drawn := drawn), now, user, device, e, out)
  {
    hide ChallengeKey, SetItem;
  }

  lemma AcceptedSignIn(cfg: Config, ev: Event, u: Id)
    requires ValidEvent(cfg, ev) && PasswordProven(cfg, ev, u)
    ensures ev.out.Login? && !ev.out.login.Rejected? && ev.out.login.userId == u
    ensures SignInEffect(cfg, ev.pre, ev.post, ev.now, ev.pre.core.db.users[u], ev.req.device, ev.entropy, ev.out.login)
  {
    hide HexDraw, Drawn, SignInEffect, PasswordAccepted, AfterUnlock, FailedLogin, PasswordMatches, Refusal;
    var s, req := ev.pre, ev.req;
    var user, users := s.core.db.users[u], AfterUnlock(s.core.db.users, u, ev.now);
    var t := s.(core := s.core.(db := s.core.db.(users := users)));
    var (s1, out) := PasswordAccepted(cfg, t, ev.now, u, user, req.rememberMe, req.device, ev.entropy);
    LoginAccounts(cfg, s.core.db.users, u, user, ev.now);
    PasswordEffect(cfg, t, ev.now, u, user, req.rememberMe, req.device, ev.entropy);
    EffectIgnoresUsers(cfg, s, users, s1, ev.post.drawn, ev.now, user, req.device, ev.entropy, out);
  }

  lemma RefusedLogin(cfg: Config, s: Sys, now: Time, email: string, password: string, rememberMe: bool, device: Option<string>, e: Entropy)
    requires var id := FindByEmail(s.core.db, email);
             id.Some? ==> Refusal(s.core.db.users[id.value], now).Some? || !PasswordMatches(cfg, s.core.db.users[id.value], password)
    ensures var (s1, out) := Protocol.Login(cfg, s, now, email, password, rememberMe, device, e);
            out.Rejected? && s1.core.cache == s.core.cache && s1.core.db.devices == s.core.db.devices
  {
    hide PasswordAccepted, AfterUnlock, FailedLogin, PasswordMatches, Refusal;
  }

  lemma RefusedSignIn(cfg: Config, ev: Event)
    requires ValidEvent(cfg, ev) && ev.req.SignIn?
    requires forall u :: !PasswordProven(cfg, ev, u)
    ensures ev.out.Login? && ev.out.login.Rejected?
    ensures ev.post.core.cache == ev.pre.core.cache && ev.post.core.db.devices == ev.pre.core.db.devices
  {
    hide HexDraw, Drawn, Protocol.Login, PasswordMatches, Refusal;
    if FindByEmail(ev.pre.core.db, ev.req.email).Some? {
      assert !PasswordProven(cfg, ev, FindByEmail(ev.pre.core.db, ev.req.email).value);
    }
    RefusedLogin(cfg, ev.pre, ev.now, ev.req.email, ev.req.password, ev.req.rememberMe, ev.req.device, ev.entropy);
  }

  // Everything else

  /** No login, no new challenge, no new device. */
  ghost predicate Quiet(ev: Event) {
    && !ev.out.Login?
    && ChallengesKept(ev.pre.core.cache, ev.post.core.cache)
    && ev.post.core.db.devices <= ev.pre.core.db.devices
    && forall u :: Disables(ev, u) ==> forall d | d in ev.post.core.db.devices :: d.0 != u
  }

  ghost predicate QuietCore(c: Core, c1: Core) {
    ChallengesKept(c.cache, c1.cache) && c1.db.devices <= c.db.devices
  }

  lemma AssertionQuiet(cfg: Config, c: Core, now: Time, id: string, random: string)
    ensures QuietCore(c, BeginWebAuthnLogin(cfg, c, now, id, random).0)
  {
    hide ChallengeKey, CeremonyKey, ChallengeUser, SetItem, ChallengesKept, Fewer;
    ReadFewer(c, now, id);
    var (c1, user) := ChallengeUser(c, now, id);
    FewerChallenges(c.cache, c1.cache);
    if user.Some? {
      CeremonySet(c1.cache, id, Ceremony(true, user.value, random), cfg.challengeTtl, now);
      ChallengesKeptOn(c.cache, c1.cache, SetItem(c1.cache, CeremonyKey(id), Ceremony(true, user.value, random), cfg.challengeTtl, now));
    }
  }

  lemma SameCacheQuiet(c: Core, c1: Core)
    requires c1.cache == c.cache && c1.db.devices <= c.db.devices
    ensures QuietCore(c, c1)
  {
  }

  lemma FinishKeyQuiet(cfg: Config, c: Core, now: Time, id: string, user: Id, registration: string, hex: seq<string>)
    requires HexDraw(hex)
    ensures QuietCore(c, CompleteWebAuthnRegistration(cfg, c, now, id, user, registration, hex).0)
  {
    FinishWebAuthnFrame(cfg, c, now, id, user, registration, hex);
    hide HexDraw, EnsureRecoveryCodes, GetItem, CeremonyKey, ChallengeKey, SetFlags, CredentialsOf;
    ReadFewer(c, now, id);
    var (cache, ceremony) := GetItem(c.cache, CeremonyKey(id), now);
    var c1 := c.(cache := cache);
    if ceremony.Some? && ceremony.value.Ceremony? {
      var credential := cfg.registrationOk(registration, ceremony.value.expectedChallenge);
      if credential.Some? {
        var (key, publicKey, counter) := credential.value;
        RegenerateFrame(RegisterKey(c1, id, key, Credential(user, publicKey, counter)), user, hex);
      }
    }
  }

  lemma ActQuiet(cfg: Config, c: Core, now: Time, user: Id, action: Action, e: Entropy)
    requires HexDraw(e.hex)
    ensures var (c1, out) := Act(cfg, c, now, user, action, e);
            && QuietCore(c, c1) && !out.Login?
            && (action.DisableMfa? && out == Accepted ==> forall d | d in c1.db.devices :: d.0 != user)
  {
    hide HexDraw, EnsureRecoveryCodes, RegenerateRecoveryCodes, CompleteWebAuthnRegistration, QuietCore, SetFlags, CredentialsOf,
      PasswordMatches, CeremonyKey, SetItem;
    var (c1, out) := Act(cfg, c, now, user, action, e);
    match action
    case StartTotp => SameCacheQuiet(c, c1);
    case FinishTotp(code) =>
      RegenerateFrame(c.(db := c.db.(totp := EnableTotp(c.db.totp, user), users := SetFlags(c.db.users, user, Some(true), None, Some(true)))),
                      user, e.hex);
      SameCacheQuiet(c, c1);
    case StartWebAuthn =>
      CeremonySet(c.cache, e.uuid, Ceremony(false, user, e.token), cfg.challengeTtl, now);
      SameCacheQuiet(c, c);
      CeremonyQuiet(c, SetItem(c.cache, CeremonyKey(e.uuid), Ceremony(false, user, e.token), cfg.challengeTtl, now));
    case FinishWebAuthn(id, registration) => FinishKeyQuiet(cfg, c, now, id, user, registration, e.hex);
    case RegenerateCodes(password) => RegenerateFrame(c, user, e.hex); SameCacheQuiet(c, c1);
    case RemoveKey(id) => SameCacheQuiet(c, c1);
    case DisableMfa(password) => SameCacheQuiet(c, c1);
  }

  lemma CeremonyQuiet(c: Core, cache: Store<Pending>)
    requires ChallengesKept(c.cache, cache)
    ensures QuietCore(c, c.(cache := cache))
  {
  }

  lemma OthersQuiet(cfg: Config, ev: Event)
    requires ValidEvent(cfg, ev) && !ev.req.SignIn? && !Answers(ev.req)
    ensures Quiet(ev)
  {
    var s, now, e := ev.pre, ev.now, ev.entropy;
    hide HexDraw, Drawn, QuietCore, Register, ResendVerification, VerifyEmail, BeginWebAuthnLogin, Refresh, Logout, Authenticate,
      RequireAdmin, Act, Order;
    SameCacheQuiet(s.core, s.core);
    match ev.req {
      case SignUp(email, password) => RegisterUsers(cfg, s.core, now, email, password, e.uuid, e.token); SameCacheQuiet(s.core, ev.post.core);
      case Resend(email) => ResendFrame(cfg, s.core, now, email, e.token); SameCacheQuiet(s.core, ev.post.core);
      case ConfirmEmail(token) => VerifyEmailFrame(s.core, now, token); SameCacheQuiet(s.core, ev.post.core);
      case StartAssertion(id) => AssertionQuiet(cfg, s.core, now, id, e.token);
      case RefreshSession(token) => RefreshFrame(cfg, s, now, token, e); SameCacheQuiet(s.core, ev.post.core);
      case SignOut(refresh, access) => LogoutFrame(s, now, refresh, access); SameCacheQuiet(s.core, ev.post.core);
      case Settings(access, action) =>
        if Authenticate(s, now, access).Ok? {
          ActQuiet(cfg, s.core, now, Authenticate(s, now, access).value, action, e);
        }
      case Administer(access, command) =>
        if Authenticate(s, now, access).Ok? {
          OrderFrame(s.core.db, Authenticate(s, now, access).value, command);
          OrdersDoNotLogIn(s.core.db, command);
          SameCacheQuiet(s.core, ev.post.core);
        }
    }
    QuietCoreMeans(s.core, ev.post.core);
  }

  lemma QuietCoreMeans(c: Core, c1: Core)
    requires QuietCore(c, c1)
    ensures ChallengesKept(c.cache, c1.cache) && c1.db.devices <= c.db.devices
  {
  }

  // ---------------------------------------------------------------------------
  // One event
  // ---------------------------------------------------------------------------

  predicate Opened(cfg: Config, ev: Event, id: string, item: Item<Pending>) {
    && Opens(cfg, ev, item.value.userId, id) && id == ev.entropy.uuid
    && item.expiresAt == Deadline(cfg.challengeTtl, ev.now)
  }

  /** A challenge in the cache was there before or was opened just now. */
  ghost predicate ChallengeStep(cfg: Config, ev: Event) {
    var a, b := ev.pre.core.cache, ev.post.core.cache;
    forall id | ChallengeKey(id) in b ::
      || (ChallengeKey(id) in a && b[ChallengeKey(id)] == a[ChallengeKey(id)])
      || Opened(cfg, ev, id, b[ChallengeKey(id)])
  }

  /** A trusted device was there before or was trusted just now, and disabling drops those of the account. */
  ghost predicate DeviceStep(cfg: Config, ev: Event) {
    forall u, h | (u, h) in ev.post.core.db.devices ::
      ((u, h) in ev.pre.core.db.devices && !Disables(ev, u)) || Trusts(cfg, ev, u, h)
  }

  /** A login takes a password and, if the account asks for it, a second factor or a trusted device. */
  ghost predicate LoginStep(cfg: Config, ev: Event) {
    forall u | LogsIn(ev, u) ::
      || (&& PasswordProven(cfg, ev, u)
          && (ev.pre.core.db.users[u].mfaEnabled ==> DeviceTrusted(ev.pre.core, u, ev.req.device)))
      || (Answers(ev.req) && FactorProven(cfg, ev, u) && ChallengeKey(ChallengeOf(ev.req)) !in ev.post.core.cache)
  }

  lemma QuietSteps(cfg: Config, ev: Event)
    requires Quiet(ev)
    ensures ChallengeStep(cfg, ev) && DeviceStep(cfg, ev) && LoginStep(cfg, ev)
  {
    hide Opened, Trusts, ChallengeKey;
  }

  lemma AnswerSteps(cfg: Config, ev: Event)
    requires Answers(ev.req) && ev.out.Login?
    requires AnswerEffect(ev.pre, ev.post, ev.now, ChallengeOf(ev.req), ev.out.login)
    requires ev.out.login.LoggedIn? ==> FactorProven(cfg, ev, ev.out.login.userId)
    ensures ChallengeStep(cfg, ev) && DeviceStep(cfg, ev) && LoginStep(cfg, ev)
  {
    hide Opened, ChallengeKey, LiveChallenge, FactorProven, PasswordProven;
  }

  lemma RefusedSteps(cfg: Config, ev: Event)
    requires ev.req.SignIn? && ev.out.Login? && ev.out.login.Rejected?
    requires ev.post.core.cache == ev.pre.core.cache && ev.post.core.db.devices == ev.pre.core.db.devices
    ensures ChallengeStep(cfg, ev) && DeviceStep(cfg, ev) && LoginStep(cfg, ev)
  {
    hide Opened, Trusts, ChallengeKey;
  }

  lemma SignInSteps(cfg: Config, ev: Event, u: Id)
    requires ev.req.SignIn? && PasswordProven(cfg, ev, u)
    requires ev.out.Login? && !ev.out.login.Rejected? && ev.out.login.userId == u
    requires SignInEffect(cfg, ev.pre, ev.post, ev.now, ev.pre.core.db.users[u], ev.req.device, ev.entropy, ev.out.login)
    ensures ChallengeStep(cfg, ev) && DeviceStep(cfg, ev) && LoginStep(cfg, ev)
  {
    hide ChallengeKey, CeremonyKey, PasswordProven, DeviceTrusted;
    KeysDistinct();
  }

  lemma EventSteps(cfg: Config, ev: Event)
    requires ValidEvent(cfg, ev) && Fits(ev.pre)
    ensures ChallengeStep(cfg, ev) && DeviceStep(cfg, ev) && LoginStep(cfg, ev)
  {
    hide ValidEvent, Fits, ChallengeStep, DeviceStep, LoginStep, Quiet, AnswerEffect, SignInEffect, PasswordProven, FactorProven;
    if Answers(ev.req) {
      AnswerEvent(cfg, ev);
      AnswerSteps(cfg, ev);
    } else if ev.req.SignIn? {
      if u :| PasswordProven(cfg, ev, u) {
        ProvenHasUser(cfg, ev, u);
        AcceptedSignIn(cfg, ev, u);
        SignInSteps(cfg, ev, u);
      } else {
        RefusedSignIn(cfg, ev);
        RefusedSteps(cfg, ev);
      }
    } else {
      OthersQuiet(cfg, ev);
      QuietSteps(cfg, ev);
    }
  }

  lemma ProvenHasUser(cfg: Config, ev: Event, u: Id)
    requires PasswordProven(cfg, ev, u)
    ensures ev.req.SignIn? && u in ev.pre.core.db.users
  {
  }

  lemma RunSteps(cfg: Config, run: seq<Event>, n: nat)
    requires ValidRun(cfg, run) && n < |run| && Fits(run[0].pre)
    ensures Fits(run[n].pre) && ChallengeStep(cfg, run[n]) && DeviceStep(cfg, run[n]) && LoginStep(cfg, run[n])
    ensures run[n].pre == StateAt(run, n) && run[n].post == StateAt(run, n + 1)
  {
    hide ValidEvent, Fits, ChallengeStep, DeviceStep, LoginStep;
    RunFits(cfg, run, n);
    EventSteps(cfg, run[n]);
  }

  // ---------------------------------------------------------------------------
  // Whole runs
  // ---------------------------------------------------------------------------

  /** Nobody is signed in, no challenge is pending and no device is trusted; accounts there may be. */
  ghost predicate Start(s: Sys) {
    && Fits(s) && s.core.db.sessions == map[] && s.core.db.devices == {}
    && forall id :: ChallengeKey(id) !in s.core.cache
  }

  lemma EmptyStarts()
    ensures Start(Empty) && AllNearExpiry(Empty)
  {
    EmptyFits();
  }

  ghost predicate OpenedBefore(cfg: Config, run: seq<Event>, n: nat, id: string, item: Item<Pending>)
    requires n <= |run|
  {
    exists i | 0 <= i < n :: Opened(cfg, run[i], id, item)
  }

  /** Every pending challenge was opened in the run, with the deadline it had then. */
  lemma {:induction false} ChallengesTrace(cfg: Config, run: seq<Event>, n: nat, id: string)
    requires ValidRun(cfg, run) && run != [] && n <= |run| && Start(run[0].pre)
    requires ChallengeKey(id) in StateAt(run, n).core.cache
    ensures OpenedBefore(cfg, run, n, id, StateAt(run, n).core.cache[ChallengeKey(id)])
  {
    hide ValidEvent, Fits, Opened, ChallengeKey, DeviceStep, LoginStep;
    if n > 0 {
      RunSteps(cfg, run, n - 1);
      if !Opened(cfg, run[n - 1], id, StateAt(run, n).core.cache[ChallengeKey(id)]) {
        ChallengesTrace(cfg, run, n - 1, id);
      }
    }
  }

  /** The device was trusted with a second factor of `u`, and `u` has not disabled second factors since. */
  ghost predicate TrustedSince(cfg: Config, run: seq<Event>, n: nat, u: Id, hash: Hash)
    requires n <= |run|
  {
    exists i | 0 <= i < n :: Trusts(cfg, run[i], u, hash) && forall j | i < j < n :: !Disables(run[j], u)
  }

  lemma {:induction false} DevicesTrace(cfg: Config, run: seq<Event>, n: nat, u: Id, hash: Hash)
    requires ValidRun(cfg, run) && run != [] && n <= |run| && Start(run[0].pre)
    requires (u, hash) in StateAt(run, n).core.db.devices
    ensures TrustedSince(cfg, run, n, u, hash)
  {
    hide ValidEvent, Fits, Trusts, Disables, ChallengeKey, ChallengeStep, LoginStep;
    if n > 0 {
      RunSteps(cfg, run, n - 1);
      if !Trusts(cfg, run[n - 1], u, hash) {
        DevicesTrace(cfg, run, n - 1, u, hash);
      }
    }
  }

  /**
   The login at `n` gave a second factor of `u` on a challenge that was opened earlier for
   `u` with the password, no longer ago than the time to live (if one is configured).
   */
  ghost predicate AnsweredChallenge(cfg: Config, run: seq<Event>, n: nat, u: Id)
    requires n < |run|
  {
    && Answers(run[n].req) && FactorProven(cfg, run[n], u)
    && exists i | 0 <= i < n ::
         && Opens(cfg, run[i], u, ChallengeOf(run[n].req))
         && (cfg.challengeTtl != 0 ==> run[n].now <= run[i].now + cfg.challengeTtl * 1000)
  }

  /** The login at `n` gave the password, and a trusted device if the account then had a second factor. */
  ghost predicate PasswordLogin(cfg: Config, run: seq<Event>, n: nat, u: Id)
    requires n < |run|
  {
    && PasswordProven(cfg, run[n], u)
    && (run[n].pre.core.db.users[u].mfaEnabled ==>
          run[n].req.device.Some? && TrustedSince(cfg, run, n, u, Sha256(run[n].req.device.value)))
  }

  lemma FactorOnLiveChallenge(cfg: Config, ev: Event, u: Id)
    requires Answers(ev.req) && FactorProven(cfg, ev, u)
    ensures LiveChallenge(ev.pre.core.cache, ChallengeOf(ev.req), u, ev.now)
  {
    hide LiveChallenge, TotpProven, KeyProven, Unused;
  }

  lemma AnsweredTraces(cfg: Config, run: seq<Event>, n: nat, u: Id)
    requires ValidRun(cfg, run) && n < |run| && Start(run[0].pre)
    requires Answers(run[n].req) && FactorProven(cfg, run[n], u)
    ensures AnsweredChallenge(cfg, run, n, u)
  {
    hide ValidEvent, ChallengeKey, Opens, FactorProven, Start, Answers;
    FactorOnLiveChallenge(cfg, run[n], u);
    var id := ChallengeOf(run[n].req);
    ChallengesTrace(cfg, run, n, id);
    var i :| 0 <= i < n && Opened(cfg, run[i], id, run[n].pre.core.cache[ChallengeKey(id)]);
    assert Opens(cfg, run[i], u, id);
  }

  /**
   Every login traces to the password of the account and, if the account had a second factor
   when the password was given, to that factor or to a device trusted with it since the last disabling.
   */
  lemma LoginTraces(cfg: Config, run: seq<Event>, n: nat, u: Id)
    requires ValidRun(cfg, run) && n < |run| && Start(run[0].pre) && LogsIn(run[n], u)
    ensures PasswordLogin(cfg, run, n, u) || AnsweredChallenge(cfg, run, n, u)
  {
    hide ValidEvent, Fits, ChallengeKey, PasswordProven, FactorProven, AnsweredChallenge, TrustedSince, ChallengeStep, DeviceStep;
    RunSteps(cfg, run, n);
    if PasswordProven(cfg, run[n], u) {
      ProvenHasUser(cfg, run[n], u);
      if DeviceTrusted(run[n].pre.core, u, run[n].req.device) {
        DevicesTrace(cfg, run, n, u, Sha256(run[n].req.device.value));
      }
    }
    if Answers(run[n].req) && FactorProven(cfg, run[n], u) {
      AnsweredTraces(cfg, run, n, u);
    }
  }

  // Sessions come from logins

  lemma IssuedOwner(cfg: Config, s: Sys, now: Time, userId: Id, rememberMe: bool, e: Entropy)
    ensures var (s1, tokens) := IssueTokens(cfg, s, now, userId, rememberMe, e);
            && tokens.refresh in s1.refreshTokens && s1.refreshTokens[tokens.refresh].sub == userId
  {
  }

  predicate OwnToken(s: Sys, out: LoginOutcome) {
    out.LoggedIn? ==> out.tokens.refresh in s.refreshTokens && s.refreshTokens[out.tokens.refresh].sub == out.userId
  }

  lemma FinishOwner(cfg: Config, s: Sys, now: Time, u: Id, d: Option<string>, e: Entropy)
    ensures var (s1, out) := FinishMfaLogin(cfg, s, now, u, d, e); OwnToken(s1, out)
  {
    hide IssueTokens;
    IssuedOwner(cfg, s, now, u, false, e);
  }

  lemma AnswerOwner(cfg: Config, s: Sys, now: Time, id: string, code: string, key: string, remember: bool, e: Entropy)
    ensures var (s1, out) := CompleteMfaTotp(cfg, s, now, id, code, remember, e); OwnToken(s1, out)
    ensures var (s1, out) := CompleteMfaRecovery(cfg, s, now, id, code, e); OwnToken(s1, out)
    ensures var (s1, out) := CompleteWebAuthnMfa(cfg, s, now, id, key, code, remember, e); OwnToken(s1, out)
  {
    hide FinishMfaLogin, VerifyTotpLogin, VerifyRecoveryLogin, VerifyWebAuthnLogin;
    var (c1, r1) := VerifyTotpLogin(cfg, s.core, now, id, code, remember, e.token);
    if r1.Ok? {
      FinishOwner(cfg, s.(core := c1), now, r1.value.userId, r1.value.deviceToken, e);
    }
    var (c2, r2) := VerifyRecoveryLogin(s.core, now, id, code);
    if r2.Ok? {
      FinishOwner(cfg, s.(core := c2), now, r2.value, None, e);
    }
    var (c3, r3) := VerifyWebAuthnLogin(cfg, s.core, now, id, key, code, remember, e.token);
    if r3.Ok? {
      FinishOwner(cfg, s.(core := c3), now, r3.value.userId, r3.value.deviceToken, e);
    }
  }

  lemma SignInOwner(cfg: Config, s: Sys, now: Time, id: Id, read: User, rememberMe: bool, device: Option<string>, e: Entropy)
    ensures var (s1, out) := PasswordAccepted(cfg, s, now, id, read, rememberMe, device, e); OwnToken(s1, out)
  {
    hide IssueTokens, DeviceTrusted, MarkLoginSuccess, AvailableMethods;
    IssuedOwner(cfg, s.(core := s.core.(db := s.core.db.(users := MarkLoginSuccess(s.core.db.users, id)))), now, id, rememberMe, e);
  }

  /** The token a login hands out is its account's. */
  lemma LoginOwner(cfg: Config, ev: Event)
    requires ValidEvent(cfg, ev) && ev.out.Login?
    ensures OwnToken(ev.post, ev.out.login)
  {
    hide HexDraw, Drawn, CompleteMfaTotp, CompleteMfaRecovery, CompleteWebAuthnMfa, PasswordAccepted, AfterUnlock, FailedLogin,
      PasswordMatches, Refusal, Refresh, Logout, Act, Order, Authenticate, RequireAdmin, Register, ResendVerification, VerifyEmail,
      BeginWebAuthnLogin, Quiet;
    var s, now, e := ev.pre, ev.now, ev.entropy;
    match ev.req
    case AnswerTotp(id, code, remember) => AnswerOwner(cfg, s, now, id, code, "", remember, e);
    case AnswerRecovery(id, code) => AnswerOwner(cfg, s, now, id, code, "", false, e);
    case AnswerWebAuthn(id, key, assertion, remember) => AnswerOwner(cfg, s, now, id, assertion, key, remember, e);
    case SignIn(email, password, rememberMe, device) =>
      if FindByEmail(s.core.db, email).Some? {
        var id := FindByEmail(s.core.db, email).value;
        var t := s.(core := s.core.(db := s.core.db.(users := AfterUnlock(s.core.db.users, id, now))));
        SignInOwner(cfg, t, now, id, s.core.db.users[id], rememberMe, device, e);
      }
    case _ => OthersQuiet(cfg, ev); QuietNoLogin(ev);
  }

  lemma QuietNoLogin(ev: Event)
    requires Quiet(ev)
    ensures !ev.out.Login?
  {
  }

  /** The event logs in `u` and creates the session. */
  predicate Creates(ev: Event, id: Id, u: Id) {
    LogsIn(ev, u) && id !in ev.pre.core.db.sessions && HandedFor(ev.post, HandedOut(ev.out), id)
  }

  /** A session that is new after an event is one a login of its owner created. */
  lemma NewSessionCreated(cfg: Config, ev: Event, id: Id)
    requires ValidEvent(cfg, ev) && Fits(ev.pre) && Fits(ev.post)
    requires id in ev.post.core.db.sessions && id !in ev.pre.core.db.sessions
    ensures Creates(ev, id, ev.post.core.db.sessions[id].userId)
  {
    EventEvolves(cfg, ev);
    TokenNamesSession(ev.post, HandedOut(ev.out).value);
    hide CoreFits, SessionsFit, Fits, OldSessions, TokensGrow;
    if ev.out.Refreshed? {
      RefreshedExists(cfg, ev);
      assert false;
    } else {
      hide ValidEvent;
      LoginOwner(cfg, ev);
    }
  }

  /** A refresh hands out a token for a session that exists. */
  lemma RefreshedExists(cfg: Config, ev: Event)
    requires ValidEvent(cfg, ev) && ev.out.Refreshed?
    ensures forall id :: HandedFor(ev.post, HandedOut(ev.out), id) ==> id in ev.pre.core.db.sessions
  {
    hide HexDraw, Drawn, SecondsUp, RotateToken, Act, Order, Authenticate, RequireAdmin, Evolves;
    match ev.req
    case Settings(access, action) =>
      if Authenticate(ev.pre, ev.now, access).Ok? {
        ActHandsOutNothing(cfg, ev.pre.core, ev.now, Authenticate(ev.pre, ev.now, access).value, action, ev.entropy);
      }
    case Administer(access, command) =>
      if Authenticate(ev.pre, ev.now, access).Ok? {
        OrderEvolves(ev.pre, Authenticate(ev.pre, ev.now, access).value, command);
      }
    case _ =>
  }

  /** The session was created by a login of `u` with the proofs that `LoginTraces` asks for. */
  ghost predicate ProperlyCreated(cfg: Config, run: seq<Event>, n: nat, id: Id, u: Id)
    requires n <= |run|
  {
    exists i | 0 <= i < n :: Creates(run[i], id, u) && (PasswordLogin(cfg, run, i, u) || AnsweredChallenge(cfg, run, i, u))
  }

  /** Every session there ever is, active or not, was created properly for the account that owns it. */
  lemma {:induction false} SessionsTrace(cfg: Config, run: seq<Event>, n: nat, id: Id)
    requires ValidRun(cfg, run) && run != [] && n <= |run| && Start(run[0].pre)
    requires id in StateAt(run, n).core.db.sessions
    ensures ProperlyCreated(cfg, run, n, id, StateAt(run, n).core.db.sessions[id].userId)
  {
    hide ValidEvent, Fits, Creates, PasswordLogin, AnsweredChallenge, NewSessions, TokensGrow, HandedOut, HandedFor;
    if n > 0 {
      RunEvolves(cfg, run, n - 1);
      RunFits(cfg, run, n);
      if id in run[n - 1].pre.core.db.sessions {
        SessionsTrace(cfg, run, n - 1, id);
      } else {
        NewSessionCreated(cfg, run[n - 1], id);
        CreatesLogsIn(run[n - 1], id, run[n - 1].post.core.db.sessions[id].userId);
        LoginTraces(cfg, run, n - 1, run[n - 1].post.core.db.sessions[id].userId);
      }
    }
  }

  lemma CreatesLogsIn(ev: Event, id: Id, u: Id)
    requires Creates(ev, id, u)
    ensures LogsIn(ev, u)
  {
  }

  // ---------------------------------------------------------------------------
  // A challenge completes one login
  // ---------------------------------------------------------------------------

  predicate Completes(ev: Event, id: string) {
    Answers(ev.req) && ChallengeOf(ev.req) == id && ev.out.Login? && ev.out.login.LoggedIn?
  }

  /** An identifier that was drawn and names no pending challenge never names one again. */
  ghost predicate Spent(s: Sys, id: string) {
    id in s.drawn && ChallengeKey(id) !in s.core.cache
  }

  lemma StaysSpent(cfg: Config, ev: Event, id: string)
    requires ValidEvent(cfg, ev) && ChallengeStep(cfg, ev) && Spent(ev.pre, id)
    ensures Spent(ev.post, id)
  {
    DrawnParts(ev.entropy);
    hide HexDraw, Drawn, Handle, ChallengeKey, Opens;
  }

  lemma {:induction false} SpentForGood(cfg: Config, run: seq<Event>, i: nat, j: nat, id: string)
    requires ValidRun(cfg, run) && run != [] && i <= j <= |run| && Fits(run[0].pre) && Spent(StateAt(run, i), id)
    ensures Spent(StateAt(run, j), id)
    decreases j
  {
    hide ValidEvent, Fits, Spent, ChallengeStep, DeviceStep, LoginStep;
    if i < j {
      SpentForGood(cfg, run, i, j - 1, id);
      RunSteps(cfg, run, j - 1);
      StaysSpent(cfg, run[j - 1], id);
    }
  }

  lemma CompletedIsSpent(cfg: Config, ev: Event, id: string)
    requires ValidEvent(cfg, ev) && Fits(ev.pre) && Completes(ev, id)
    ensures Spent(ev.post, id) && !Spent(ev.pre, id)
  {
    assert id in ev.pre.drawn && ChallengeKey(id) in ev.pre.core.cache && ChallengeKey(id) !in ev.post.core.cache by {
      AnswerEvent(cfg, ev);
      hide Step, FreshDraw, ChallengeKey, Fewer;
    }
    hide HexDraw, Drawn, Handle, Fits, ChallengeKey;
  }

  /** No challenge completes two logins, whichever methods answer it. */
  lemma CompletesOnce(cfg: Config, run: seq<Event>, i: nat, j: nat, id: string)
    requires ValidRun(cfg, run) && i < j < |run| && Fits(run[0].pre)
    ensures !(Completes(run[i], id) && Completes(run[j], id))
  {
    hide ValidEvent, Fits, Spent, Completes, ChallengeStep, DeviceStep, LoginStep;
    if Completes(run[i], id) && Completes(run[j], id) {
      RunSteps(cfg, run, i);
      RunSteps(cfg, run, j);
      CompletedIsSpent(cfg, run[i], id);
      SpentForGood(cfg, run, i + 1, j, id);
      CompletedIsSpent(cfg, run[j], id);
    }
  }

  /** Nor does one complete a login after its deadline; with a time to live of zero there is none. */
  lemma CompletesInTime(cfg: Config, run: seq<Event>, n: nat, id: string)
    requires ValidRun(cfg, run) && n < |run| && Start(run[0].pre) && Completes(run[n], id)
    ensures exists i | 0 <= i < n ::
              && Opens(cfg, run[i], run[n].out.login.userId, id)
              && (cfg.challengeTtl != 0 ==> run[n].now <= run[i].now + cfg.challengeTtl * 1000)
  {
    hide ValidEvent, Fits, FactorProven, Opens;
    RunFits(cfg, run, n);
    AnswerEvent(cfg, run[n]);
    AnsweredTraces(cfg, run, n, run[n].out.login.userId);
  }
}
