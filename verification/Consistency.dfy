/** Every step of every run keeps the tables, the tokens and the cache fitting together. */
module Consistency {
  import opened Wrappers
  import opened Rows
  import opened Cache
  import opened Protocol
  import opened Machine

  lemma KeysDistinct()
    ensures forall a, b :: ChallengeKey(a) == ChallengeKey(b) ==> a == b
    ensures forall a, b :: CeremonyKey(a) == CeremonyKey(b) ==> a == b
    ensures forall a, b :: ChallengeKey(a) != CeremonyKey(b)
  {
    forall a, b | ChallengeKey(a) == ChallengeKey(b) ensures a == b {
      assert ChallengeKey(a)[20..] == a && ChallengeKey(b)[20..] == b;
    }
    forall a, b | CeremonyKey(a) == CeremonyKey(b) ensures a == b {
      assert CeremonyKey(a)[13..] == a && CeremonyKey(b)[13..] == b;
    }
    forall a, b ensures ChallengeKey(a) != CeremonyKey(b) {
      assert ChallengeKey(a)[4] == 'l' && CeremonyKey(b)[4] == 'c';
    }
  }

  // ---------------------------------------------------------------------------
  // Parts
  // ---------------------------------------------------------------------------

  /** The same accounts under the same addresses; what the rows say may differ. */
  ghost predicate SameAccounts(a: map<Id, User>, b: map<Id, User>) {
    a.Keys == b.Keys && forall u | u in a :: b[u].email == a[u].email
  }

  lemma AccountsKept(c: Core, users: map<Id, User>, drawn: set<string>)
    requires CoreFits(c, drawn) && SameAccounts(c.db.users, users)
    ensures CoreFits(c.(db := c.db.(users := users)), drawn)
  {
  }

  lemma DrawMore(c: Core, drawn: set<string>, more: set<string>)
    requires CoreFits(c, drawn)
    ensures CoreFits(c, drawn + more)
  {
  }

  lemma SessionsKept(s: Sys, core: Core, drawn: set<string>)
    requires SessionsFit(s) && core.db.sessions == s.core.db.sessions && s.core.db.users.Keys <= core.db.users.Keys
    requires s.drawn <= drawn
    ensures SessionsFit(s.(core := core, drawn := drawn))
  {
  }

  lemma CacheGetFits(c: Core, drawn: set<string>, key: string, now: Time)
    requires CoreFits(c, drawn)
    ensures CoreFits(c.(cache := GetItem(c.cache, key, now).0), drawn)
  {
    hide ChallengeKey, CeremonyKey;
  }

  lemma CacheDropFits(c: Core, drawn: set<string>, key: string)
    requires CoreFits(c, drawn)
    ensures CoreFits(c.(cache := c.cache - {key}), drawn)
  {
    hide ChallengeKey, CeremonyKey;
  }

  lemma CachePutFits(c: Core, drawn: set<string>, id: string, state: Pending, ttl: int, now: Time)
    requires CoreFits(c, drawn)
    ensures state.LoginChallenge? && state.userId in c.db.users && id in drawn ==>
              CoreFits(c.(cache := SetItem(c.cache, ChallengeKey(id), state, ttl, now)), drawn)
    ensures state.Ceremony? ==> CoreFits(c.(cache := SetItem(c.cache, CeremonyKey(id), state, ttl, now)), drawn)
  {
    hide ChallengeKey, CeremonyKey;
    KeysDistinct();
  }

  /** Another session status, or a session whose hash is that of a newly issued token. */
  lemma SessionChangeFits(s: Sys, id: Id, session: Session)
    requires SessionsFit(s) && id in s.core.db.sessions
    requires session.userId == s.core.db.sessions[id].userId
    requires session.refreshTokenHash.text in s.refreshTokens && s.refreshTokens[session.refreshTokenHash.text].jti == id
    ensures SessionsFit(WithSessions(s, s.core.db.sessions[id := session]))
  {
  }

  lemma TokenFits(s: Sys, token: string, claims: RefreshClaims, access: string, accessClaims: AccessClaims, drawn: set<string>)
    requires SessionsFit(s) && s.drawn <= drawn && token in drawn && access in drawn && token !in s.refreshTokens
    requires claims.jti in s.core.db.sessions && claims.sub == s.core.db.sessions[claims.jti].userId
    requires accessClaims.sessionId == claims.jti && accessClaims.sub == claims.sub
    ensures SessionsFit(s.(refreshTokens := s.refreshTokens[token := claims],
                           accessTokens := s.accessTokens[access := accessClaims], drawn := drawn))
  {
  }

  // ---------------------------------------------------------------------------
  // Request by request
  // ---------------------------------------------------------------------------

  /** The fit after a request, with the values it drew recorded. */
  ghost predicate FitsAfter(s: Sys, s1: Sys, e: Entropy)
    requires HexDraw(e.hex)
  {
    Fits(s1.(drawn := s.drawn + Drawn(e)))
  }

  /** Freshly drawn values name no session and no token yet. */
  lemma NotYetUsed(s: Sys, value: string)
    requires SessionsFit(s) && value !in s.drawn
    ensures value !in s.core.db.sessions && value !in s.refreshTokens && value !in s.accessTokens
  {
  }

  lemma NewSessionFits(s: Sys, id: Id, session: Session, exp: Time, access: string, accessExp: Time, drawn: set<string>)
    requires SessionsFit(s) && id !in s.core.db.sessions && session.userId in s.core.db.users
    requires s.drawn <= drawn && id in drawn && session.refreshTokenHash.text in drawn && access in drawn
    requires session.refreshTokenHash.text !in s.refreshTokens
    ensures SessionsFit(s.(core := s.core.(db := s.core.db.(sessions := s.core.db.sessions[id := session])),
                           refreshTokens := s.refreshTokens[session.refreshTokenHash.text := RefreshClaims(session.userId, id, exp)],
                           accessTokens := s.accessTokens[access := AccessClaims(session.userId, id, accessExp)],
                           drawn := drawn))
  {
  }

  lemma IssueTokensFits(cfg: Config, s: Sys, now: Time, userId: Id, rememberMe: bool, e: Entropy, drawn: set<string>)
    requires SessionsFit(s) && userId in s.core.db.users && s.drawn <= drawn
    requires {e.uuid, e.access, e.refresh} !! s.drawn && {e.uuid, e.access, e.refresh} <= drawn
    ensures SessionsFit(IssueTokens(cfg, s, now, userId, rememberMe, e).0.(drawn := drawn))
  {
    hide SessionsFit;
    NotYetUsed(s, e.uuid);
    NotYetUsed(s, e.refresh);
    var ttl := SessionTtl(cfg, rememberMe);
    NewSessionFits(s, e.uuid, Session(userId, Sha256(e.refresh), Active, now + ttl * 1000), now + ttl * 1000,
                   e.access, now + cfg.accessTtl * 1000, drawn);
  }

  lemma SessionsIgnored(c: Core, sessions: map<Id, Session>, drawn: set<string>)
    requires CoreFits(c, drawn)
    ensures CoreFits(c.(db := c.db.(sessions := sessions)), drawn)
  {
  }

  lemma LoginAccounts(cfg: Config, users: map<Id, User>, id: Id, read: User, now: Time)
    ensures SameAccounts(users, AfterUnlock(users, id, now))
    ensures SameAccounts(users, FailedLogin(cfg, AfterUnlock(users, id, now), id, read, now))
    ensures SameAccounts(users, MarkLoginSuccess(AfterUnlock(users, id, now), id))
  {
  }

  lemma PasswordAcceptedFits(cfg: Config, s: Sys, now: Time, id: Id, read: User, rememberMe: bool,
                             device: Option<string>, e: Entropy)
    requires Fits(s) && FreshDraw(s, e) && id in s.core.db.users
    ensures FitsAfter(s, PasswordAccepted(cfg, s, now, id, read, rememberMe, device, e).0, e)
  {
    hide UsersFit, FactorsFit, CacheFits, SessionsFit, CoreFits, IssueTokens, HexDraw, Drawn;
    var drawn := s.drawn + Drawn(e);
    DrawnParts(e);
    var users := MarkLoginSuccess(s.core.db.users, id);
    var c1 := s.core.(db := s.core.db.(users := users));
    var s1 := s.(core := c1);
    AccountsKept(s.core, users, s.drawn);
    DrawMore(c1, s.drawn, Drawn(e));
    SessionsKept(s, c1, s.drawn);
    if read.mfaEnabled && !DeviceTrusted(c1, id, device) {
      var state := LoginChallenge(id, rememberMe, AvailableMethods(c1.db.users[id]));
      CachePutFits(c1, drawn, e.uuid, state, cfg.challengeTtl, now);
      SessionsKept(s1, IssueLoginChallenge(cfg, c1, now, id, rememberMe, e.uuid).0, drawn);
    } else {
      IssueTokensFits(cfg, s1, now, id, rememberMe, e, drawn);
      SessionsIgnored(c1, IssueTokens(cfg, s1, now, id, rememberMe, e).0.core.db.sessions, drawn);
      IssueTokensFrame(cfg, s1, now, id, rememberMe, e);
    }
  }

  lemma DrawnParts(e: Entropy)
    requires HexDraw(e.hex)
    ensures {e.uuid, e.access, e.refresh, e.token} <= Drawn(e)
  {
  }

  lemma IssueTokensFrame(cfg: Config, s: Sys, now: Time, userId: Id, rememberMe: bool, e: Entropy)
    ensures var s1 := IssueTokens(cfg, s, now, userId, rememberMe, e).0;
            s1.core == s.core.(db := s.core.db.(sessions := s1.core.db.sessions))
  {
  }

  lemma LoginKnownFits(cfg: Config, s: Sys, now: Time, id: Id, password: string, rememberMe: bool,
                       device: Option<string>, e: Entropy)
    requires Fits(s) && FreshDraw(s, e) && id in s.core.db.users
    ensures FitsAfter(s, LoginKnown(cfg, s, now, id, password, rememberMe, device, e).0, e)
  {
    hide CoreFits, SessionsFit, PasswordAccepted, FailedLogin, AfterUnlock, HexDraw, Drawn, PasswordMatches, Refusal;
    var user := s.core.db.users[id];
    LoginAccounts(cfg, s.core.db.users, id, user, now);
    var users := AfterUnlock(s.core.db.users, id, now);
    UsersChangedFits(s, users, e);
    UsersChangedFits(s, FailedLogin(cfg, users, id, user, now), e);
    var s1 := s.(core := s.core.(db := s.core.db.(users := users)));
    AccountsKept(s.core, users, s.drawn);
    SessionsKept(s, s1.core, s.drawn);
    PasswordAcceptedFits(cfg, s1, now, id, user, rememberMe, device, e);
  }

  lemma LoginFits(cfg: Config, s: Sys, now: Time, email: string, password: string, rememberMe: bool,
                  device: Option<string>, e: Entropy)
    requires Fits(s) && FreshDraw(s, e)
    ensures FitsAfter(s, Protocol.Login(cfg, s, now, email, password, rememberMe, device, e).0, e)
  {
    hide Fits, FitsAfter, LoginKnown, HexDraw, Drawn;
    NothingFits(s, e);
    if FindByEmail(s.core.db, email).Some? {
      LoginKnownFits(cfg, s, now, FindByEmail(s.core.db, email).value, password, rememberMe, device, e);
    }
  }

  lemma UsersChangedFits(s: Sys, users: map<Id, User>, e: Entropy)
    requires Fits(s) && HexDraw(e.hex) && SameAccounts(s.core.db.users, users)
    ensures FitsAfter(s, s.(core := s.core.(db := s.core.db.(users := users))), e)
  {
    hide UsersFit, FactorsFit, CacheFits, SessionsFit, CoreFits;
    var c1 := s.core.(db := s.core.db.(users := users));
    AccountsKept(s.core, users, s.drawn);
    DrawMore(c1, s.drawn, Drawn(e));
    SessionsKept(s, c1, s.drawn + Drawn(e));
  }

  // Second-factor requests change the core only

  /** No session is touched and no account goes. */
  ghost predicate CoreFrame(c: Core, c1: Core) {
    c1.db.sessions == c.db.sessions && c.db.users.Keys <= c1.db.users.Keys
  }

  lemma CoreRequestFits(s: Sys, c1: Core, e: Entropy)
    requires Fits(s) && HexDraw(e.hex) && CoreFrame(s.core, c1) && CoreFits(c1, s.drawn + Drawn(e))
    ensures FitsAfter(s, s.(core := c1), e)
  {
    hide CoreFits, SessionsFit, Drawn;
    SessionsKept(s, c1, s.drawn + Drawn(e));
  }

  lemma FactorsChanged(c: Core, db1: Tables, drawn: set<string>)
    requires CoreFits(c, drawn) && FactorsFit(db1, drawn)
    requires db1 == c.db.(totp := db1.totp, recovery := db1.recovery, credentials := db1.credentials, devices := db1.devices)
    ensures CoreFits(c.(db := db1), drawn)
  {
    hide FactorsFit;
  }

  lemma ChallengeUserFits(c: Core, drawn: set<string>, now: Time, id: string)
    requires CoreFits(c, drawn)
    ensures var (c1, user) := ChallengeUser(c, now, id);
            && CoreFits(c1, drawn) && c1.db == c.db
            && (user.Some? ==> user.value in c.db.users && ChallengeKey(id) in c.cache && c1 == c)
  {
    CacheGetFits(c, drawn, ChallengeKey(id), now);
  }

  lemma TrustDeviceFits(c: Core, drawn: set<string>, userId: Id, remember: bool, token: string)
    requires CoreFits(c, drawn) && userId in c.db.users && token in drawn
    ensures CoreFits(TrustDevice(c, userId, remember, token).0, drawn)
  {
    FactorsChanged(c, TrustDevice(c, userId, remember, token).0.db, drawn);
  }

  lemma TotpLoginFits(cfg: Config, c: Core, drawn: set<string>, now: Time, id: string, code: string, remember: bool, token: string)
    requires CoreFits(c, drawn) && token in drawn
    ensures var (c1, r) := VerifyTotpLogin(cfg, c, now, id, code, remember, token);
            CoreFits(c1, drawn) && CoreFrame(c, c1) && (r.Ok? ==> r.value.userId in c1.db.users)
  {
    hide CoreFits, ChallengeUser;
    ChallengeUserFits(c, drawn, now, id);
    var (c1, user) := ChallengeUser(c, now, id);
    if user.Some? {
      CacheDropFits(c1, drawn, ChallengeKey(id));
      TrustDeviceFits(c1.(cache := c1.cache - {ChallengeKey(id)}), drawn, user.value, remember, token);
    }
  }

  lemma ClaimFits(c: Core, drawn: set<string>, userId: Id, hash: Hash, now: Time)
    requires CoreFits(c, drawn)
    ensures CoreFits(c.(db := c.db.(recovery := ConsumeRecoveryCode(c.db.recovery, userId, hash, now).0)), drawn)
  {
    FactorsChanged(c, c.db.(recovery := ConsumeRecoveryCode(c.db.recovery, userId, hash, now).0), drawn);
  }

  lemma RecoveryLoginFits(c: Core, drawn: set<string>, now: Time, id: string, code: string)
    requires CoreFits(c, drawn)
    ensures var (c1, r) := VerifyRecoveryLogin(c, now, id, code);
            CoreFits(c1, drawn) && CoreFrame(c, c1) && (r.Ok? ==> r.value in c1.db.users)
  {
    hide ChallengeUser, ChallengeKey, Normalize, CoreFits;
    ChallengeUserFits(c, drawn, now, id);
    var (c1, user) := ChallengeUser(c, now, id);
    if user.Some? {
      ClaimFits(c1, drawn, user.value, Sha256(Normalize(code)), now);
      var recovery := ConsumeRecoveryCode(c1.db.recovery, user.value, Sha256(Normalize(code)), now).0;
      CacheDropFits(c1.(db := c1.db.(recovery := recovery)), drawn, ChallengeKey(id));
    }
  }

  lemma AssertionFits(cfg: Config, c: Core, drawn: set<string>, now: Time, id: string, random: string)
    requires CoreFits(c, drawn)
    ensures var c1 := BeginWebAuthnLogin(cfg, c, now, id, random).0; CoreFits(c1, drawn) && CoreFrame(c, c1)
  {
    hide CoreFits, ChallengeUser;
    ChallengeUserFits(c, drawn, now, id);
    var (c1, user) := ChallengeUser(c, now, id);
    if user.Some? {
      CachePutFits(c1, drawn, id, Ceremony(true, user.value, random), cfg.challengeTtl, now);
    }
  }

  lemma WebAuthnLoginFits(cfg: Config, c: Core, drawn: set<string>, now: Time, id: string, credentialId: string,
                          assertion: string, remember: bool, token: string)
    requires CoreFits(c, drawn) && token in drawn
    ensures var (c1, r) := VerifyWebAuthnLogin(cfg, c, now, id, credentialId, assertion, remember, token);
            CoreFits(c1, drawn) && CoreFrame(c, c1) && (r.Ok? ==> r.value.userId in c1.db.users)
  {
    hide CoreFits, ChallengeUser, GetItem, ChallengeKey, CeremonyKey;
    ChallengeUserFits(c, drawn, now, id);
    var (c1, user) := ChallengeUser(c, now, id);
    if user.Some? {
      CacheGetFits(c1, drawn, CeremonyKey(id), now);
      var (cache, ceremony) := GetItem(c1.cache, CeremonyKey(id), now);
      var c2 := c1.(cache := cache);
      if ceremony.Some? && ceremony.value.Ceremony? && credentialId in CredentialsOf(c2.db.credentials, user.value) {
        var counter := cfg.assertionOk(assertion, ceremony.value.expectedChallenge, c2.db.credentials[credentialId]);
        if counter.Some? {
          CounterFits(c2, drawn, credentialId, counter.value);
          var c3 := c2.(db := c2.db.(credentials := UpdateCounter(c2.db.credentials, credentialId, counter.value)));
          CacheDropFits(c3, drawn, CeremonyKey(id));
          var c4 := c3.(cache := c3.cache - {CeremonyKey(id)});
          CacheDropFits(c4, drawn, ChallengeKey(id));
          TrustDeviceFits(c4.(cache := c4.cache - {ChallengeKey(id)}), drawn, user.value, remember, token);
        }
      }
    }
  }

  lemma CounterFits(c: Core, drawn: set<string>, id: string, counter: int)
    requires CoreFits(c, drawn)
    ensures CoreFits(c.(db := c.db.(credentials := UpdateCounter(c.db.credentials, id, counter))), drawn)
  {
    FactorsChanged(c, c.db.(credentials := UpdateCounter(c.db.credentials, id, counter)), drawn);
  }

  lemma RegenerateFits(c: Core, drawn: set<string>, userId: Id, e: Entropy)
    requires CoreFits(c, drawn) && HexDraw(e.hex) && Drawn(e) <= drawn && userId in c.db.users
    ensures CoreFits(RegenerateRecoveryCodes(c, userId, e.hex).0, drawn)
    ensures CoreFrame(c, RegenerateRecoveryCodes(c, userId, e.hex).0)
    ensures CoreFits(EnsureRecoveryCodes(c, userId, e.hex).0, drawn)
    ensures CoreFrame(c, EnsureRecoveryCodes(c, userId, e.hex).0)
  {
    hide Normalize, FormatRecoveryCode, CacheFits, UsersFit;
    var hashes := RecoveryHashes(e.hex);
    forall i | 0 <= i < |hashes| ensures hashes[i].text in drawn {
      assert NormalCodes(e)[i] in Drawn(e);
    }
    FactorsChanged(c, RegenerateRecoveryCodes(c, userId, e.hex).0.db, drawn);
  }

  lemma FlagsKept(users: map<Id, User>, id: Id, totp: Option<bool>, webauthn: Option<bool>, mfa: Option<bool>)
    ensures SameAccounts(users, SetFlags(users, id, totp, webauthn, mfa))
  {
  }

  lemma CredentialsFits(c: Core, drawn: set<string>, credentials: map<string, Credential>)
    requires CoreFits(c, drawn) && forall k | k in credentials :: credentials[k].userId in c.db.users
    ensures CoreFits(c.(db := c.db.(credentials := credentials)), drawn)
  {
    FactorsChanged(c, c.db.(credentials := credentials), drawn);
  }

  lemma TotpFits(c: Core, drawn: set<string>, totp: map<Id, TotpRecord>)
    requires CoreFits(c, drawn) && totp.Keys <= c.db.users.Keys
    ensures CoreFits(c.(db := c.db.(totp := totp)), drawn)
  {
    FactorsChanged(c, c.db.(totp := totp), drawn);
  }

  lemma EnableTotpFits(c: Core, drawn: set<string>, userId: Id)
    requires CoreFits(c, drawn)
    ensures CoreFits(c.(db := c.db.(totp := EnableTotp(c.db.totp, userId))), drawn)
  {
    TotpFits(c, drawn, EnableTotp(c.db.totp, userId));
  }

  lemma FinishTotpFits(cfg: Config, c: Core, drawn: set<string>, now: Time, userId: Id, code: string, e: Entropy)
    requires CoreFits(c, drawn) && HexDraw(e.hex) && Drawn(e) <= drawn && userId in c.db.users
    ensures var c1 := CompleteTotpEnrollment(cfg, c, now, userId, code, e.hex).0; CoreFits(c1, drawn) && CoreFrame(c, c1)
  {
    hide CoreFits, EnsureRecoveryCodes, SetFlags, EnableTotp, HexDraw, Drawn;
    EnableTotpFits(c, drawn, userId);
    var c1 := c.(db := c.db.(totp := EnableTotp(c.db.totp, userId)));
    FlagsKept(c.db.users, userId, Some(true), None, Some(true));
    var users := SetFlags(c.db.users, userId, Some(true), None, Some(true));
    AccountsKept(c1, users, drawn);
    RegenerateFits(c1.(db := c1.db.(users := users)), drawn, userId, e);
  }

  lemma NewKeyFits(c: Core, drawn: set<string>, key: string, credential: Credential)
    requires CoreFits(c, drawn) && credential.userId in c.db.users
    ensures CoreFits(c.(db := c.db.(credentials := c.db.credentials[key := credential])), drawn)
  {
    CredentialsFits(c, drawn, c.db.credentials[key := credential]);
  }

  lemma FinishWebAuthnFits(cfg: Config, c: Core, drawn: set<string>, now: Time, id: string, userId: Id,
                           registration: string, e: Entropy)
    requires CoreFits(c, drawn) && HexDraw(e.hex) && Drawn(e) <= drawn && userId in c.db.users
    ensures var c1 := CompleteWebAuthnRegistration(cfg, c, now, id, userId, registration, e.hex).0;
            CoreFits(c1, drawn) && CoreFrame(c, c1)
  {
    hide CoreFits, EnsureRecoveryCodes, SetFlags, HexDraw, Drawn, GetItem, CeremonyKey;
    CacheGetFits(c, drawn, CeremonyKey(id), now);
    var (cache, ceremony) := GetItem(c.cache, CeremonyKey(id), now);
    var c1 := c.(cache := cache);
    if ceremony.Some? && ceremony.value.Ceremony? {
      var credential := cfg.registrationOk(registration, ceremony.value.expectedChallenge);
      if credential.Some? {
        var (key, publicKey, counter) := credential.value;
        NewKeyFits(c1, drawn, key, Credential(userId, publicKey, counter));
        var c2 := c1.(db := c1.db.(credentials := c1.db.credentials[key := Credential(userId, publicKey, counter)]));
        FlagsKept(c1.db.users, userId, None, Some(true), Some(true));
        var users := SetFlags(c1.db.users, userId, None, Some(true), Some(true));
        AccountsKept(c2, users, drawn);
        var c3 := c2.(db := c2.db.(users := users));
        CacheDropFits(c3, drawn, CeremonyKey(id));
        RegenerateFits(c3.(cache := c3.cache - {CeremonyKey(id)}), drawn, userId, e);
      }
    }
  }

  lemma DeletedKeyFits(c: Core, drawn: set<string>, userId: Id, credentialId: string)
    requires CoreFits(c, drawn)
    ensures CoreFits(c.(db := c.db.(credentials := DeleteCredential(c.db.credentials, userId, credentialId))), drawn)
  {
    CredentialsFits(c, drawn, DeleteCredential(c.db.credentials, userId, credentialId));
  }

  lemma RemoveKeyFits(c: Core, drawn: set<string>, userId: Id, credentialId: string)
    requires CoreFits(c, drawn)
    ensures var c1 := RemoveWebAuthnCredential(c, userId, credentialId).0; CoreFits(c1, drawn) && CoreFrame(c, c1)
  {
    hide CoreFits, SetFlags, DeleteCredential;
    DeletedKeyFits(c, drawn, userId, credentialId);
    FlagsKept(c.db.users, userId, None, Some(false), Some(false));
    FlagsKept(c.db.users, userId, None, Some(false), None);
    var c1 := c.(db := c.db.(credentials := DeleteCredential(c.db.credentials, userId, credentialId)));
    AccountsKept(c1, c.db.users, drawn);
    AccountsKept(c1, SetFlags(c.db.users, userId, None, Some(false), Some(false)), drawn);
    AccountsKept(c1, SetFlags(c.db.users, userId, None, Some(false), None), drawn);
  }

  function Cleared(c: Core, userId: Id): Core {
    c.(db := c.db.(
      totp := c.db.totp - {userId},
      recovery := DeleteRecoveryCodes(c.db.recovery, userId),
      credentials := c.db.credentials - CredentialsOf(c.db.credentials, userId),
      devices := RevokeAllTrustedDevices(c.db.devices, userId)))
  }

  lemma ClearedFits(c: Core, drawn: set<string>, userId: Id)
    requires CoreFits(c, drawn)
    ensures CoreFits(Cleared(c, userId), drawn)
  {
    hide CacheFits, UsersFit;
    FactorsChanged(c, Cleared(c, userId).db, drawn);
  }

  lemma DisableFits(cfg: Config, c: Core, drawn: set<string>, userId: Id, password: string)
    requires CoreFits(c, drawn)
    ensures var c1 := Disable(cfg, c, userId, password).0; CoreFits(c1, drawn) && CoreFrame(c, c1)
  {
    hide CoreFits, SetFlags, PasswordMatches, DeleteRecoveryCodes, CredentialsOf, RevokeAllTrustedDevices;
    ClearedFits(c, drawn, userId);
    FlagsKept(c.db.users, userId, Some(false), Some(false), Some(false));
    AccountsKept(Cleared(c, userId), SetFlags(c.db.users, userId, Some(false), Some(false), Some(false)), drawn);
  }

  lemma ActFits(cfg: Config, c: Core, drawn: set<string>, now: Time, user: Id, action: Action, e: Entropy)
    requires CoreFits(c, drawn) && HexDraw(e.hex) && Drawn(e) <= drawn && user in c.db.users
    ensures var c1 := Act(cfg, c, now, user, action, e).0; CoreFits(c1, drawn) && CoreFrame(c, c1)
  {
    hide CoreFits, FactorsFit, CompleteTotpEnrollment, CompleteWebAuthnRegistration, RegenerateRecoveryCodes,
      RemoveWebAuthnCredential, Disable, HexDraw, Drawn;
    match action
    case StartTotp => StartTotpFits(c, drawn, user, cfg.encrypt(e.token));
    case FinishTotp(code) => FinishTotpFits(cfg, c, drawn, now, user, code, e);
    case StartWebAuthn => CachePutFits(c, drawn, e.uuid, Ceremony(false, user, e.token), cfg.challengeTtl, now);
    case FinishWebAuthn(id, registration) => FinishWebAuthnFits(cfg, c, drawn, now, id, user, registration, e);
    case RegenerateCodes(password) => RegenerateFits(c, drawn, user, e);
    case RemoveKey(id) => RemoveKeyFits(c, drawn, user, id);
    case DisableMfa(password) => DisableFits(cfg, c, drawn, user, password);
  }

  lemma StartTotpFits(c: Core, drawn: set<string>, userId: Id, secret: string)
    requires CoreFits(c, drawn) && userId in c.db.users
    ensures CoreFits(c.(db := c.db.(totp := UpsertPendingTotp(c.db.totp, userId, secret))), drawn)
  {
    TotpFits(c, drawn, UpsertPendingTotp(c.db.totp, userId, secret));
  }

  // Registration and email verification

  lemma VerificationsFit(c: Core, drawn: set<string>, verifications: map<Hash, EmailVerification>)
    requires CoreFits(c, drawn)
    requires forall h | h in verifications :: h.text in drawn && verifications[h].userId in c.db.users
    ensures CoreFits(c.(db := c.db.(verifications := verifications)), drawn)
  {
    hide CacheFits;
    assert CacheFits(c.(db := c.db.(verifications := verifications)), drawn) by { CacheIgnores(c, verifications, drawn); }
  }

  lemma CacheIgnores(c: Core, verifications: map<Hash, EmailVerification>, drawn: set<string>)
    ensures CacheFits(c, drawn) == CacheFits(c.(db := c.db.(verifications := verifications)), drawn)
  {
    hide ChallengeKey, CeremonyKey;
  }

  lemma IssueVerificationFits(cfg: Config, c: Core, drawn: set<string>, now: Time, userId: Id, token: string)
    requires CoreFits(c, drawn) && userId in c.db.users && token in drawn
    ensures var c1 := IssueVerificationToken(cfg, c, now, userId, token); CoreFits(c1, drawn) && CoreFrame(c, c1)
  {
    hide CacheFits, FactorsFit;
    VerificationsFit(c, drawn, IssueVerificationToken(cfg, c, now, userId, token).db.verifications);
  }

  lemma NewAccountFits(c: Core, drawn: set<string>, id: Id, user: User)
    requires CoreFits(c, drawn) && id in drawn && id !in c.db.users && user.email !in c.db.emails
    ensures CoreFits(c.(db := c.db.(users := c.db.users[id := user], emails := c.db.emails[user.email := id])), drawn)
  {
    hide ChallengeKey, CeremonyKey;
  }

  lemma RegisterFits(cfg: Config, c: Core, drawn: set<string>, now: Time, email: string, password: string, uuid: string, token: string)
    requires CoreFits(c, drawn) && {uuid, token} <= drawn && uuid !in c.db.users
    ensures var c1 := Register(cfg, c, now, email, password, uuid, token); CoreFits(c1, drawn) && CoreFrame(c, c1)
    ensures var c1 := ResendVerification(cfg, c, now, email, token); CoreFits(c1, drawn) && CoreFrame(c, c1)
  {
    assert email in c.db.emails ==> c.db.emails[email] in c.db.users;
    hide CoreFits, IssueVerificationToken;
    match FindByEmail(c.db, email)
    case Some(id) => IssueVerificationFits(cfg, c, drawn, now, id, token);
    case None =>
      var user := NewUser(cfg, email, password);
      NewAccountFits(c, drawn, uuid, user);
      IssueVerificationFits(cfg, c.(db := c.db.(users := c.db.users[uuid := user], emails := c.db.emails[email := uuid])),
                            drawn, now, uuid, token);
  }

  lemma MarkUsedFits(c: Core, drawn: set<string>, hash: Hash, now: Time)
    requires CoreFits(c, drawn)
    ensures CoreFits(c.(db := c.db.(verifications := MarkUsed(c.db.verifications, hash, now))), drawn)
  {
    hide CacheFits, FactorsFit;
    VerificationsFit(c, drawn, MarkUsed(c.db.verifications, hash, now));
  }

  lemma VerifyEmailFits(c: Core, drawn: set<string>, now: Time, token: string)
    requires CoreFits(c, drawn)
    ensures var c1 := VerifyEmail(c, now, token).0; CoreFits(c1, drawn) && CoreFrame(c, c1)
  {
    hide CoreFits, MarkUsed;
    MarkUsedFits(c, drawn, Sha256(token), now);
    var marked := c.(db := c.db.(verifications := MarkUsed(c.db.verifications, Sha256(token), now)));
    if Sha256(token) in c.db.verifications {
      AccountsKept(marked, MarkEmailVerified(c.db.users, c.db.verifications[Sha256(token)].userId), drawn);
    }
  }

  // Sessions

  lemma FinishFits(cfg: Config, s: Sys, c1: Core, now: Time, userId: Id, deviceToken: Option<string>, e: Entropy)
    requires Fits(s) && FreshDraw(s, e) && CoreFrame(s.core, c1) && CoreFits(c1, s.drawn + Drawn(e))
    ensures FitsAfter(s, FinishMfaLogin(cfg, s.(core := c1), now, userId, deviceToken, e).0, e)
  {
    hide CoreFits, SessionsFit, IssueTokens, HexDraw, Drawn;
    var drawn := s.drawn + Drawn(e);
    DrawnParts(e);
    var s1 := s.(core := c1);
    SessionsKept(s, c1, s.drawn);
    SessionsKept(s, c1, drawn);
    if userId in c1.db.users {
      IssueTokensFits(cfg, s1, now, userId, false, e, drawn);
      IssueTokensFrame(cfg, s1, now, userId, false, e);
      SessionsIgnored(c1, IssueTokens(cfg, s1, now, userId, false, e).0.core.db.sessions, drawn);
    }
  }

  lemma AnswerFits(cfg: Config, s: Sys, now: Time, id: string, code: string, credentialId: string, remember: bool, e: Entropy)
    requires Fits(s) && FreshDraw(s, e)
    ensures FitsAfter(s, CompleteMfaTotp(cfg, s, now, id, code, remember, e).0, e)
    ensures FitsAfter(s, CompleteMfaRecovery(cfg, s, now, id, code, e).0, e)
    ensures FitsAfter(s, CompleteWebAuthnMfa(cfg, s, now, id, credentialId, code, remember, e).0, e)
  {
    hide CoreFits, SessionsFit, FinishMfaLogin, HexDraw, Drawn, VerifyTotpLogin, VerifyRecoveryLogin, VerifyWebAuthnLogin, Fits;
    var drawn := s.drawn + Drawn(e);
    DrawnParts(e);
    assert Fits(s) ==> CoreFits(s.core, s.drawn) by { FitsParts(s); }
    DrawMore(s.core, s.drawn, Drawn(e));
    TotpLoginFits(cfg, s.core, drawn, now, id, code, remember, e.token);
    RecoveryLoginFits(s.core, drawn, now, id, code);
    WebAuthnLoginFits(cfg, s.core, drawn, now, id, credentialId, code, remember, e.token);
    AnswerOneFits(cfg, s, now, VerifyTotpLogin(cfg, s.core, now, id, code, remember, e.token).0, e);
    AnswerOneFits(cfg, s, now, VerifyRecoveryLogin(s.core, now, id, code).0, e);
    AnswerOneFits(cfg, s, now, VerifyWebAuthnLogin(cfg, s.core, now, id, credentialId, code, remember, e.token).0, e);
  }

  lemma FitsParts(s: Sys)
    ensures Fits(s) <==> CoreFits(s.core, s.drawn) && SessionsFit(s)
  {
  }

  /** Whatever core a challenge answer leaves, refusing it or issuing tokens on it fits. */
  lemma AnswerOneFits(cfg: Config, s: Sys, now: Time, c1: Core, e: Entropy)
    requires Fits(s) && FreshDraw(s, e) && CoreFrame(s.core, c1) && CoreFits(c1, s.drawn + Drawn(e))
    ensures FitsAfter(s, s.(core := c1), e)
    ensures forall u, d :: FitsAfter(s, FinishMfaLogin(cfg, s.(core := c1), now, u, d, e).0, e)
  {
    hide CoreFits, SessionsFit, FinishMfaLogin;
    CoreRequestFits(s, c1, e);
    forall u, d ensures FitsAfter(s, FinishMfaLogin(cfg, s.(core := c1), now, u, d, e).0, e) {
      FinishFits(cfg, s, c1, now, u, d, e);
    }
  }

  lemma SessionsOnlyFits(s: Sys, sessions: map<Id, Session>, e: Entropy)
    requires Fits(s) && HexDraw(e.hex) && SessionsFit(WithSessions(s, sessions))
    ensures FitsAfter(s, WithSessions(s, sessions), e)
  {
    hide CoreFits, SessionsFit, Drawn;
    SessionsIgnored(s.core, sessions, s.drawn);
    DrawMore(WithSessions(s, sessions).core, s.drawn, Drawn(e));
    SessionsKept(WithSessions(s, sessions), WithSessions(s, sessions).core, s.drawn + Drawn(e));
  }

  lemma EndedSessionsFit(s: Sys, id: Id, status: SessionStatus)
    requires SessionsFit(s)
    ensures SessionsFit(WithSessions(s, EndSession(s.core.db.sessions, id, status)))
  {
    if id in s.core.db.sessions {
      SessionChangeFits(s, id, s.core.db.sessions[id].(status := status));
    } else {
      assert WithSessions(s, s.core.db.sessions) == s;
    }
  }

  lemma EndSessionFits(s: Sys, id: Id, status: SessionStatus, e: Entropy)
    requires Fits(s) && HexDraw(e.hex)
    ensures FitsAfter(s, WithSessions(s, EndSession(s.core.db.sessions, id, status)), e)
  {
    EndedSessionsFit(s, id, status);
    hide Fits, FitsAfter;
    SessionsOnlyFits(s, EndSession(s.core.db.sessions, id, status), e);
  }

  lemma LogoutFits(s: Sys, now: Time, refresh: Option<string>, access: Option<string>, e: Entropy)
    requires Fits(s) && HexDraw(e.hex)
    ensures FitsAfter(s, Logout(s, now, refresh, access).0, e)
  {
    hide Fits, EndSession, HexDraw;
    NothingFits(s, e);
    if LogoutTarget(s, now, refresh, access).Some? {
      EndSessionFits(s, LogoutTarget(s, now, refresh, access).value, Revoked, e);
    }
  }

  lemma NothingFits(s: Sys, e: Entropy)
    requires Fits(s) && HexDraw(e.hex)
    ensures FitsAfter(s, s, e)
  {
    hide CoreFits, SessionsFit, Drawn;
    DrawMore(s.core, s.drawn, Drawn(e));
    SessionsKept(s, s.core, s.drawn + Drawn(e));
  }

  lemma TokenNamesSession(s: Sys, token: string)
    requires SessionsFit(s) && token in s.refreshTokens
    ensures var claims := s.refreshTokens[token];
            claims.jti in s.core.db.sessions && claims.sub == s.core.db.sessions[claims.jti].userId
  {
  }

  lemma PairFits(s: Sys, jti: Id, hash: Hash, claims: RefreshClaims, access: string, accessClaims: AccessClaims, drawn: set<string>)
    requires SessionsFit(s) && jti in s.core.db.sessions && s.drawn <= drawn
    requires hash.text !in s.drawn && {hash.text, access} <= drawn
    requires claims.jti == jti && claims.sub == s.core.db.sessions[jti].userId
    requires accessClaims.sessionId == jti && accessClaims.sub == claims.sub
    ensures SessionsFit(WithSessions(s.(refreshTokens := s.refreshTokens[hash.text := claims],
                                        accessTokens := s.accessTokens[access := accessClaims], drawn := drawn),
                                     s.core.db.sessions[jti := s.core.db.sessions[jti].(refreshTokenHash := hash)]))
  {
    hide SessionsFit;
    NotYetUsed(s, hash.text);
    TokenFits(s, hash.text, claims, access, accessClaims, drawn);
    SessionChangeFits(s.(refreshTokens := s.refreshTokens[hash.text := claims], accessTokens := s.accessTokens[access := accessClaims],
                         drawn := drawn),
                      jti, s.core.db.sessions[jti].(refreshTokenHash := hash));
  }

  lemma RotatedSessionsFit(cfg: Config, s: Sys, now: Time, jti: Id, e: Entropy, drawn: set<string>)
    requires SessionsFit(s) && jti in s.core.db.sessions && s.drawn <= drawn
    requires {e.access, e.refresh} !! s.drawn && {e.access, e.refresh} <= drawn
    ensures SessionsFit(Rotated(cfg, s, now, jti, e).(drawn := drawn))
  {
    hide SessionsFit, SecondsUp;
    var session := s.core.db.sessions[jti];
    PairFits(s, jti, Sha256(e.refresh), RefreshClaims(session.userId, jti, now + SecondsUp(session.expiresAt - now) * 1000),
             e.access, AccessClaims(session.userId, jti, now + cfg.accessTtl * 1000), drawn);
  }

  lemma RotationFits(cfg: Config, s: Sys, now: Time, jti: Id, e: Entropy)
    requires Fits(s) && FreshDraw(s, e) && jti in s.core.db.sessions
    ensures FitsAfter(s, Rotated(cfg, s, now, jti, e), e)
  {
    hide CoreFits, SessionsFit, HexDraw, Drawn, SecondsUp;
    DrawnParts(e);
    var drawn := s.drawn + Drawn(e);
    RotatedSessionsFit(cfg, s, now, jti, e, drawn);
    DrawMore(s.core, s.drawn, Drawn(e));
    SessionsIgnored(s.core, s.core.db.sessions[jti := s.core.db.sessions[jti].(refreshTokenHash := Sha256(e.refresh))], drawn);
  }

  lemma RefreshFits(cfg: Config, s: Sys, now: Time, token: string, e: Entropy)
    requires Fits(s) && FreshDraw(s, e)
    ensures FitsAfter(s, Refresh(cfg, s, now, token, e).0, e)
  {
    hide Fits, CoreFits, SessionsFit, FitsAfter, EndSession, Rotated, HexDraw, SecondsUp;
    NothingFits(s, e);
    FitsParts(s);
    if token in s.refreshTokens {
      var jti := s.refreshTokens[token].jti;
      TokenNamesSession(s, token);
      EndSessionFits(s, jti, Revoked, e);
      EndSessionFits(s, jti, Expired, e);
      RotationFits(cfg, s, now, jti, e);
    }
  }

  // Administration

  lemma RevokedSessionsFit(s: Sys, userId: Id)
    requires SessionsFit(s)
    ensures SessionsFit(WithSessions(s, RevokeAllForUser(s.core.db.sessions, userId)))
  {
  }

  lemma OrderFits(s: Sys, actor: Id, command: Command, e: Entropy)
    requires Fits(s) && HexDraw(e.hex)
    ensures FitsAfter(s, s.(core := s.core.(db := Order(s.core.db, actor, command).0)), e)
  {
    hide Fits, FitsAfter, CoreFits, SessionsFit, Drawn, HexDraw, RevokeAllForUser;
    NothingFits(s, e);
    FitsParts(s);
    match command
    case ChangeRole(target, role) =>
      assert SameAccounts(s.core.db.users, SetRole(s.core.db.users, target, role));
      UsersChangedFits(s, SetRole(s.core.db.users, target, role), e);
    case ChangeStatus(target, status) =>
      var users := SetStatus(s.core.db.users, target, status, if status.LOCKED? then Some(FAR_FUTURE) else None);
      assert SameAccounts(s.core.db.users, users);
      UsersChangedFits(s, users, e);
      var s1 := s.(core := s.core.(db := s.core.db.(users := users)));
      AccountsKept(s.core, users, s.drawn);
      SessionsKept(s, s1.core, s.drawn);
      FitsParts(s1);
      RevokedSessionsFit(s1, target);
      SessionsOnlyFits(s1, RevokeAllForUser(s1.core.db.sessions, target), e);
      FitsAfterSame(s, s1, WithSessions(s1, RevokeAllForUser(s1.core.db.sessions, target)), e);
  }

  lemma FitsAfterSame(s: Sys, s1: Sys, s2: Sys, e: Entropy)
    requires HexDraw(e.hex) && s.drawn == s1.drawn
    ensures FitsAfter(s1, s2, e) == FitsAfter(s, s2, e)
  {
  }

  // ---------------------------------------------------------------------------
  // Every step, every run
  // ---------------------------------------------------------------------------

  lemma AuthenticatedUser(s: Sys, now: Time, access: string)
    ensures Authenticate(s, now, access).Ok? ==> Authenticate(s, now, access).value in s.core.db.users
  {
  }

  lemma SignedInFits(cfg: Config, s: Sys, now: Time, user: Id, action: Action, e: Entropy)
    requires Fits(s) && FreshDraw(s, e) && user in s.core.db.users
    ensures FitsAfter(s, s.(core := Act(cfg, s.core, now, user, action, e).0), e)
  {
    hide Fits, CoreFits, SessionsFit, Drawn, HexDraw, Act;
    FitsParts(s);
    DrawMore(s.core, s.drawn, Drawn(e));
    ActFits(cfg, s.core, s.drawn + Drawn(e), now, user, action, e);
    CoreRequestFits(s, Act(cfg, s.core, now, user, action, e).0, e);
  }

  lemma AccountRequestFits(cfg: Config, s: Sys, now: Time, email: string, password: string, text: string, e: Entropy)
    requires Fits(s) && FreshDraw(s, e)
    ensures FitsAfter(s, s.(core := Register(cfg, s.core, now, email, password, e.uuid, e.token)), e)
    ensures FitsAfter(s, s.(core := ResendVerification(cfg, s.core, now, email, e.token)), e)
    ensures FitsAfter(s, s.(core := VerifyEmail(s.core, now, text).0), e)
    ensures FitsAfter(s, s.(core := BeginWebAuthnLogin(cfg, s.core, now, text, e.token).0), e)
  {
    NotYetUsedAsUser(s, e.uuid);
    DrawnParts(e);
    FitsParts(s);
    hide Fits, CoreFits, SessionsFit, Drawn, HexDraw, Register, ResendVerification, VerifyEmail, BeginWebAuthnLogin, FitsAfter;
    var drawn := s.drawn + Drawn(e);
    DrawMore(s.core, s.drawn, Drawn(e));
    RegisterFits(cfg, s.core, drawn, now, email, password, e.uuid, e.token);
    CoreRequestFits(s, Register(cfg, s.core, now, email, password, e.uuid, e.token), e);
    CoreRequestFits(s, ResendVerification(cfg, s.core, now, email, e.token), e);
    VerifyEmailFits(s.core, drawn, now, text);
    CoreRequestFits(s, VerifyEmail(s.core, now, text).0, e);
    AssertionFits(cfg, s.core, drawn, now, text, e.token);
    CoreRequestFits(s, BeginWebAuthnLogin(cfg, s.core, now, text, e.token).0, e);
  }

  lemma HandleFits(cfg: Config, s: Sys, now: Time, req: Request, e: Entropy)
    requires Fits(s) && FreshDraw(s, e)
    ensures FitsAfter(s, Handle(cfg, s, now, req, e).0, e)
  {
    hide Fits, FitsAfter, Act, Order, Protocol.Login, CompleteMfaTotp, CompleteMfaRecovery, CompleteWebAuthnMfa,
      Refresh, Logout, Register, ResendVerification, VerifyEmail, BeginWebAuthnLogin, Authenticate, HexDraw, Drawn;
    NothingFits(s, e);
    match req
    case SignUp(email, password) => AccountRequestFits(cfg, s, now, email, password, "", e);
    case Resend(email) => AccountRequestFits(cfg, s, now, email, "", "", e);
    case ConfirmEmail(token) => AccountRequestFits(cfg, s, now, "", "", token, e);
    case SignIn(email, password, rememberMe, device) => LoginFits(cfg, s, now, email, password, rememberMe, device, e);
    case AnswerTotp(id, code, remember) => AnswerFits(cfg, s, now, id, code, "", remember, e);
    case AnswerRecovery(id, code) => AnswerFits(cfg, s, now, id, code, "", false, e);
    case StartAssertion(id) => AccountRequestFits(cfg, s, now, "", "", id, e);
    case AnswerWebAuthn(id, key, assertion, remember) => AnswerFits(cfg, s, now, id, assertion, key, remember, e);
    case RefreshSession(token) => RefreshFits(cfg, s, now, token, e);
    case SignOut(refresh, access) => LogoutFits(s, now, refresh, access, e);
    case Settings(access, action) =>
      AuthenticatedUser(s, now, access);
      if Authenticate(s, now, access).Ok? {
        SignedInFits(cfg, s, now, Authenticate(s, now, access).value, action, e);
      }
    case Administer(access, command) =>
      if Authenticate(s, now, access).Ok? {
        OrderFits(s, Authenticate(s, now, access).value, command, e);
      }
  }

  lemma StepFits(cfg: Config, s: Sys, now: Time, req: Request, e: Entropy)
    requires Fits(s) && FreshDraw(s, e)
    ensures Fits(Step(cfg, s, now, req, e).0)
  {
    hide Fits, Handle, HexDraw, Drawn;
    HandleFits(cfg, s, now, req, e);
  }

  lemma NotYetUsedAsUser(s: Sys, value: string)
    requires Fits(s)
    ensures value !in s.drawn ==> value !in s.core.db.users
  {
  }

  lemma EmptyFits()
    ensures Fits(Empty)
  {
  }

  /** The tables, tokens and cache fit together at every point of every run that starts so. */
  lemma {:induction false} RunFits(cfg: Config, run: seq<Event>, n: nat)
    requires ValidRun(cfg, run) && run != [] && n <= |run| && Fits(run[0].pre)
    ensures Fits(StateAt(run, n))
  {
    hide Fits, FreshDraw, Step;
    if n > 0 {
      RunFits(cfg, run, n - 1);
      var ev := run[n - 1];
      assert ValidEvent(cfg, ev);
      StepFits(cfg, ev.pre, ev.now, ev.req, ev.entropy);
    }
  }
}
