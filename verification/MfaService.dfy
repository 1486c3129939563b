/** The second-factor service: each method, one repository or cache call at a time, is its protocol function. */
module MfaServices {
  import opened Wrappers
  import opened Rows
  import opened Cache
  import opened Repositories
  import P = Protocol

  /** Keys one kind of state under a prefix of the shared cache, with one time to live. */
  class TtlStore {
    const cache: MemoryCache<P.Pending>
    const ttlSeconds: int
    const prefix: string

    constructor (cache: MemoryCache<P.Pending>, ttlSeconds: int, prefix: string)
      ensures this.cache == cache && this.ttlSeconds == ttlSeconds && this.prefix == prefix
    {
      this.cache, this.ttlSeconds, this.prefix := cache, ttlSeconds, prefix;
    }

    method Set(id: string, data: P.Pending, now: Time)
      modifies cache
      ensures cache.store == SetItem(old(cache.store), prefix + ":" + id, data, ttlSeconds, now)
    {
      cache.Set(prefix + ":" + id, data, ttlSeconds, now);
    }

    method Get(id: string, now: Time) returns (r: Option<P.Pending>)
      modifies cache
      ensures (cache.store, r) == GetItem(old(cache.store), prefix + ":" + id, now)
    {
      r := cache.Get(prefix + ":" + id, now);
    }

    method Delete(id: string)
      modifies cache
      ensures cache.store == old(cache.store) - {prefix + ":" + id}
    {
      cache.Del(prefix + ":" + id);
    }
  }

  class MfaService {
    const cfg: P.Config
    const users: UserRepository
    const mfa: MfaRepository
    const cache: MemoryCache<P.Pending>
    const loginChallenges: TtlStore
    const ceremonies: TtlStore

    constructor (cfg: P.Config, users: UserRepository, mfa: MfaRepository, cache: MemoryCache<P.Pending>)
      requires users.db == mfa.db
      ensures Wired() && this.cfg == cfg && this.users == users && this.mfa == mfa && this.cache == cache
    {
      this.cfg, this.users, this.mfa, this.cache := cfg, users, mfa, cache;
      var challenges := new TtlStore(cache, cfg.challengeTtl, "mfa:login-challenge");
      var ceremonies := new TtlStore(cache, cfg.challengeTtl, "mfa:ceremony");
      this.loginChallenges, this.ceremonies := challenges, ceremonies;
    }

    ghost predicate Wired() {
      && users.db == mfa.db
      && loginChallenges.cache == cache && ceremonies.cache == cache
      && loginChallenges.ttlSeconds == cfg.challengeTtl && ceremonies.ttlSeconds == cfg.challengeTtl
      && loginChallenges.prefix == "mfa:login-challenge" && ceremonies.prefix == "mfa:ceremony"
    }

    lemma Keys(id: string)
      requires Wired()
      ensures loginChallenges.prefix + ":" + id == P.ChallengeKey(id)
      ensures ceremonies.prefix + ":" + id == P.CeremonyKey(id)
    {
    }

    ghost function Core(): P.Core
      reads mfa.db, cache
    {
      P.Core(mfa.db.Tables(), cache.store)
    }

    // -------------------------------------------------------------------------
    // Login gate
    // -------------------------------------------------------------------------

    method IssueLoginChallenge(userId: Id, rememberMe: bool, uuid: string, now: Time)
      returns (r: Result<P.Challenge, P.Error>)
      requires Wired()
      modifies cache
      ensures (Core(), r) == P.IssueLoginChallenge(cfg, old(Core()), now, userId, rememberMe, uuid)
    {
      var user := users.FindById(userId);
      if user.None? {
        return Err(P.AccountMissing);
      }
      var availableMethods: seq<P.Method> := [];
      if user.value.totpEnabled { availableMethods := availableMethods + [P.MethodTotp]; }
      if user.value.webauthnEnabled { availableMethods := availableMethods + [P.MethodWebAuthn]; }
      availableMethods := availableMethods + [P.MethodRecovery];
      assert availableMethods == P.AvailableMethods(user.value);
      Keys(uuid);
      loginChallenges.Set(uuid, P.LoginChallenge(userId, rememberMe, availableMethods), now);
      return Ok(P.Challenge(uuid, availableMethods[0], availableMethods, now + cfg.challengeTtl * 1000));
    }

    method GetChallengeUser(challengeId: string, now: Time) returns (r: Option<Id>)
      requires Wired()
      modifies cache
      ensures (Core(), r) == P.ChallengeUser(old(Core()), now, challengeId)
    {
      Keys(challengeId);
      var state := loginChallenges.Get(challengeId, now);
      if state.None? {
        return None;
      }
      return Some(state.value.userId);
    }

    method TrustDevice(userId: Id, token: string)
      requires Wired()
      modifies mfa.db`devices
      ensures Core() == P.TrustDevice(old(Core()), userId, true, token).0
    {
      mfa.TrustDevice(userId, Sha256(token));
    }

    method VerifyTotpLogin(challengeId: string, code: string, rememberDevice: bool, token: string, now: Time)
      returns (r: Result<P.Verified, P.Error>)
      requires Wired()
      modifies cache, mfa.db`devices
      ensures (Core(), r) == P.VerifyTotpLogin(cfg, old(Core()), now, challengeId, code, rememberDevice, token)
    {
      var userId := GetChallengeUser(challengeId, now);
      if userId.None? {
        return Err(P.ChallengeInvalid);
      }
      var record := mfa.GetTotpSecret(userId.value);
      if record.None? {
        return Err(P.CodeInvalid);
      }
      var secret := cfg.decrypt(record.value.secret);
      if secret.None? {
        return Err(P.DecryptFailed);
      }
      if !cfg.totpOk(secret.value, code, now) {
        return Err(P.CodeInvalid);
      }
      Keys(challengeId);
      loginChallenges.Delete(challengeId);
      var deviceToken: Option<string> := None;
      if rememberDevice {
        TrustDevice(userId.value, token);
        deviceToken := Some(token);
      }
      return Ok(P.Verified(userId.value, deviceToken));
    }

    method VerifyRecoveryLogin(challengeId: string, code: string, now: Time) returns (r: Result<Id, P.Error>)
      requires Wired()
      modifies cache, mfa.db`recovery
      ensures (Core(), r) == P.VerifyRecoveryLogin(old(Core()), now, challengeId, code)
    {
      var userId := GetChallengeUser(challengeId, now);
      if userId.None? {
        return Err(P.ChallengeInvalid);
      }
      var consumed := mfa.ConsumeRecoveryCode(userId.value, Sha256(P.Normalize(code)), now);
      if !consumed {
        return Err(P.CodeInvalid);
      }
      Keys(challengeId);
      loginChallenges.Delete(challengeId);
      return Ok(userId.value);
    }

    method BeginWebAuthnLogin(challengeId: string, random: string, now: Time) returns (r: Result<set<string>, P.Error>)
      requires Wired()
      modifies cache
      ensures (Core(), r) == P.BeginWebAuthnLogin(cfg, old(Core()), now, challengeId, random)
    {
      var userId := GetChallengeUser(challengeId, now);
      if userId.None? {
        return Err(P.ChallengeInvalid);
      }
      var credentials := mfa.ListCredentials(userId.value);
      Keys(challengeId);
      ceremonies.Set(challengeId, P.Ceremony(true, userId.value, random), now);
      return Ok(credentials);
    }

    method VerifyWebAuthnLogin(challengeId: string, credentialId: string, assertion: string, rememberDevice: bool,
                               token: string, now: Time) returns (r: Result<P.Verified, P.Error>)
      requires Wired()
      modifies cache, mfa.db`credentials, mfa.db`devices
      ensures (Core(), r)
           == P.VerifyWebAuthnLogin(cfg, old(Core()), now, challengeId, credentialId, assertion, rememberDevice, token)
    {
      var userId := GetChallengeUser(challengeId, now);
      if userId.None? {
        return Err(P.ChallengeInvalid);
      }
      Keys(challengeId);
      var ceremony := ceremonies.Get(challengeId, now);
      if ceremony.None? || !ceremony.value.Ceremony? || !ceremony.value.authenticate {
        return Err(P.ChallengeInvalid);
      }
      var stored := mfa.GetCredentialForUser(userId.value, credentialId);
      if stored.None? {
        return Err(P.KeyInvalid);
      }
      var counter := cfg.assertionOk(assertion, ceremony.value.expectedChallenge, stored.value);
      if counter.None? {
        return Err(P.KeyInvalid);
      }
      mfa.UpdateCredentialCounter(credentialId, counter.value);
      ceremonies.Delete(challengeId);
      loginChallenges.Delete(challengeId);
      var deviceToken: Option<string> := None;
      if rememberDevice {
        TrustDevice(userId.value, token);
        deviceToken := Some(token);
      }
      return Ok(P.Verified(userId.value, deviceToken));
    }

    method IsDeviceTrusted(userId: Id, cookie: Option<string>) returns (trusted: bool)
      requires Wired()
      ensures trusted == P.DeviceTrusted(Core(), userId, cookie)
    {
      if cookie.None? || cookie.value == "" {
        return false;
      }
      trusted := mfa.GetTrustedDevice(userId, Sha256(cookie.value));
    }

    // -------------------------------------------------------------------------
    // Enrollment and removal
    // -------------------------------------------------------------------------

    method BeginTotpEnrollment(userId: Id, secret: string) returns (r: Result<string, P.Error>)
      requires Wired()
      modifies mfa.db`totp
      ensures (Core(), r) == P.BeginTotpEnrollment(cfg, old(Core()), userId, secret)
    {
      var user := users.FindById(userId);
      if user.None? {
        return Err(P.NotFound);
      }
      mfa.UpsertPendingTotpSecret(userId, cfg.encrypt(secret));
      return Ok(secret);
    }

    method RegenerateRecoveryCodes(userId: Id, hex: seq<string>) returns (r: Result<seq<string>, P.Error>)
      requires Wired() && P.HexDraw(hex)
      modifies mfa.db`recovery
      ensures (Core(), r) == P.RegenerateRecoveryCodes(old(Core()), userId, hex)
    {
      var codes: seq<string> := [];
      var hashes: seq<Hash> := [];
      for i := 0 to P.RECOVERY_CODES_COUNT
        invariant |codes| == |hashes| == i
        invariant forall j | 0 <= j < i :: codes[j] == P.FormatRecoveryCode(hex[j])
        invariant forall j | 0 <= j < i :: hashes[j] == Sha256(P.Normalize(codes[j]))
      {
        var code := P.FormatRecoveryCode(hex[i]);
        codes := codes + [code];
        hashes := hashes + [Sha256(P.Normalize(code))];
      }
      assert codes == P.RecoveryCodes(hex) && hashes == P.RecoveryHashes(hex);
      mfa.DeleteRecoveryCodes(userId);
      var ok := mfa.CreateRecoveryCodes(userId, hashes);
      if !ok {
        return Err(P.Conflict);
      }
      return Ok(codes);
    }

    method EnsureRecoveryCodes(userId: Id, hex: seq<string>) returns (r: Result<seq<string>, P.Error>)
      requires Wired() && P.HexDraw(hex)
      modifies mfa.db`recovery
      ensures (Core(), r) == P.EnsureRecoveryCodes(old(Core()), userId, hex)
    {
      var remaining := mfa.CountUnusedRecoveryCodes(userId);
      if remaining > 0 {
        return Ok([]);
      }
      r := RegenerateRecoveryCodes(userId, hex);
    }

    method CompleteTotpEnrollment(userId: Id, code: string, hex: seq<string>, now: Time)
      returns (r: Result<seq<string>, P.Error>)
      requires Wired() && P.HexDraw(hex)
      modifies mfa.db`totp, mfa.db`users, mfa.db`recovery
      ensures (Core(), r) == P.CompleteTotpEnrollment(cfg, old(Core()), now, userId, code, hex)
    {
      var record := mfa.GetTotpSecret(userId);
      if record.None? {
        return Err(P.SetupNotStarted);
      }
      var secret := cfg.decrypt(record.value.secret);
      if secret.None? {
        return Err(P.DecryptFailed);
      }
      if !cfg.totpOk(secret.value, code, now) {
        return Err(P.CodeInvalid);
      }
      mfa.EnableTotp(userId);
      users.SetFlags(userId, Some(true), None, Some(true));
      r := EnsureRecoveryCodes(userId, hex);
    }

    method BeginWebAuthnRegistration(userId: Id, uuid: string, random: string, now: Time)
      returns (r: Result<string, P.Error>)
      requires Wired()
      modifies cache
      ensures (Core(), r) == P.BeginWebAuthnRegistration(cfg, old(Core()), now, userId, uuid, random)
    {
      var user := users.FindById(userId);
      if user.None? {
        return Err(P.NotFound);
      }
      Keys(uuid);
      ceremonies.Set(uuid, P.Ceremony(false, userId, random), now);
      return Ok(uuid);
    }

    method CompleteWebAuthnRegistration(challengeId: string, userId: Id, registration: string, hex: seq<string>, now: Time)
      returns (r: Result<seq<string>, P.Error>)
      requires Wired() && P.HexDraw(hex)
      modifies cache, mfa.db`credentials, mfa.db`users, mfa.db`recovery
      ensures (Core(), r)
           == P.CompleteWebAuthnRegistration(cfg, old(Core()), now, challengeId, userId, registration, hex)
    {
      Keys(challengeId);
      var ceremony := ceremonies.Get(challengeId, now);
      if ceremony.None? || !ceremony.value.Ceremony? || ceremony.value.authenticate {
        return Err(P.RegistrationInvalid);
      }
      if ceremony.value.userId != userId {
        return Err(P.NotYours);
      }
      var verification := cfg.registrationOk(registration, ceremony.value.expectedChallenge);
      if verification.None? {
        return Err(P.KeyInvalid);
      }
      var (id, publicKey, counter) := verification.value;
      var created := mfa.CreateCredential(id, Credential(userId, publicKey, counter));
      if !created {
        return Err(P.Conflict);
      }
      users.SetFlags(userId, None, Some(true), Some(true));
      ceremonies.Delete(challengeId);
      r := EnsureRecoveryCodes(userId, hex);
    }

    method RegenerateRecoveryCodesWithPassword(userId: Id, password: string, hex: seq<string>)
      returns (r: Result<seq<string>, P.Error>)
      requires Wired() && P.HexDraw(hex)
      modifies mfa.db`recovery
      ensures (Core(), r) == P.RegenerateWithPassword(cfg, old(Core()), userId, password, hex)
    {
      var user := users.FindById(userId);
      if user.None? {
        return Err(P.NotFound);
      }
      if !P.PasswordMatches(cfg, user.value, password) {
        return Err(P.IncorrectPassword);
      }
      r := RegenerateRecoveryCodes(userId, hex);
    }

    method RemoveWebAuthnCredential(userId: Id, credentialId: string) returns (r: Result<(), P.Error>)
      requires Wired()
      modifies mfa.db`credentials, mfa.db`users
      ensures (Core(), r) == P.RemoveWebAuthnCredential(old(Core()), userId, credentialId)
    {
      var stored := mfa.GetCredentialForUser(userId, credentialId);
      if stored.None? {
        return Err(P.NotFound);
      }
      mfa.DeleteCredential(userId, credentialId);
      var remaining := mfa.ListCredentials(userId);
      var totp := mfa.GetTotpSecret(userId);
      if |remaining| == 0 && !(totp.Some? && totp.value.enabled) {
        users.SetFlags(userId, None, Some(false), Some(false));
      } else if |remaining| == 0 {
        users.SetFlags(userId, None, Some(false), None);
      }
      return Ok(());
    }

    method DeleteCredentials(userId: Id)
      requires Wired()
      modifies mfa.db`credentials
      ensures mfa.db.credentials == old(mfa.db.credentials) - CredentialsOf(old(mfa.db.credentials), userId)
    {
      var credentials := mfa.ListCredentials(userId);
      var rest := credentials;
      while rest != {}
        invariant rest <= credentials
        invariant mfa.db.credentials == old(mfa.db.credentials) - (credentials - rest)
      {
        var credentialId :| credentialId in rest;
        mfa.DeleteCredential(userId, credentialId);
        rest := rest - {credentialId};
      }
      assert mfa.db.credentials == old(mfa.db.credentials) - credentials;
    }

    method Disable(userId: Id, password: string) returns (r: Result<(), P.Error>)
      requires Wired()
      modifies mfa.db`totp, mfa.db`recovery, mfa.db`credentials, mfa.db`devices, mfa.db`users
      ensures (Core(), r) == P.Disable(cfg, old(Core()), userId, password)
    {
      var user := users.FindById(userId);
      if user.None? {
        return Err(P.NotFound);
      }
      if !P.PasswordMatches(cfg, user.value, password) {
        return Err(P.IncorrectPassword);
      }
      mfa.DeleteTotpSecret(userId);
      mfa.DeleteRecoveryCodes(userId);
      DeleteCredentials(userId);
      mfa.RevokeAllTrustedDevices(userId);
      users.SetFlags(userId, Some(false), Some(false), Some(false));
      return Ok(());
    }
  }
}
