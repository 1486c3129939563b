/** What a signed-in user's requests about second factors answer and do, from the columns. */
module SettingsAnswers {
  import opened Wrappers
  import opened Rows
  import opened Cache
  import opened Protocol
  import opened Machine
  import opened Frames
  import opened Columns
  import opened ChallengeAnswers
  import opened SessionAnswers

  /** `u` is signed in and asks for the action. */
  predicate Asks(ev: Event, u: Id, action: Action) {
    ev.req.Settings? && ev.req.action == action && SignedIn(ev.pre, ev.now, ev.req.access, u)
  }

  /** Nobody who is not signed in gets anything done. */
  lemma NotSignedIn(cfg: Config, ev: Event)
    requires ValidEvent(cfg, ev) && (ev.req.Settings? || ev.req.Administer?)
    requires forall u :: !SignedIn(ev.pre, ev.now, ev.req.access, u)
    ensures NothingHappens(ev) && ev.out.Failed?
    ensures ev.out.error in {TokenInvalid, AccountMissing, AccountDisabled, SessionInactive}
    ensures ev.out.error == TokenInvalid <==> !UnexpiredAccess(ev.pre, ev.now, ev.req.access)
  {
    AdmittedIff(ev.pre, ev.now, ev.req.access);
    hide HexDraw, Drawn, SignedIn, UnexpiredAccess, Act, Order, RequireAdmin;
  }

  lemma AskedActs(cfg: Config, ev: Event, u: Id, action: Action)
    requires ValidEvent(cfg, ev) && Asks(ev, u, action)
    ensures HexDraw(ev.entropy.hex) && (ev.post.core, ev.out) == Act(cfg, ev.pre.core, ev.now, u, action, ev.entropy)
    ensures SameTokens(ev.pre, ev.post) && u in ev.pre.core.db.users
  {
    AdmittedIff(ev.pre, ev.now, ev.req.access);
    hide HexDraw, Drawn, Authenticate, Act;
  }

  // ---------------------------------------------------------------------------
  // Disabling
  // ---------------------------------------------------------------------------

  /** Nothing of the second factors of `u` is left, and everybody else's stays. */
  ghost predicate FactorsGone(a: Tables, b: Tables, u: Id) {
    && u in a.users
    && b.users == a.users[u := a.users[u].(totpEnabled := false, webauthnEnabled := false, mfaEnabled := false)]
    && b.totp == a.totp - {u}
    && (forall h :: h in b.recovery <==> h in a.recovery && a.recovery[h].userId != u)
    && (forall h | h in b.recovery :: b.recovery[h] == a.recovery[h])
    && (forall k :: k in b.credentials <==> k in a.credentials && a.credentials[k].userId != u)
    && (forall k | k in b.credentials :: b.credentials[k] == a.credentials[k])
    && (forall v, h :: (v, h) in b.devices <==> (v, h) in a.devices && v != u)
    && b == a.(users := b.users, totp := b.totp, recovery := b.recovery, credentials := b.credentials, devices := b.devices)
  }

  lemma DisableDoes(cfg: Config, c: Core, u: Id, password: string)
    requires u in c.db.users
    ensures var (c1, r) := Disable(cfg, c, u, password);
            if PasswordFits(cfg, c.db.users[u], password)
            then r == Ok(()) && FactorsGone(c.db, c1.db, u) && c1.cache == c.cache
            else r == Err(IncorrectPassword) && c1 == c
  {
  }

  /** Second factors are disabled exactly if the password fits; then nothing of them is left. */
  lemma DisableAnswer(cfg: Config, ev: Event, u: Id, password: string)
    requires ValidEvent(cfg, ev) && Asks(ev, u, DisableMfa(password))
    ensures u in ev.pre.core.db.users && SameTokens(ev.pre, ev.post)
    ensures if PasswordFits(cfg, ev.pre.core.db.users[u], password)
            then ev.out == Accepted && FactorsGone(ev.pre.core.db, ev.post.core.db, u) && ev.post.core.cache == ev.pre.core.cache
            else ev.out == Failed(IncorrectPassword) && ev.post.core == ev.pre.core
  {
    AskedActs(cfg, ev, u, DisableMfa(password));
    hide ValidEvent, HexDraw, Disable, PasswordFits, FactorsGone, SignedIn;
    DisableDoes(cfg, ev.pre.core, u, password);
  }

  lemma DisabledIff(cfg: Config, ev: Event, access: string, password: string)
    requires ValidEvent(cfg, ev) && ev.req == Settings(access, DisableMfa(password))
    ensures ev.out == Accepted <==>
            exists u :: SignedIn(ev.pre, ev.now, access, u) && u in ev.pre.core.db.users
                     && PasswordFits(cfg, ev.pre.core.db.users[u], password)
    ensures ev.out != Accepted ==> ev.post.core == ev.pre.core
  {
    hide ValidEvent, PasswordFits, FactorsGone, SignedIn;
    if u :| SignedIn(ev.pre, ev.now, access, u) {
      DisableAnswer(cfg, ev, u, password);
      OneSignedIn(ev.pre, ev.now, access);
    } else {
      NotSignedIn(cfg, ev);
    }
  }

  lemma OneSignedIn(s: Sys, now: Time, access: string)
    ensures forall u, v :: SignedIn(s, now, access, u) && SignedIn(s, now, access, v) ==> u == v
  {
  }

  // ---------------------------------------------------------------------------
  // Recovery codes
  // ---------------------------------------------------------------------------

  /** Ten codes in groups of four digits, their hashes unused in the table of `u`, and none of its older ones. */
  ghost predicate NewBatch(a: map<Hash, RecoveryCode>, b: map<Hash, RecoveryCode>, u: Id, hex: seq<string>, codes: seq<string>) {
    && |codes| == 10 && |hex| == 10
    && (forall i | 0 <= i < 10 :: |hex[i]| == 16 && codes[i] == hex[i][0..4] + "-" + hex[i][4..8] + "-" + hex[i][8..12])
    && (forall h :: h in b <==> (h in a && a[h].userId != u) || IsCode(codes, h))
    && (forall h | h in b :: b[h] == if IsCode(codes, h) then RecoveryCode(u, None) else a[h])
  }

  predicate IsCode(codes: seq<string>, h: Hash) {
    exists i | 0 <= i < |codes| :: h == Sha256(Normalize(codes[i]))
  }

  lemma BatchInsertable(s: Sys, e: Entropy, u: Id)
    requires FactorsFit(s.core.db, s.drawn) && FreshDraw(s, e)
    ensures Insertable(DeleteRecoveryCodes(s.core.db.recovery, u), RecoveryHashes(e.hex))
  {
    hide Normalize, FormatRecoveryCode;
    var hashes := RecoveryHashes(e.hex);
    forall i | 0 <= i < |hashes| ensures hashes[i] !in s.core.db.recovery && hashes[i] == Sha256(NormalCodes(e)[i]) {
      assert NormalCodes(e)[i] in Drawn(e);
    }
  }

  lemma InsertedBatch(recovery: map<Hash, RecoveryCode>, u: Id, hex: seq<string>)
    requires HexDraw(hex) && Insertable(DeleteRecoveryCodes(recovery, u), RecoveryHashes(hex))
    ensures NewBatch(recovery, CreateRecoveryCodes(DeleteRecoveryCodes(recovery, u), u, RecoveryHashes(hex)), u, hex, RecoveryCodes(hex))
  {
    hide Normalize, Insertable;
    var codes, hashes := RecoveryCodes(hex), RecoveryHashes(hex);
    assert forall i | 0 <= i < 10 :: hashes[i] == Sha256(Normalize(codes[i]));
    forall h ensures h in hashes <==> IsCode(codes, h) {
      if h in hashes {
        var i :| 0 <= i < |hashes| && hashes[i] == h;
        assert h == Sha256(Normalize(codes[i]));
      }
      if IsCode(codes, h) {
        var i :| 0 <= i < |codes| && h == Sha256(Normalize(codes[i]));
        assert hashes[i] == h;
      }
    }
  }

  lemma RegenerateDoes(s: Sys, e: Entropy, u: Id, c: Core)
    requires FactorsFit(s.core.db, s.drawn) && FreshDraw(s, e) && c.db.recovery == s.core.db.recovery
    ensures HexDraw(e.hex)
    ensures var (c1, r) := RegenerateRecoveryCodes(c, u, e.hex);
            r.Ok? && c1 == c.(db := c.db.(recovery := c1.db.recovery)) && NewBatch(c.db.recovery, c1.db.recovery, u, e.hex, r.value)
  {
    assert HexDraw(e.hex);
    hide FactorsFit, FreshDraw, NewBatch, HexDraw;
    BatchInsertable(s, e, u);
    hide Insertable;
    InsertedBatch(c.db.recovery, u, e.hex);
  }

  lemma RegeneratedWith(cfg: Config, s: Sys, e: Entropy, u: Id, password: string)
    requires FactorsFit(s.core.db, s.drawn) && FreshDraw(s, e) && u in s.core.db.users && HexDraw(e.hex)
    ensures var (c1, r) := RegenerateWithPassword(cfg, s.core, u, password, e.hex);
            if PasswordFits(cfg, s.core.db.users[u], password)
            then r.Ok? && c1 == s.core.(db := s.core.db.(recovery := c1.db.recovery))
                 && NewBatch(s.core.db.recovery, c1.db.recovery, u, e.hex, r.value)
            else r == Err(IncorrectPassword) && c1 == s.core
  {
    hide FreshDraw, HexDraw, FactorsFit, NewBatch, RegenerateRecoveryCodes;
    RegenerateDoes(s, e, u, s.core);
  }

  /** A new batch is answered exactly if the password fits; otherwise nothing happens. */
  lemma RegenerateAnswer(cfg: Config, ev: Event, u: Id, password: string)
    requires ValidEvent(cfg, ev) && Fits(ev.pre) && Asks(ev, u, RegenerateCodes(password))
    ensures u in ev.pre.core.db.users && SameTokens(ev.pre, ev.post)
    ensures if PasswordFits(cfg, ev.pre.core.db.users[u], password)
            then && ev.out.Codes? && NewBatch(ev.pre.core.db.recovery, ev.post.core.db.recovery, u, ev.entropy.hex, ev.out.codes)
                 && ev.post.core == ev.pre.core.(db := ev.pre.core.db.(recovery := ev.post.core.db.recovery))
            else ev.out == Failed(IncorrectPassword) && ev.post.core == ev.pre.core
  {
    AskedActs(cfg, ev, u, RegenerateCodes(password));
    FitsParts(ev.pre);
    EventDraws(cfg, ev);
    hide ValidEvent, FreshDraw, HexDraw, FactorsFit, NewBatch, SignedIn, Fits, PasswordFits, RegenerateWithPassword;
    RegeneratedWith(cfg, ev.pre, ev.entropy, u, password);
  }

  lemma EventDraws(cfg: Config, ev: Event)
    requires ValidEvent(cfg, ev)
    ensures FreshDraw(ev.pre, ev.entropy)
  {
    hide FreshDraw, Step;
  }

  lemma FitsParts(s: Sys)
    requires Fits(s)
    ensures FactorsFit(s.core.db, s.drawn)
  {
    hide FactorsFit, UsersFit, CacheFits, SessionsFit;
  }

  lemma RegeneratedIff(cfg: Config, ev: Event, access: string, password: string)
    requires ValidEvent(cfg, ev) && Fits(ev.pre) && ev.req == Settings(access, RegenerateCodes(password))
    ensures ev.out.Codes? <==>
            exists u :: SignedIn(ev.pre, ev.now, access, u) && u in ev.pre.core.db.users
                     && PasswordFits(cfg, ev.pre.core.db.users[u], password)
    ensures !ev.out.Codes? ==> ev.post.core == ev.pre.core
  {
    hide ValidEvent, Fits, PasswordFits, NewBatch, SignedIn;
    if u :| SignedIn(ev.pre, ev.now, access, u) {
      RegenerateAnswer(cfg, ev, u, password);
      OneSignedIn(ev.pre, ev.now, access);
    } else {
      NotSignedIn(cfg, ev);
    }
  }

  predicate HasUnused(db: Tables, u: Id) {
    exists h | h in db.recovery :: db.recovery[h].userId == u && db.recovery[h].usedAt == None
  }

  /** Codes come with a first method only: if the user has an unused one left there are no new ones. */
  ghost predicate BatchIfNone(ev: Event, u: Id) {
    && ev.out.Codes?
    && if HasUnused(ev.pre.core.db, u) then ev.out.codes == [] && ev.post.core.db.recovery == ev.pre.core.db.recovery
       else NewBatch(ev.pre.core.db.recovery, ev.post.core.db.recovery, u, ev.entropy.hex, ev.out.codes)
  }

  lemma UnusedCounted(db: Tables, u: Id)
    ensures |UnusedCodes(db.recovery, u)| > 0 <==> HasUnused(db, u)
  {
    var unused := UnusedCodes(db.recovery, u);
    if h :| h in db.recovery && db.recovery[h].userId == u && db.recovery[h].usedAt == None {
      assert h in unused;
    }
    if |unused| > 0 {
      var h :| h in unused;
      assert db.recovery[h].userId == u;
    }
  }

  lemma EnsureDoes(s: Sys, e: Entropy, u: Id, c: Core)
    requires FactorsFit(s.core.db, s.drawn) && FreshDraw(s, e) && c.db.recovery == s.core.db.recovery
    ensures HexDraw(e.hex)
    ensures var (c1, r) := EnsureRecoveryCodes(c, u, e.hex);
            && r.Ok? && c1 == c.(db := c.db.(recovery := c1.db.recovery))
            && if HasUnused(s.core.db, u) then r.value == [] && c1 == c
               else NewBatch(c.db.recovery, c1.db.recovery, u, e.hex, r.value)
  {
    hide FactorsFit, NewBatch, HasUnused, RegenerateRecoveryCodes, UnusedCodes;
    UnusedCounted(s.core.db, u);
    RegenerateDoes(s, e, u, c);
  }

  // ---------------------------------------------------------------------------
  // Enrolling a one-time-code generator
  // ---------------------------------------------------------------------------

  /** A new secret is answered in the clear and stored enciphered, neither verified nor enabled; the flags stay. */
  lemma TotpStarted(cfg: Config, ev: Event, u: Id)
    requires ValidEvent(cfg, ev) && Asks(ev, u, StartTotp)
    ensures ev.out == Started(ev.entropy.token) && SameTokens(ev.pre, ev.post)
    ensures ev.post.core == ev.pre.core.(db := ev.pre.core.db.(totp :=
              ev.pre.core.db.totp[u := TotpRecord(cfg.encrypt(ev.entropy.token), false, false)]))
  {
    AskedActs(cfg, ev, u, StartTotp);
    hide ValidEvent, HexDraw, SignedIn;
  }

  /** Finishing takes a started enrollment, a secret that deciphers and a code that fits it; each has its own refusal. */
  lemma TotpFinishRefused(cfg: Config, ev: Event, u: Id, code: string)
    requires ValidEvent(cfg, ev) && Asks(ev, u, FinishTotp(code)) && !CodeFits(cfg, ev.pre.core.db, u, code, ev.now)
    ensures NothingHappens(ev)
    ensures ev.out == Failed(if u !in ev.pre.core.db.totp then SetupNotStarted
                             else if !Deciphers(cfg, ev.pre.core.db, u) then DecryptFailed
                             else CodeInvalid)
  {
    AskedActs(cfg, ev, u, FinishTotp(code));
    hide ValidEvent, HexDraw, SignedIn, EnsureRecoveryCodes, SetFlags, EnableTotp;
  }

  /** Otherwise the record is enabled, the flags are set, and codes are issued if none is left. */
  lemma TotpFinished(cfg: Config, ev: Event, u: Id, code: string)
    requires ValidEvent(cfg, ev) && Fits(ev.pre) && Asks(ev, u, FinishTotp(code)) && CodeFits(cfg, ev.pre.core.db, u, code, ev.now)
    ensures var db := ev.pre.core.db;
            && u in db.users && u in db.totp && SameTokens(ev.pre, ev.post) && BatchIfNone(ev, u)
            && ev.post.core == ev.pre.core.(db := db.(
                 totp := db.totp[u := TotpRecord(db.totp[u].secret, true, true)],
                 users := db.users[u := db.users[u].(totpEnabled := true, mfaEnabled := true)],
                 recovery := ev.post.core.db.recovery))
  {
    AskedActs(cfg, ev, u, FinishTotp(code));
    FitsParts(ev.pre);
    EventDraws(cfg, ev);
    hide ValidEvent, FreshDraw, HexDraw, FactorsFit, Fits, SignedIn, EnsureRecoveryCodes, NewBatch, HasUnused;
    var c := ev.pre.core;
    var c1 := c.(db := c.db.(totp := EnableTotp(c.db.totp, u), users := SetFlags(c.db.users, u, Some(true), None, Some(true))));
    EnsureDoes(ev.pre, ev.entropy, u, c1);
  }

  // ---------------------------------------------------------------------------
  // Enrolling and removing security keys
  // ---------------------------------------------------------------------------

  /** A registration ceremony of the user is stored under the identifier answered. */
  lemma RegistrationStarted(cfg: Config, ev: Event, u: Id)
    requires ValidEvent(cfg, ev) && Asks(ev, u, StartWebAuthn)
    ensures ev.out == Started(ev.entropy.uuid) && SameTokens(ev.pre, ev.post)
    ensures ev.post.core == ev.pre.core.(cache := ev.pre.core.cache[CeremonyEntry(ev.entropy.uuid) :=
              EntryFor(Ceremony(false, u, ev.entropy.token), cfg.challengeTtl, ev.now)])
  {
    AskedActs(cfg, ev, u, StartWebAuthn);
    hide ValidEvent, HexDraw, SignedIn;
  }

  predicate RegistrationPends(c: Core, now: Time, id: string) {
    && LiveEntry(c.cache, CeremonyEntry(id), now)
    && c.cache[CeremonyEntry(id)].value.Ceremony? && !c.cache[CeremonyEntry(id)].value.authenticate
  }

  /** The key that comes with a registration on a ceremony of `u`; `None` if it does not verify. */
  function Registered(cfg: Config, c: Core, id: string, registration: string): Option<(string, string, int)>
    requires CeremonyEntry(id) in c.cache && c.cache[CeremonyEntry(id)].value.Ceremony?
  {
    cfg.registrationOk(registration, c.cache[CeremonyEntry(id)].value.expectedChallenge)
  }

  predicate Registers(cfg: Config, ev: Event, u: Id, id: string, registration: string) {
    var c := ev.pre.core;
    && RegistrationPends(c, ev.now, id) && c.cache[CeremonyEntry(id)].value.userId == u
    && Registered(cfg, c, id, registration) != None && Registered(cfg, c, id, registration).value.0 !in c.db.credentials
  }

  /** Finishing takes a pending registration ceremony of the same user, a registration that verifies, and a free key. */
  lemma RegistrationRefused(cfg: Config, ev: Event, u: Id, id: string, registration: string)
    requires ValidEvent(cfg, ev) && Asks(ev, u, FinishWebAuthn(id, registration)) && !Registers(cfg, ev, u, id, registration)
    ensures ev.post.core.db == ev.pre.core.db && SameTokens(ev.pre, ev.post) && OnlyLapsedGo(ev)
    ensures ev.out == Failed(if !RegistrationPends(ev.pre.core, ev.now, id) then RegistrationInvalid
                             else if ev.pre.core.cache[CeremonyEntry(id)].value.userId != u then NotYours
                             else if Registered(cfg, ev.pre.core, id, registration) == None then KeyInvalid
                             else Conflict)
  {
    AskedActs(cfg, ev, u, FinishWebAuthn(id, registration));
    ReadEntry(ev.pre.core.cache, CeremonyEntry(id), ev.now);
    EntryKeys(id);
    hide ValidEvent, HexDraw, SignedIn, EnsureRecoveryCodes, RegisterKey, GetItem, CeremonyKey, CeremonyEntry;
  }

  /** Otherwise the key is stored for the user, the flags are set, the ceremony goes, and codes are issued if none is left. */
  lemma RegistrationFinished(cfg: Config, ev: Event, u: Id, id: string, registration: string)
    requires ValidEvent(cfg, ev) && Fits(ev.pre) && Asks(ev, u, FinishWebAuthn(id, registration)) && Registers(cfg, ev, u, id, registration)
    ensures var db := ev.pre.core.db;
            var (key, publicKey, counter) := Registered(cfg, ev.pre.core, id, registration).value;
            && u in db.users && SameTokens(ev.pre, ev.post) && BatchIfNone(ev, u)
            && ev.post.core == Core(db.(
                 credentials := db.credentials[key := Credential(u, publicKey, counter)],
                 users := db.users[u := db.users[u].(webauthnEnabled := true, mfaEnabled := true)],
                 recovery := ev.post.core.db.recovery), ev.pre.core.cache - {CeremonyEntry(id)})
  {
    var c := ev.pre.core;
    AskedActs(cfg, ev, u, FinishWebAuthn(id, registration));
    FitsParts(ev.pre);
    EventDraws(cfg, ev);
    ReadEntry(c.cache, CeremonyEntry(id), ev.now);
    EntryKeys(id);
    hide ValidEvent, FreshDraw, HexDraw, FactorsFit, Fits, SignedIn, EnsureRecoveryCodes, NewBatch, HasUnused, GetItem, CeremonyKey,
      CeremonyEntry, LiveEntry;
    var (key, publicKey, counter) := Registered(cfg, c, id, registration).value;
    EnsureDoes(ev.pre, ev.entropy, u, RegisterKey(c, id, key, Credential(u, publicKey, counter)));
  }

  predicate Owns(db: Tables, u: Id, key: string) {
    key in db.credentials && db.credentials[key].userId == u
  }

  /** Somebody else's key is not found. */
  lemma RemovalRefused(cfg: Config, ev: Event, u: Id, key: string)
    requires ValidEvent(cfg, ev) && Asks(ev, u, RemoveKey(key)) && !Owns(ev.pre.core.db, u, key)
    ensures ev.out == Failed(NotFound) && NothingHappens(ev)
  {
    AskedActs(cfg, ev, u, RemoveKey(key));
    hide ValidEvent, HexDraw, SignedIn;
  }

  /** A key of one's own goes; with the last one its flag goes, and without an enabled generator the second factor itself. */
  lemma KeyRemoved(cfg: Config, ev: Event, u: Id, key: string)
    requires ValidEvent(cfg, ev) && Asks(ev, u, RemoveKey(key)) && Owns(ev.pre.core.db, u, key)
    ensures var db := ev.pre.core.db;
            var another := exists k | k in db.credentials :: k != key && db.credentials[k].userId == u;
            var generator := u in db.totp && db.totp[u].enabled;
            && u in db.users && ev.out == Accepted && SameTokens(ev.pre, ev.post)
            && ev.post.core == ev.pre.core.(db := db.(
                 credentials := db.credentials - {key},
                 users := db.users[u := db.users[u].(
                   webauthnEnabled := another && db.users[u].webauthnEnabled,
                   mfaEnabled := (another || generator) && db.users[u].mfaEnabled)]))
  {
    AskedActs(cfg, ev, u, RemoveKey(key));
    OthersLeft(ev.pre.core.db.credentials, u, key);
    hide ValidEvent, HexDraw, SignedIn, CredentialsOf, DeleteCredential;
  }

  lemma OthersLeft(credentials: map<string, Credential>, u: Id, key: string)
    requires key in credentials && credentials[key].userId == u
    ensures DeleteCredential(credentials, u, key) == credentials - {key} && key in CredentialsOf(credentials, u)
    ensures CredentialsOf(credentials - {key}, u) != {} <==> exists k | k in credentials :: k != key && credentials[k].userId == u
  {
    var left := CredentialsOf(credentials - {key}, u);
    if k :| k in left {
      assert k in credentials && k != key;
    }
    if k :| k in credentials && k != key && credentials[k].userId == u {
      assert k in left;
    }
  }
}
