/** What answering a second-factor challenge answers and does, by each of the three methods. */
module ChallengeAnswers {
  import opened Wrappers
  import opened Rows
  import opened Cache
  import opened Protocol
  import opened Machine
  import opened Frames
  import opened Columns

  function ChallengeEntry(id: string): string {
    "mfa:login-challenge:" + id
  }

  function CeremonyEntry(id: string): string {
    "mfa:ceremony:" + id
  }

  /** The challenge pends for `u`. */
  predicate Pends(ev: Event, id: string, u: Id) {
    LiveEntry(ev.pre.core.cache, ChallengeEntry(id), ev.now) && ev.pre.core.cache[ChallengeEntry(id)].value.userId == u
  }

  /** A refusal: no table, session or token changes, and of the cache at most entries past their deadline go. */
  ghost predicate Refuses(ev: Event, error: Error) {
    && ev.out == Login(Rejected(error))
    && ev.post.core.db == ev.pre.core.db && SameTokens(ev.pre, ev.post) && OnlyLapsedGo(ev)
  }

  ghost predicate OnlyLapsedGo(ev: Event) {
    var a, b := ev.pre.core.cache, ev.post.core.cache;
    && (forall k | k in b :: k in a && b[k] == a[k])
    && (forall k | LiveEntry(a, k, ev.now) :: k in b)
  }

  /** A login by a second factor: a session for the session timeout, the challenge gone, a device trusted if asked for. */
  predicate LogsInByFactor(cfg: Config, ev: Event, u: Id, remember: bool, gone: set<string>) {
    && ev.out.Login? && ev.out.login.LoggedIn? && ev.out.login.userId == u
    && ev.out.login.deviceToken == (if remember then Some(ev.entropy.token) else None)
    && SessionOpened(cfg, ev, u, ev.out.login.tokens, cfg.sessionTimeoutMinutes * 60)
    && ev.post.core.cache == ev.pre.core.cache - gone
    && ev.post.core.db.devices == ev.pre.core.db.devices + (if remember then {(u, Sha256(ev.entropy.token))} else {})
  }

  // ---------------------------------------------------------------------------
  // No pending challenge
  // ---------------------------------------------------------------------------

  lemma EntryKeys(id: string)
    ensures ChallengeKey(id) == ChallengeEntry(id) && CeremonyKey(id) == CeremonyEntry(id)
  {
  }

  lemma ReadEntry(cache: Store<Pending>, key: string, now: Time)
    ensures var (after, found) := GetItem(cache, key, now);
            && (LiveEntry(cache, key, now) ==> after == cache && found == Some(cache[key].value))
            && (!LiveEntry(cache, key, now) ==> after == cache - {key} && found == None)
  {
  }

  lemma ChallengeRead(c: Core, now: Time, id: string)
    ensures var (c1, user) := ChallengeUser(c, now, id);
            if LiveEntry(c.cache, ChallengeEntry(id), now)
            then c1 == c && user == Some(c.cache[ChallengeEntry(id)].value.userId)
            else c1 == c.(cache := c.cache - {ChallengeEntry(id)}) && user == None
  {
    hide LiveEntry, GetItem;
    ReadEntry(c.cache, ChallengeEntry(id), now);
  }

  predicate AnswersChallenge(req: Request, id: string) {
    match req
    case AnswerTotp(c, _, _) => c == id
    case AnswerRecovery(c, _) => c == id
    case AnswerWebAuthn(c, _, _, _) => c == id
    case _ => false
  }

  /** Without a pending challenge every answer is refused as such. */
  lemma NoChallenge(cfg: Config, ev: Event, id: string)
    requires ValidEvent(cfg, ev) && AnswersChallenge(ev.req, id)
    requires !LiveEntry(ev.pre.core.cache, ChallengeEntry(id), ev.now)
    ensures Refuses(ev, ChallengeInvalid)
  {
    hide HexDraw, Drawn, ChallengeUser, FinishMfaLogin, ChallengeEntry;
    ChallengeRead(ev.pre.core, ev.now, id);
  }

  // ---------------------------------------------------------------------------
  // One-time code
  // ---------------------------------------------------------------------------

  predicate CodeFits(cfg: Config, db: Tables, u: Id, code: string, now: Time) {
    && u in db.totp
    && var secret := cfg.decrypt(db.totp[u].secret);
       secret != None && cfg.totpOk(secret.value, code, now)
  }

  predicate Deciphers(cfg: Config, db: Tables, u: Id) {
    u in db.totp ==> cfg.decrypt(db.totp[u].secret) != None
  }

  lemma FinishedLogin(cfg: Config, s: Sys, core: Core, now: Time, u: Id, device: Option<string>, e: Entropy)
    requires u in core.db.users && core.db.sessions == s.core.db.sessions
    ensures var (s1, out) := FinishMfaLogin(cfg, s.(core := core), now, u, device, e);
            && out.LoggedIn? && out.userId == u && out.deviceToken == device
            && OpenedFrom(cfg, s, s1, now, u, out.tokens, e, cfg.sessionTimeoutMinutes * 60)
            && s1.core == core.(db := core.db.(sessions := s1.core.db.sessions))
  {
  }

  lemma TotpVerified(cfg: Config, c: Core, now: Time, u: Id, id: string, code: string, remember: bool, token: string)
    requires LiveEntry(c.cache, ChallengeEntry(id), now) && c.cache[ChallengeEntry(id)].value.userId == u
    ensures var (c1, r) := VerifyTotpLogin(cfg, c, now, id, code, remember, token);
            if !Deciphers(cfg, c.db, u) then c1 == c && r == Err(DecryptFailed)
            else if !CodeFits(cfg, c.db, u, code, now) then c1 == c && r == Err(CodeInvalid)
            else
              && r == Ok(Verified(u, if remember then Some(token) else None))
              && c1 == Core(c.db.(devices := c.db.devices + (if remember then {(u, Sha256(token))} else {})), c.cache - {ChallengeEntry(id)})
  {
    ChallengeRead(c, now, id);
    EntryKeys(id);
    hide ChallengeUser, LiveEntry, ChallengeEntry, ChallengeKey;
  }

  predicate TotpAsked(ev: Event, u: Id, id: string, code: string, remember: bool) {
    ev.req == AnswerTotp(id, code, remember) && Pends(ev, id, u) && u in ev.pre.core.db.users
  }

  /** The answer to a one-time code on a pending challenge: refused if the secret does not decipher or the code does not fit. */
  lemma TotpRefused(cfg: Config, ev: Event, u: Id, id: string, code: string, remember: bool)
    requires ValidEvent(cfg, ev) && TotpAsked(ev, u, id, code, remember)
    ensures !Deciphers(cfg, ev.pre.core.db, u) ==> Refuses(ev, DecryptFailed)
    ensures Deciphers(cfg, ev.pre.core.db, u) && !CodeFits(cfg, ev.pre.core.db, u, code, ev.now) ==> Refuses(ev, CodeInvalid)
  {
    hide HexDraw, Drawn, FinishMfaLogin, VerifyTotpLogin, ChallengeEntry, Deciphers, CodeFits;
    TotpVerified(cfg, ev.pre.core, ev.now, u, id, code, remember, ev.entropy.token);
  }

  /** And otherwise a login. */
  lemma TotpLogsIn(cfg: Config, ev: Event, u: Id, id: string, code: string, remember: bool)
    requires ValidEvent(cfg, ev) && TotpAsked(ev, u, id, code, remember) && CodeFits(cfg, ev.pre.core.db, u, code, ev.now)
    ensures LogsInByFactor(cfg, ev, u, remember, {ChallengeEntry(id)})
    ensures ev.post.core.db == ev.pre.core.db.(sessions := ev.post.core.db.sessions, devices := ev.post.core.db.devices)
  {
    var s, e := ev.pre, ev.entropy;
    assert Deciphers(cfg, s.core.db, u);
    hide HexDraw, Drawn, FinishMfaLogin, VerifyTotpLogin, ChallengeEntry, LiveEntry, Deciphers, CodeFits;
    TotpVerified(cfg, s.core, ev.now, u, id, code, remember, e.token);
    var (core, r) := VerifyTotpLogin(cfg, s.core, ev.now, id, code, remember, e.token);
    FinishedLogin(cfg, s, core, ev.now, u, r.value.deviceToken, e);
  }

  // ---------------------------------------------------------------------------
  // Recovery code
  // ---------------------------------------------------------------------------

  predicate UnusedCode(db: Tables, u: Id, code: string) {
    var h := Sha256(Normalize(code));
    h in db.recovery && db.recovery[h].userId == u && db.recovery[h].usedAt == None
  }

  predicate RecoveryAsked(ev: Event, u: Id, id: string, code: string) {
    ev.req == AnswerRecovery(id, code) && Pends(ev, id, u) && u in ev.pre.core.db.users
  }

  lemma RecoveryVerified(c: Core, now: Time, u: Id, id: string, code: string)
    requires LiveEntry(c.cache, ChallengeEntry(id), now) && c.cache[ChallengeEntry(id)].value.userId == u
    ensures var (c1, r) := VerifyRecoveryLogin(c, now, id, code);
            if !UnusedCode(c.db, u, code) then c1 == c && r == Err(CodeInvalid)
            else
              && r == Ok(u)
              && c1 == Core(c.db.(recovery := c.db.recovery[Sha256(Normalize(code)) := RecoveryCode(u, Some(now))]),
                            c.cache - {ChallengeEntry(id)})
  {
    ChallengeRead(c, now, id);
    EntryKeys(id);
    hide ChallengeUser, LiveEntry, ChallengeEntry, ChallengeKey, Normalize;
  }

  /** A recovery code on a pending challenge is refused if it is not an unused one of the user. */
  lemma RecoveryRefused(cfg: Config, ev: Event, u: Id, id: string, code: string)
    requires ValidEvent(cfg, ev) && RecoveryAsked(ev, u, id, code) && !UnusedCode(ev.pre.core.db, u, code)
    ensures Refuses(ev, CodeInvalid)
  {
    hide HexDraw, Drawn, FinishMfaLogin, VerifyRecoveryLogin, ChallengeEntry, UnusedCode;
    RecoveryVerified(ev.pre.core, ev.now, u, id, code);
  }

  /** And otherwise logs in, and is used from this moment on. */
  lemma RecoveryLogsIn(cfg: Config, ev: Event, u: Id, id: string, code: string)
    requires ValidEvent(cfg, ev) && RecoveryAsked(ev, u, id, code) && UnusedCode(ev.pre.core.db, u, code)
    ensures LogsInByFactor(cfg, ev, u, false, {ChallengeEntry(id)})
    ensures ev.post.core.db == ev.pre.core.db.(sessions := ev.post.core.db.sessions,
              recovery := ev.pre.core.db.recovery[Sha256(Normalize(code)) := RecoveryCode(u, Some(ev.now))])
  {
    hide HexDraw, Drawn, FinishMfaLogin, VerifyRecoveryLogin, ChallengeEntry, LiveEntry, UnusedCode, Normalize;
    var s, e := ev.pre, ev.entropy;
    RecoveryVerified(s.core, ev.now, u, id, code);
    FinishedLogin(cfg, s, VerifyRecoveryLogin(s.core, ev.now, id, code).0, ev.now, u, None, e);
  }

  // ---------------------------------------------------------------------------
  // Security key
  // ---------------------------------------------------------------------------

  /** Starting the ceremony answers the keys of the user of the challenge and stores what they have to sign. */
  lemma AssertionStarted(cfg: Config, ev: Event, u: Id, id: string)
    requires ValidEvent(cfg, ev) && ev.req == StartAssertion(id) && Pends(ev, id, u)
    ensures var credentials := ev.pre.core.db.credentials;
            && ev.out.Keys? && forall k :: k in ev.out.credentialIds <==> k in credentials && credentials[k].userId == u
    ensures ev.post.core == ev.pre.core.(cache :=
              ev.pre.core.cache[CeremonyEntry(id) := EntryFor(Ceremony(true, u, ev.entropy.token), cfg.challengeTtl, ev.now)])
    ensures SameTokens(ev.pre, ev.post)
  {
    hide HexDraw, Drawn, ChallengeUser, ChallengeEntry, LiveEntry;
    ChallengeRead(ev.pre.core, ev.now, id);
  }

  lemma NoAssertionStarted(cfg: Config, ev: Event, id: string)
    requires ValidEvent(cfg, ev) && ev.req == StartAssertion(id) && !LiveEntry(ev.pre.core.cache, ChallengeEntry(id), ev.now)
    ensures ev.out == Failed(ChallengeInvalid) && ev.post.core.db == ev.pre.core.db && SameTokens(ev.pre, ev.post) && OnlyLapsedGo(ev)
  {
    hide HexDraw, Drawn, ChallengeUser, ChallengeEntry;
    ChallengeRead(ev.pre.core, ev.now, id);
  }

  predicate CeremonyPends(c: Core, now: Time, id: string) {
    && LiveEntry(c.cache, CeremonyEntry(id), now)
    && c.cache[CeremonyEntry(id)].value.Ceremony? && c.cache[CeremonyEntry(id)].value.authenticate
  }

  /** The counter that comes with an assertion by a key of `u` on the ceremony; `None` if it is not one. */
  function Asserted(cfg: Config, c: Core, now: Time, u: Id, id: string, key: string, assertion: string): Option<int>
    requires CeremonyPends(c, now, id)
  {
    var credentials := c.db.credentials;
    if key in credentials && credentials[key].userId == u
    then cfg.assertionOk(assertion, c.cache[CeremonyEntry(id)].value.expectedChallenge, credentials[key])
    else None
  }

  predicate KeyFits(cfg: Config, c: Core, now: Time, u: Id, id: string, key: string, assertion: string) {
    CeremonyPends(c, now, id) && Asserted(cfg, c, now, u, id, key, assertion) != None
  }

  lemma KeyRefusal(cfg: Config, c: Core, now: Time, u: Id, id: string, key: string, assertion: string, remember: bool, token: string)
    requires LiveEntry(c.cache, ChallengeEntry(id), now) && c.cache[ChallengeEntry(id)].value.userId == u
    requires !KeyFits(cfg, c, now, u, id, key, assertion)
    ensures var (c1, r) := VerifyWebAuthnLogin(cfg, c, now, id, key, assertion, remember, token);
            && r == Err(if CeremonyPends(c, now, id) then KeyInvalid else ChallengeInvalid) && c1.db == c.db
            && c1.cache == if LiveEntry(c.cache, CeremonyEntry(id), now) then c.cache else c.cache - {CeremonyEntry(id)}
  {
    ChallengeRead(c, now, id);
    EntryKeys(id);
    ReadEntry(c.cache, CeremonyEntry(id), now);
    hide ChallengeUser, LiveEntry, ChallengeEntry, ChallengeKey, CeremonyKey, CeremonyEntry, GetItem;
  }

  lemma KeyVerified(cfg: Config, c: Core, now: Time, u: Id, id: string, key: string, assertion: string, remember: bool, token: string)
    requires LiveEntry(c.cache, ChallengeEntry(id), now) && c.cache[ChallengeEntry(id)].value.userId == u
    requires KeyFits(cfg, c, now, u, id, key, assertion)
    ensures var (c1, r) := VerifyWebAuthnLogin(cfg, c, now, id, key, assertion, remember, token);
            var counter := Asserted(cfg, c, now, u, id, key, assertion).value;
            && r == Ok(Verified(u, if remember then Some(token) else None))
            && key in c.db.credentials
            && c1 == Core(c.db.(devices := c.db.devices + (if remember then {(u, Sha256(token))} else {}),
                                credentials := c.db.credentials[key := c.db.credentials[key].(signCount := counter)]),
                          c.cache - {ChallengeEntry(id), CeremonyEntry(id)})
  {
    ChallengeRead(c, now, id);
    EntryKeys(id);
    ReadEntry(c.cache, CeremonyEntry(id), now);
    assert c.cache - {CeremonyEntry(id)} - {ChallengeEntry(id)} == c.cache - {ChallengeEntry(id), CeremonyEntry(id)};
    hide ChallengeUser, LiveEntry, ChallengeEntry, ChallengeKey, CeremonyKey, CeremonyEntry, GetItem;
  }

  predicate KeyAsked(ev: Event, u: Id, id: string, key: string, assertion: string, remember: bool) {
    ev.req == AnswerWebAuthn(id, key, assertion, remember) && Pends(ev, id, u) && u in ev.pre.core.db.users
  }

  /** A security key on a pending challenge is refused without a ceremony, or if it is not a key of the user that signs it. */
  lemma KeyRefused(cfg: Config, ev: Event, u: Id, id: string, key: string, assertion: string, remember: bool)
    requires ValidEvent(cfg, ev) && KeyAsked(ev, u, id, key, assertion, remember)
    requires !KeyFits(cfg, ev.pre.core, ev.now, u, id, key, assertion)
    ensures Refuses(ev, if CeremonyPends(ev.pre.core, ev.now, id) then KeyInvalid else ChallengeInvalid)
  {
    hide HexDraw, Drawn, FinishMfaLogin, VerifyWebAuthnLogin, ChallengeEntry, CeremonyEntry, KeyFits, CeremonyPends;
    KeyRefusal(cfg, ev.pre.core, ev.now, u, id, key, assertion, remember, ev.entropy.token);
  }

  /** And otherwise logs in; its counter is written, and challenge and ceremony go. */
  lemma KeyLogsIn(cfg: Config, ev: Event, u: Id, id: string, key: string, assertion: string, remember: bool)
    requires ValidEvent(cfg, ev) && KeyAsked(ev, u, id, key, assertion, remember)
    requires KeyFits(cfg, ev.pre.core, ev.now, u, id, key, assertion)
    ensures LogsInByFactor(cfg, ev, u, remember, {ChallengeEntry(id), CeremonyEntry(id)})
    ensures var credentials := ev.pre.core.db.credentials;
            && key in credentials
            && ev.post.core.db == ev.pre.core.db.(sessions := ev.post.core.db.sessions, devices := ev.post.core.db.devices,
                 credentials := credentials[key := credentials[key].(
                   signCount := Asserted(cfg, ev.pre.core, ev.now, u, id, key, assertion).value)])
  {
    hide HexDraw, Drawn, FinishMfaLogin, VerifyWebAuthnLogin, ChallengeEntry, CeremonyEntry, LiveEntry, KeyFits, CeremonyPends, Asserted;
    var s, e := ev.pre, ev.entropy;
    KeyVerified(cfg, s.core, ev.now, u, id, key, assertion, remember, e.token);
    var (core, r) := VerifyWebAuthnLogin(cfg, s.core, ev.now, id, key, assertion, remember, e.token);
    FinishedLogin(cfg, s, core, ev.now, u, r.value.deviceToken, e);
  }
}
