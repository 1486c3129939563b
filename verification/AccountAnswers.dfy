/** What signing up, asking for another mail and confirming an address answer and do; who has which role. */
module AccountAnswers {
  import opened Wrappers
  import opened Rows
  import opened Cache
  import opened Protocol
  import opened Machine
  import opened Consistency
  import opened Frames
  import opened Columns

  // ---------------------------------------------------------------------------
  // Accounts and their tokens
  // ---------------------------------------------------------------------------

  /** A token for `u` that was just mailed is the only usable one of `u`; every other row stays as it was. */
  ghost predicate Mailed(cfg: Config, ev: Event, u: Id) {
    var a, b, h := ev.pre.core.db.verifications, ev.post.core.db.verifications, Sha256(ev.entropy.token);
    && h in b && b[h] == EmailVerification(u, ev.now + cfg.verificationTtl * 1000, None)
    && (forall g :: g in b <==> g in a || g == h)
    && (forall g | g in a && g != h ::
          b[g] == if a[g].userId == u && a[g].usedAt == None then EmailVerification(u, a[g].expiresAt, Some(ev.now)) else a[g])
  }

  ghost predicate OnlyMailed(cfg: Config, ev: Event, u: Id) {
    && Mailed(cfg, ev, u) && SameTokens(ev.pre, ev.post)
    && ev.post.core == ev.pre.core.(db := ev.pre.core.db.(verifications := ev.post.core.db.verifications))
  }

  function Newcomer(cfg: Config, email: string, password: string): User {
    User(email := email, passwordHash := Some(cfg.hashPassword(password)), role := USER, status := PENDING_VERIFICATION,
         emailVerified := false, mfaEnabled := false, totpEnabled := false, webauthnEnabled := false,
         failedLoginAttempts := 0, lockedUntil := None)
  }

  /** Signing up under a free address: an account without privileges or second factors, pending, and a token for it. */
  lemma SignUpNew(cfg: Config, ev: Event)
    requires ValidEvent(cfg, ev) && ev.req.SignUp? && forall u :: !AccountAt(ev.pre.core.db, ev.req.email, u)
    ensures ev.out == Accepted && SameTokens(ev.pre, ev.post) && Mailed(cfg, ev, ev.entropy.uuid)
    ensures var db, u := ev.pre.core.db, ev.entropy.uuid;
            ev.post.core == ev.pre.core.(db := db.(
              users := db.users[u := Newcomer(cfg, ev.req.email, ev.req.password)],
              emails := db.emails[ev.req.email := u],
              verifications := ev.post.core.db.verifications))
  {
    hide HexDraw, Drawn;
    var db := ev.pre.core.db;
    NobodyThere(db, ev.req.email);
  }

  lemma NobodyThere(db: Tables, email: string)
    requires forall u :: !AccountAt(db, email, u)
    ensures FindByEmail(db, email) == None
  {
    assert email in db.emails ==> !AccountAt(db, email, db.emails[email]);
  }

  /** Signing up again, and asking for another mail: a new token if the address is not verified, and otherwise nothing. */
  lemma SignUpAgain(cfg: Config, ev: Event, u: Id)
    requires ValidEvent(cfg, ev) && (ev.req.SignUp? || ev.req.Resend?) && AccountAt(ev.pre.core.db, ev.req.email, u)
    ensures ev.out == Accepted
    ensures if ev.pre.core.db.users[u].emailVerified then NothingHappens(ev) else OnlyMailed(cfg, ev, u)
  {
    hide HexDraw, Drawn;
  }

  lemma ResendToNobody(cfg: Config, ev: Event)
    requires ValidEvent(cfg, ev) && ev.req.Resend? && forall u :: !AccountAt(ev.pre.core.db, ev.req.email, u)
    ensures ev.out == Accepted && NothingHappens(ev)
  {
    hide HexDraw, Drawn;
    NobodyThere(ev.pre.core.db, ev.req.email);
  }

  // ---------------------------------------------------------------------------
  // Confirming
  // ---------------------------------------------------------------------------

  /** A row for the token, of an account that is there. */
  predicate TokenOf(ev: Event, u: Id) {
    && ev.req.ConfirmEmail?
    && var verifications, h := ev.pre.core.db.verifications, Sha256(ev.req.verification);
       h in verifications && verifications[h].userId == u && u in ev.pre.core.db.users
  }

  predicate Usable(ev: Event)
    requires ev.req.ConfirmEmail? && Sha256(ev.req.verification) in ev.pre.core.db.verifications
  {
    var row := ev.pre.core.db.verifications[Sha256(ev.req.verification)];
    row.usedAt == None && ev.now <= row.expiresAt
  }

  /** An account verified already is confirmed by any token it ever had; one that is not, by a usable token, and becomes active. */
  lemma ConfirmAnswer(cfg: Config, ev: Event, u: Id)
    requires ValidEvent(cfg, ev) && TokenOf(ev, u)
    ensures SameTokens(ev.pre, ev.post)
    ensures var db, h := ev.pre.core.db, Sha256(ev.req.verification);
            var used := db.verifications[h := db.verifications[h].(usedAt := Some(ev.now))];
            if db.users[u].emailVerified then
              ev.out == Confirmed(u) && ev.post.core == ev.pre.core.(db := db.(verifications := used))
            else if Usable(ev) then
              && ev.out == Confirmed(u)
              && ev.post.core == ev.pre.core.(db := db.(verifications := used,
                   users := db.users[u := db.users[u].(emailVerified := true, status := ACTIVE)]))
            else ev.out == Failed(VerificationInvalid) && ev.post.core == ev.pre.core
  {
    hide HexDraw, Drawn;
  }

  lemma ConfirmUnknown(cfg: Config, ev: Event)
    requires ValidEvent(cfg, ev) && ev.req.ConfirmEmail? && forall u :: !TokenOf(ev, u)
    ensures ev.out == Failed(VerificationInvalid) && NothingHappens(ev)
  {
    hide HexDraw, Drawn;
    var verifications, h := ev.pre.core.db.verifications, Sha256(ev.req.verification);
    assert h in verifications ==> !TokenOf(ev, verifications[h].userId);
  }
}
