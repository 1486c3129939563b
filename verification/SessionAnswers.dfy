/**
 What refreshing, signing out and an authenticated request answer, from the columns, and
 what the tokens handed out are good for.
 */
module SessionAnswers {
  import opened Wrappers
  import opened Rows
  import opened Cache
  import opened Protocol
  import opened Machine
  import opened Consistency
  import opened Provenance
  import opened Rotation
  import opened SessionLifetimes
  import opened Columns
  import opened SignInAnswers
  import opened ChallengeAnswers

  // ---------------------------------------------------------------------------
  // Admission
  // ---------------------------------------------------------------------------

  predicate UnexpiredAccess(s: Sys, now: Time, access: string) {
    access in s.accessTokens && s.accessTokens[access].exp / 1000 > now / 1000
  }

  predicate UnexpiredRefresh(s: Sys, now: Time, token: string) {
    token in s.refreshTokens && s.refreshTokens[token].exp / 1000 > now / 1000
  }

  /** The exact answer of the middleware. */
  lemma AdmittedIff(s: Sys, now: Time, access: string)
    ensures forall u :: Authenticate(s, now, access) == Ok(u) <==> SignedIn(s, now, access, u)
    ensures Authenticate(s, now, access).Ok? ==> SignedIn(s, now, access, Authenticate(s, now, access).value)
    ensures Authenticate(s, now, access) == Err(TokenInvalid) <==> !UnexpiredAccess(s, now, access)
    ensures UnexpiredAccess(s, now, access) ==>
              var db, claims := s.core.db, s.accessTokens[access];
              && (Authenticate(s, now, access) == Err(AccountMissing) <==> claims.sub !in db.users)
              && (Authenticate(s, now, access) == Err(AccountDisabled) <==> claims.sub in db.users && db.users[claims.sub].status == DISABLED)
              && (Authenticate(s, now, access) == Err(SessionInactive) <==>
                    && claims.sub in db.users && db.users[claims.sub].status != DISABLED
                    && !StandingSession(db, claims.sessionId, claims.sub, now))
  {
  }

  // ---------------------------------------------------------------------------
  // Refresh
  // ---------------------------------------------------------------------------

  /** The refresh token names an active session whose account there is. */
  predicate NamesActive(ev: Event) {
    && ev.req.RefreshSession? && UnexpiredRefresh(ev.pre, ev.now, ev.req.refresh)
    && var db, id := ev.pre.core.db, ev.pre.refreshTokens[ev.req.refresh].jti;
       id in db.sessions && db.sessions[id].status == Active && db.sessions[id].userId in db.users
  }

  function Named(ev: Event): Id
    requires NamesActive(ev)
  {
    ev.pre.refreshTokens[ev.req.refresh].jti
  }

  ghost predicate OnlySession(ev: Event, id: Id, session: Session) {
    ev.post.core == ev.pre.core.(db := ev.pre.core.db.(sessions := ev.pre.core.db.sessions[id := session]))
  }

  /** Refresh tokens that are unknown, expired or name no active session. */
  lemma RefreshUnnamed(cfg: Config, ev: Event)
    requires ValidEvent(cfg, ev) && ev.req.RefreshSession? && !NamesActive(ev)
    ensures NothingHappens(ev)
    ensures ev.out == Failed(if UnexpiredRefresh(ev.pre, ev.now, ev.req.refresh) then SessionInactive else TokenInvalid)
  {
    hide HexDraw, Drawn, Rotated, EndSession, SecondsUp;
  }

  /** A token that is not the session's last ends the session; so does a last token past the session's expiry. */
  lemma RefreshEnds(cfg: Config, ev: Event)
    requires ValidEvent(cfg, ev) && NamesActive(ev)
    ensures var session := ev.pre.core.db.sessions[Named(ev)];
            && (session.refreshTokenHash != Sha256(ev.req.refresh) ==>
                  && ev.out == Failed(TokenReused) && SameTokens(ev.pre, ev.post)
                  && OnlySession(ev, Named(ev), session.(status := Revoked)))
            && (session.refreshTokenHash == Sha256(ev.req.refresh) && session.expiresAt < ev.now ==>
                  && ev.out == Failed(SessionExpired) && SameTokens(ev.pre, ev.post)
                  && OnlySession(ev, Named(ev), session.(status := Expired)))
  {
    hide HexDraw, Drawn, Rotated, SecondsUp;
  }

  predicate LastInTime(ev: Event) {
    && NamesActive(ev)
    && var session := ev.pre.core.db.sessions[Named(ev)];
       session.refreshTokenHash == Sha256(ev.req.refresh) && session.expiresAt >= ev.now
  }

  /** The last token in time gets a new pair, unless the account is disabled; the expiry of the session stays. */
  lemma RefreshAnswer(cfg: Config, ev: Event)
    requires ValidEvent(cfg, ev) && LastInTime(ev)
    ensures var session, e := ev.pre.core.db.sessions[Named(ev)], ev.entropy;
            if ev.pre.core.db.users[session.userId].status == DISABLED then ev.out == Failed(AccountDisabled) && NothingHappens(ev)
            else
              && ev.out.Refreshed? && ev.out.tokens.access == e.access && ev.out.tokens.refresh == e.refresh
              && RoundedUp(session.expiresAt - ev.now, ev.out.tokens.expiresIn)
              && OnlySession(ev, Named(ev), session.(refreshTokenHash := Sha256(e.refresh)))
              && ev.post.refreshTokens == ev.pre.refreshTokens[e.refresh :=
                   RefreshClaims(session.userId, Named(ev), ev.now + ev.out.tokens.expiresIn * 1000)]
              && ev.post.accessTokens == ev.pre.accessTokens[e.access :=
                   AccessClaims(session.userId, Named(ev), ev.now + cfg.accessTtl * 1000)]
  {
    hide HexDraw, Drawn, EndSession, SecondsUp, RoundedUp;
    RoundsUp(ev.pre.core.db.sessions[Named(ev)].expiresAt - ev.now);
  }

  // ---------------------------------------------------------------------------
  // Signing out
  // ---------------------------------------------------------------------------

  /** The session of the refresh cookie if that is good, and otherwise that of the access cookie if that is. */
  function SignsOutOf(ev: Event): Option<Id>
    requires ev.req.SignOut?
  {
    var s, r, a := ev.pre, ev.req.refreshCookie, ev.req.accessCookie;
    if r != None && UnexpiredRefresh(s, ev.now, r.value) then Some(s.refreshTokens[r.value].jti)
    else if a != None && UnexpiredAccess(s, ev.now, a.value) then Some(s.accessTokens[a.value].sessionId)
    else None
  }

  /** Signing out revokes that session and nothing else; cookies that are no good are not an error. */
  lemma SignOutAnswer(cfg: Config, ev: Event)
    requires ValidEvent(cfg, ev) && ev.req.SignOut?
    ensures SameTokens(ev.pre, ev.post) && ev.out == SignedOut(SignsOutOf(ev) != None)
    ensures var sessions := ev.pre.core.db.sessions;
            if SignsOutOf(ev) != None && SignsOutOf(ev).value in sessions
            then OnlySession(ev, SignsOutOf(ev).value, sessions[SignsOutOf(ev).value].(status := Revoked))
            else ev.post.core == ev.pre.core
  {
    hide HexDraw, Drawn;
  }

  // ---------------------------------------------------------------------------
  // What the tokens are good for
  // ---------------------------------------------------------------------------

  /** The event hands these tokens to `u`: by a login, or by the refresh of a session of `u`. */
  predicate HandsTo(ev: Event, u: Id, tokens: Tokens) {
    match ev.out
    case Login(LoggedIn(v, t, _)) => v == u && t == tokens
    case Refreshed(t) => t == tokens && NamesActive(ev) && ev.pre.core.db.sessions[Named(ev)].userId == u
    case _ => false
  }

  /** The pair names one session of `u`, which stands, and expires about as the answer says. */
  predicate PairFor(cfg: Config, s: Sys, now: Time, u: Id, tokens: Tokens) {
    && tokens.refresh in s.refreshTokens && tokens.access in s.accessTokens
    && var r, a := s.refreshTokens[tokens.refresh], s.accessTokens[tokens.access];
       && r.sub == u && a.sub == u && a.sessionId == r.jti
       && r.exp == now + tokens.expiresIn * 1000 && a.exp == now + cfg.accessTtl * 1000
       && r.jti in s.core.db.sessions
       && var session := s.core.db.sessions[r.jti];
          && session.userId == u && session.status == Active && session.refreshTokenHash == Sha256(tokens.refresh)
          && (session.expiresAt == r.exp || RoundedUp(session.expiresAt - now, tokens.expiresIn))
  }

  lemma OpenedPair(cfg: Config, ev: Event, u: Id, tokens: Tokens, ttl: int)
    requires SessionOpened(cfg, ev, u, tokens, ttl)
    ensures PairFor(cfg, ev.post, ev.now, u, tokens)
  {
  }

  lemma RefreshedPair(cfg: Config, ev: Event, u: Id, tokens: Tokens)
    requires ValidEvent(cfg, ev) && ev.out == Refreshed(tokens) && HandsTo(ev, u, tokens)
    ensures PairFor(cfg, ev.post, ev.now, u, tokens)
  {
    hide ValidEvent, RoundedUp;
    RefreshEnds(cfg, ev);
    RefreshAnswer(cfg, ev);
  }

  lemma SignInOpens(cfg: Config, ev: Event, u: Id) returns (ttl: int)
    requires ValidEvent(cfg, ev) && ev.req.SignIn? && LogsIn(ev, u)
    ensures SessionOpened(cfg, ev, u, ev.out.login.tokens, ttl)
  {
    hide ValidEvent, AccountAt, OpenedFrom, ChallengeOpened, AsksPassword, PasswordFits, NeedsFactor, NothingHappens, LockStands;
    if v :| AccountAt(ev.pre.core.db, ev.req.email, v) {
      SignInAnswer(cfg, ev, v);
      if NeedsFactor(ev, v) {
        RightPasswordChallenged(cfg, ev, v);
        ChallengesOnly(cfg, ev, v);
      } else {
        RightPasswordLogsIn(cfg, ev, v);
        ttl := if ev.req.rememberMe then cfg.refreshTtl else cfg.sessionTimeoutMinutes * 60;
      }
    } else {
      UnknownAddress(cfg, ev);
    }
  }

  lemma ChallengesOnly(cfg: Config, ev: Event, u: Id)
    requires SignsIn(ev, u) && ChallengeOpened(cfg, ev, u, ev.req.rememberMe, Offered(ev.pre.core.db.users[u]))
    ensures !(ev.out.Login? && ev.out.login.LoggedIn?)
  {
  }

  lemma PendingUser(s: Sys, id: string, now: Time)
    requires Fits(s) && LiveEntry(s.core.cache, ChallengeEntry(id), now)
    ensures s.core.cache[ChallengeEntry(id)].value.userId in s.core.db.users
  {
    EntryKeys(id);
    hide UsersFit, FactorsFit, SessionsFit, ChallengeEntry, ChallengeKey, LiveEntry;
    assert ChallengeKey(id) in s.core.cache by { LiveIsThere(s.core.cache, ChallengeEntry(id), now); }
  }

  lemma LiveIsThere(cache: Store<Pending>, key: string, now: Time)
    requires LiveEntry(cache, key, now)
    ensures key in cache
  {
  }

  lemma FactorOpens(cfg: Config, ev: Event, u: Id, remember: bool, gone: set<string>)
    requires LogsInByFactor(cfg, ev, u, remember, gone)
    ensures ev.out.Login? && ev.out.login.LoggedIn? && ev.out.login.userId == u
    ensures SessionOpened(cfg, ev, u, ev.out.login.tokens, cfg.sessionTimeoutMinutes * 60)
  {
    hide OpenedFrom;
  }

  lemma RefusesLogin(ev: Event)
    ensures forall error :: Refuses(ev, error) ==> ev.out == Login(Rejected(error))
  {
  }

  lemma AnswerOpens(cfg: Config, ev: Event, u: Id)
    requires ValidEvent(cfg, ev) && Fits(ev.pre) && Answers(ev.req) && LogsIn(ev, u)
    ensures SessionOpened(cfg, ev, u, ev.out.login.tokens, cfg.sessionTimeoutMinutes * 60)
  {
    var id := ev.req.challengeId;
    RefusesLogin(ev);
    hide ValidEvent, Fits, Refuses, LogsInByFactor, SessionOpened, ChallengeEntry, LiveEntry, CodeFits, Deciphers, UnusedCode, KeyFits, CeremonyPends;
    if !LiveEntry(ev.pre.core.cache, ChallengeEntry(id), ev.now) {
      NoChallenge(cfg, ev, id);
    } else {
      PendingUser(ev.pre, id, ev.now);
      LiveIsThere(ev.pre.core.cache, ChallengeEntry(id), ev.now);
      LiveAnswerOpens(cfg, ev, ev.pre.core.cache[ChallengeEntry(id)].value.userId);
    }
  }

  lemma LiveAnswerOpens(cfg: Config, ev: Event, v: Id)
    requires ValidEvent(cfg, ev) && Answers(ev.req) && Pends(ev, ev.req.challengeId, v) && v in ev.pre.core.db.users
    requires ev.out.Login? && ev.out.login.LoggedIn?
    ensures ev.out.login.userId == v && SessionOpened(cfg, ev, v, ev.out.login.tokens, cfg.sessionTimeoutMinutes * 60)
  {
    RefusesLogin(ev);
    hide ValidEvent, Refuses, LogsInByFactor, SessionOpened, Pends, CodeFits, Deciphers, UnusedCode, KeyFits, CeremonyPends;
    match ev.req
    case AnswerTotp(id, code, remember) =>
      TotpRefused(cfg, ev, v, id, code, remember);
      if Deciphers(cfg, ev.pre.core.db, v) {
        TotpLogsIn(cfg, ev, v, id, code, remember);
        FactorOpens(cfg, ev, v, remember, {ChallengeEntry(id)});
      }
    case AnswerRecovery(id, code) =>
      if UnusedCode(ev.pre.core.db, v, code) {
        RecoveryLogsIn(cfg, ev, v, id, code);
        FactorOpens(cfg, ev, v, false, {ChallengeEntry(id)});
      } else {
        RecoveryRefused(cfg, ev, v, id, code);
      }
    case AnswerWebAuthn(id, key, assertion, remember) =>
      if KeyFits(cfg, ev.pre.core, ev.now, v, id, key, assertion) {
        KeyLogsIn(cfg, ev, v, id, key, assertion, remember);
        FactorOpens(cfg, ev, v, remember, {ChallengeEntry(id), CeremonyEntry(id)});
      } else {
        KeyRefused(cfg, ev, v, id, key, assertion, remember);
      }
  }

  /** Whatever event hands out tokens, the pair is for the account it names. */
  lemma HandedPair(cfg: Config, ev: Event, u: Id, tokens: Tokens)
    requires ValidEvent(cfg, ev) && Fits(ev.pre) && HandsTo(ev, u, tokens)
    ensures PairFor(cfg, ev.post, ev.now, u, tokens)
  {
    hide ValidEvent, Fits, PairFor, SessionOpened, NamesActive;
    if ev.out.Login? {
      LoginLasts(cfg, ev, u);
      if ev.req.SignIn? {
        var ttl := SignInOpens(cfg, ev, u);
        OpenedPair(cfg, ev, u, tokens, ttl);
      } else {
        AnswerOpens(cfg, ev, u);
        OpenedPair(cfg, ev, u, tokens, cfg.sessionTimeoutMinutes * 60);
      }
    } else {
      HandedByRefresh(ev, u, tokens);
      RefreshedPair(cfg, ev, u, tokens);
    }
  }

  lemma HandedByRefresh(ev: Event, u: Id, tokens: Tokens)
    requires HandsTo(ev, u, tokens) && !ev.out.Login?
    ensures ev.out == Refreshed(tokens)
  {
  }

  /**
   The access token handed out lets its account in, and nobody else, at every time from then on until it
   expires, its session expires or the account is disabled.
   */
  lemma AccessTokenLetsIn(cfg: Config, ev: Event, u: Id, tokens: Tokens, now: Time)
    requires ValidEvent(cfg, ev) && Fits(ev.pre) && HandsTo(ev, u, tokens) && u in ev.post.core.db.users
    ensures PairFor(cfg, ev.post, ev.now, u, tokens)
    ensures Authenticate(ev.post, now, tokens.access) == Ok(u) <==>
              && now / 1000 < (ev.now + cfg.accessTtl * 1000) / 1000
              && now < ev.post.core.db.sessions[ev.post.refreshTokens[tokens.refresh].jti].expiresAt
              && ev.post.core.db.users[u].status != DISABLED
  {
    hide ValidEvent, Fits, HandsTo, Authenticate, RoundedUp;
    HandedPair(cfg, ev, u, tokens);
    AdmittedIff(ev.post, now, tokens.access);
  }

  lemma PairLater(cfg: Config, s: Sys, s1: Sys, handed: Time, u: Id, tokens: Tokens, now: Time)
    requires PairFor(cfg, s, handed, u, tokens) && Later(s, s1)
    ensures tokens.access in s1.accessTokens && tokens.refresh in s.refreshTokens
    ensures var id := s.refreshTokens[tokens.refresh].jti;
            && id in s.core.db.sessions && id in s1.core.db.sessions
            && s1.core.db.sessions[id].expiresAt == s.core.db.sessions[id].expiresAt
            && (SignedIn(s1, now, tokens.access, u) <==>
                  && now / 1000 < (handed + cfg.accessTtl * 1000) / 1000 && now < s.core.db.sessions[id].expiresAt
                  && s1.core.db.sessions[id].status == Active
                  && u in s1.core.db.users && s1.core.db.users[u].status != DISABLED)
  {
    hide RoundedUp;
  }

  /**
   Over runs: an access token handed out in event `i` lets its account in at any later point exactly
   until it expires, its session expires or is ended, or as long as the account is not disabled.
   */
  lemma AccessTokenOverRuns(cfg: Config, run: seq<Event>, i: nat, n: nat, u: Id, tokens: Tokens, now: Time)
    requires ValidRun(cfg, run) && i < n <= |run| && Fits(run[0].pre) && HandsTo(run[i], u, tokens)
    ensures tokens.refresh in run[i].post.refreshTokens
    ensures var id, s := run[i].post.refreshTokens[tokens.refresh].jti, StateAt(run, n);
            && id in run[i].post.core.db.sessions && id in s.core.db.sessions
            && (Authenticate(s, now, tokens.access) == Ok(u) <==>
                  && now / 1000 < (run[i].now + cfg.accessTtl * 1000) / 1000
                  && now < run[i].post.core.db.sessions[id].expiresAt
                  && s.core.db.sessions[id].status == Active
                  && u in s.core.db.users && s.core.db.users[u].status != DISABLED)
  {
    hide ValidEvent, Fits, HandsTo, Authenticate, PairFor, SignedIn, Later;
    RunFits(cfg, run, i);
    HandedPair(cfg, run[i], u, tokens);
    SessionsOnlyEnd(cfg, run, i + 1, n);
    assert StateAt(run, i + 1) == run[i].post;
    PairLater(cfg, run[i].post, StateAt(run, n), run[i].now, u, tokens, now);
    AdmittedIff(StateAt(run, n), now, tokens.access);
  }
}
