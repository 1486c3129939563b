/**
 What requests ask, said of the columns, tokens and cache entries themselves and of
 nothing that a request computes. The modules of answers are stated in these terms.
 */
module Columns {
  import opened Wrappers
  import opened Rows
  import opened Cache
  import opened Protocol
  import opened Machine

  predicate AccountAt(db: Tables, email: string, u: Id) {
    email in db.emails && db.emails[email] == u && u in db.users
  }

  predicate PasswordFits(cfg: Config, row: User, password: string) {
    match row.passwordHash
    case Some(hash) => cfg.passwordOk(password, hash)
    case None => cfg.passwordOk(password, "")
  }

  /** `seconds` is the time rounded up to whole seconds, and one at least. */
  predicate RoundedUp(ms: int, seconds: int) {
    seconds >= 1 && ms <= 1000 * seconds && (seconds > 1 ==> 1000 * (seconds - 1) < ms)
  }

  /** Not past its deadline; an entry without one never is. */
  predicate LiveEntry(cache: Store<Pending>, key: string, now: Time) {
    key in cache && (cache[key].expiresAt == None || cache[key].expiresAt.value >= now)
  }

  function EntryFor(value: Pending, ttl: int, now: Time): Item<Pending> {
    Item(value, if ttl == 0 then None else Some(now + ttl * 1000))
  }

  /** The access token was signed for a session of `u` that stands, and `u` is not disabled. */
  predicate SignedIn(s: Sys, now: Time, access: string, u: Id) {
    && access in s.accessTokens
    && var claims := s.accessTokens[access];
       && claims.exp / 1000 > now / 1000 && claims.sub == u
       && u in s.core.db.users && s.core.db.users[u].status != DISABLED
       && StandingSession(s.core.db, claims.sessionId, u, now)
  }

  predicate StandingSession(db: Tables, id: Id, u: Id, now: Time) {
    id in db.sessions && db.sessions[id].userId == u && db.sessions[id].status == Active && now < db.sessions[id].expiresAt
  }

  predicate SameTokens(s: Sys, s1: Sys) {
    s1.refreshTokens == s.refreshTokens && s1.accessTokens == s.accessTokens
  }

  predicate NothingHappens(ev: Event) {
    ev.post.core == ev.pre.core && SameTokens(ev.pre, ev.post)
  }

  /** The tokens of a login: one new active session of `u`, and a pair of tokens that name it. */
  predicate OpenedFrom(cfg: Config, s: Sys, s1: Sys, now: Time, u: Id, tokens: Tokens, e: Entropy, ttl: int) {
    && tokens.access == e.access && tokens.refresh == e.refresh && tokens.expiresIn == ttl
    && s1.core.db.sessions == s.core.db.sessions[e.uuid := Session(u, Sha256(e.refresh), Active, now + ttl * 1000)]
    && s1.refreshTokens == s.refreshTokens[e.refresh := RefreshClaims(u, e.uuid, now + ttl * 1000)]
    && s1.accessTokens == s.accessTokens[e.access := AccessClaims(u, e.uuid, now + cfg.accessTtl * 1000)]
  }

  predicate SessionOpened(cfg: Config, ev: Event, u: Id, tokens: Tokens, ttl: int) {
    OpenedFrom(cfg, ev.pre, ev.post, ev.now, u, tokens, ev.entropy, ttl)
  }

  predicate NoSessionOpened(ev: Event) {
    ev.post.core.db.sessions == ev.pre.core.db.sessions && SameTokens(ev.pre, ev.post)
  }
}
