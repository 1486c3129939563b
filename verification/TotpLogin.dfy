/** The one-time-code check of the service is that of `Totp`; what that says about logins. */
module TotpLogin {
  import opened Wrappers
  import opened Rows
  import opened Cache
  import opened Protocol
  import opened Machine
  import opened Consistency
  import opened Provenance
  import Totp
  import Base32

  /** Steps of tolerated clock drift. */
  const DRIFT_STEPS := 1

  /** The whole check of a code at a time; a check that throws lets nobody in. */
  ghost predicate Checks(hmac: Totp.Hmac, secret: string, code: string, now: Time)
    requires Totp.LongDigests(hmac)
  {
    && Base32.Ascii(secret)
    && Totp.Verify(hmac, secret, code, DRIFT_STEPS, now, Totp.DEFAULT_STEP_SECONDS, Totp.DEFAULT_DIGITS) == Ok(true)
  }

  /** The configuration of a service that checks codes so. */
  ghost predicate UsesTotp(cfg: Config, hmac: Totp.Hmac)
    requires Totp.LongDigests(hmac)
  {
    forall secret, code, now :: cfg.totpOk(secret, code, now) <==> Checks(hmac, secret, code, now)
  }

  /** `ev` answers a live challenge of `u`, whose stored secret is `secret`, with `code`. */
  predicate AnswersWith(cfg: Config, ev: Event, u: Id, secret: string, code: string) {
    && ev.req.AnswerTotp? && ev.req.code == code && LiveChallenge(ev.pre.core.cache, ev.req.challengeId, u, ev.now)
    && u in ev.pre.core.db.totp && cfg.decrypt(ev.pre.core.db.totp[u].secret) == Some(secret) && Base32.Ascii(secret)
  }

  ghost predicate Usable(secret: string, now: Time)
    requires Base32.Ascii(secret)
  {
    Totp.WindowUsable(secret, DRIFT_STEPS, now, Totp.DEFAULT_STEP_SECONDS, Totp.DEFAULT_DIGITS)
  }

  lemma LogsInIffChecked(cfg: Config, hmac: Totp.Hmac, ev: Event, u: Id, secret: string, code: string)
    requires Totp.LongDigests(hmac) && UsesTotp(cfg, hmac) && ValidEvent(cfg, ev) && Fits(ev.pre)
    requires AnswersWith(cfg, ev, u, secret, code)
    ensures LogsIn(ev, u) <==> Checks(hmac, secret, code, ev.now)
  {
    hide ValidEvent, Fits, LiveChallenge, Checks;
    AnswersIff(cfg, ev, u);
  }

  /** Such an answer logs in exactly when the code, trimmed, is that of a counter at most one step away. */
  lemma LogsInIffInWindow(cfg: Config, hmac: Totp.Hmac, ev: Event, u: Id, secret: string, code: string)
    requires Totp.LongDigests(hmac) && UsesTotp(cfg, hmac) && ValidEvent(cfg, ev) && Fits(ev.pre)
    requires AnswersWith(cfg, ev, u, secret, code) && Usable(secret, ev.now)
    ensures var c := Totp.CounterAt(ev.now, Totp.DEFAULT_STEP_SECONDS);
            LogsIn(ev, u) <==>
              exists i :: c - DRIFT_STEPS <= i <= c + DRIFT_STEPS
                          && Totp.GenerateHmacOtp(hmac, secret, i, Totp.DEFAULT_DIGITS) == Ok(Totp.Trim(code))
  {
    LogsInIffChecked(cfg, hmac, ev, u, secret, code);
    hide ValidEvent, Fits, LiveChallenge, UsesTotp, LogsIn, Totp.Verify, Totp.GenerateHmacOtp, Totp.CounterAt, Totp.Trim;
    Totp.AcceptedIffInWindow(hmac, secret, code, DRIFT_STEPS, ev.now, Totp.DEFAULT_STEP_SECONDS, Totp.DEFAULT_DIGITS);
  }

  /** A code an authenticator made at `t` logs in as long as the two clocks differ by at most thirty seconds. */
  lemma DriftedCodeLogsIn(cfg: Config, hmac: Totp.Hmac, ev: Event, u: Id, secret: string, code: string, t: Time)
    requires Totp.LongDigests(hmac) && UsesTotp(cfg, hmac) && ValidEvent(cfg, ev) && Fits(ev.pre)
    requires AnswersWith(cfg, ev, u, secret, code) && Usable(secret, ev.now)
    requires Totp.GenerateTotp(hmac, secret, t, Totp.DEFAULT_STEP_SECONDS, Totp.DEFAULT_DIGITS) == Ok(code)
    requires t - 30000 <= ev.now <= t + 30000
    ensures LogsIn(ev, u)
  {
    LogsInIffChecked(cfg, hmac, ev, u, secret, code);
    hide ValidEvent, Fits, LiveChallenge, UsesTotp, LogsIn, Totp.Verify, Totp.GenerateHmacOtp, Totp.CounterAt, Totp.GenerateTotp;
    Totp.DriftTolerated(hmac, secret, code, DRIFT_STEPS, t, ev.now, Totp.DEFAULT_STEP_SECONDS, Totp.DEFAULT_DIGITS);
  }

  /**
   Section 5.2 of RFC 6238 asks that a code be accepted once. The service remembers only the
   challenge: the code of counter `i` logs in on every live challenge answered with it from
   the start of step `i - 1` to the end of step `i + 1`, used before or not, and, absent a
   collision, at no other time.
   */
  lemma CodeLogsInThroughoutWindow(cfg: Config, hmac: Totp.Hmac, ev: Event, u: Id, secret: string, code: string, i: int)
    requires Totp.LongDigests(hmac) && UsesTotp(cfg, hmac) && ValidEvent(cfg, ev) && Fits(ev.pre)
    requires AnswersWith(cfg, ev, u, secret, code) && Usable(secret, ev.now)
    requires Totp.GenerateHmacOtp(hmac, secret, i, Totp.DEFAULT_DIGITS) == Ok(code)
    requires var c := Totp.CounterAt(ev.now, Totp.DEFAULT_STEP_SECONDS);
             forall j :: c - DRIFT_STEPS <= j <= c + DRIFT_STEPS && j != i ==>
               Totp.GenerateHmacOtp(hmac, secret, j, Totp.DEFAULT_DIGITS) != Ok(code)
    ensures LogsIn(ev, u) <==> (i - 1) * 30000 <= ev.now < (i + 2) * 30000
  {
    LogsInIffChecked(cfg, hmac, ev, u, secret, code);
    hide ValidEvent, Fits, LiveChallenge, UsesTotp, LogsIn, Totp.Verify, Totp.GenerateHmacOtp, Totp.CounterAt;
    Totp.AcceptedThroughoutWindow(hmac, secret, code, i, DRIFT_STEPS, ev.now, Totp.DEFAULT_STEP_SECONDS, Totp.DEFAULT_DIGITS);
  }

  lemma CodeOfWindowLogsIn(cfg: Config, hmac: Totp.Hmac, ev: Event, u: Id, secret: string, code: string, i: int)
    requires Totp.LongDigests(hmac) && UsesTotp(cfg, hmac) && ValidEvent(cfg, ev) && Fits(ev.pre)
    requires AnswersWith(cfg, ev, u, secret, code) && Usable(secret, ev.now)
    requires Totp.GenerateHmacOtp(hmac, secret, i, Totp.DEFAULT_DIGITS) == Ok(code)
    requires (i - 1) * 30000 <= ev.now < (i + 2) * 30000
    ensures LogsIn(ev, u)
  {
    InWindow(ev.now, i);
    Totp.CodeIsDigits(hmac, secret, i, Totp.DEFAULT_DIGITS);
    Totp.TrimDigits(code);
    hide ValidEvent, Fits, LiveChallenge, UsesTotp, LogsIn, Totp.GenerateHmacOtp, Totp.CounterAt, Totp.Trim, Totp.Digits;
    LogsInIffInWindow(cfg, hmac, ev, u, secret, code);
  }

  /** So one code completes two logins, on two challenges, within that time. */
  lemma OneCodeTwoLogins(cfg: Config, hmac: Totp.Hmac, run: seq<Event>, m: nat, n: nat, u: Id, secret: string, code: string, i: int)
    requires Totp.LongDigests(hmac) && UsesTotp(cfg, hmac) && ValidRun(cfg, run) && m < n < |run| && Fits(run[0].pre)
    requires AnswersWith(cfg, run[m], u, secret, code) && Usable(secret, run[m].now)
    requires AnswersWith(cfg, run[n], u, secret, code) && Usable(secret, run[n].now)
    requires Totp.GenerateHmacOtp(hmac, secret, i, Totp.DEFAULT_DIGITS) == Ok(code)
    requires (i - 1) * 30000 <= run[m].now && run[n].now < (i + 2) * 30000
    ensures LogsIn(run[m], u) && LogsIn(run[n], u)
  {
    hide ValidEvent, Fits, UsesTotp, LogsIn, AnswersWith, Usable, Totp.GenerateHmacOtp;
    ClockMonotone(cfg, run, m, n);
    RunFits(cfg, run, m);
    RunFits(cfg, run, n);
    CodeOfWindowLogsIn(cfg, hmac, run[m], u, secret, code, i);
    CodeOfWindowLogsIn(cfg, hmac, run[n], u, secret, code, i);
  }

  lemma InWindow(now: Time, i: int)
    ensures var c := Totp.CounterAt(now, Totp.DEFAULT_STEP_SECONDS);
            c - DRIFT_STEPS <= i <= c + DRIFT_STEPS <==> (i - 1) * 30000 <= now < (i + 2) * 30000
  {
    hide Totp.CounterAt;
    Totp.CounterReached(now, i - 1, Totp.DEFAULT_STEP_SECONDS);
    Totp.CounterReached(now, i + 2, Totp.DEFAULT_STEP_SECONDS);
  }

  /** The message of a counter at most one step of thirty seconds away from `now`. */
  ghost predicate MessageNear(message: seq<Base32.Byte>, now: Time) {
    |message| == 8 && (Totp.BytesValue(message) - 1) * 30000 <= now < (Totp.BytesValue(message) + 2) * 30000
  }

  lemma NearIsCounter(message: seq<Base32.Byte>, secret: string, now: Time)
    requires Base32.Ascii(secret) && Usable(secret, now) && MessageNear(message, now)
    ensures Totp.BytesValue(message) < 0x1_0000_0000_0000_0000 && Base32.Decode(Base32.Clean(secret)) != []
    ensures var c := Totp.CounterAt(now, Totp.DEFAULT_STEP_SECONDS); c - DRIFT_STEPS <= Totp.BytesValue(message) <= c + DRIFT_STEPS
  {
    InWindow(now, Totp.BytesValue(message));
    hide Totp.CounterAt, Base32.Decode, Base32.Clean, Totp.BytesValue;
  }

  /**
   The whole check said at once: an answer to a live challenge logs in exactly if, without the white space
   around it, it is six decimal digits that spell, modulo a million, the number of the 31 bits selected from
   the digest of a counter, as eight bytes, at most one step of thirty seconds away.
   */
  lemma LogsInIffSpelled(cfg: Config, hmac: Totp.Hmac, ev: Event, u: Id, secret: string, code: string)
    requires Totp.LongDigests(hmac) && UsesTotp(cfg, hmac) && ValidEvent(cfg, ev) && Fits(ev.pre)
    requires AnswersWith(cfg, ev, u, secret, code) && Usable(secret, ev.now)
    ensures LogsIn(ev, u) <==>
            exists message :: MessageNear(message, ev.now) && Totp.SpellsCode(hmac, secret, message, Totp.Trim(code), 6)
  {
    LogsInIffInWindow(cfg, hmac, ev, u, secret, code);
    hide ValidEvent, Fits, UsesTotp, LogsIn, AnswersWith, Usable, Totp.GenerateHmacOtp, Totp.CounterAt, Totp.SpellsCode, MessageNear, Totp.Trim;
    WindowIffNear(hmac, secret, Totp.Trim(code), ev.now);
  }

  predicate InSteps(now: Time, i: int) {
    var c := Totp.CounterAt(now, Totp.DEFAULT_STEP_SECONDS);
    c - DRIFT_STEPS <= i <= c + DRIFT_STEPS
  }

  lemma WindowIffNear(hmac: Totp.Hmac, secret: string, text: string, now: Time)
    requires Totp.LongDigests(hmac) && Base32.Ascii(secret) && Usable(secret, now)
    ensures (exists i :: InSteps(now, i) && Totp.GenerateHmacOtp(hmac, secret, i, Totp.DEFAULT_DIGITS) == Ok(text))
       <==> (exists message :: MessageNear(message, now) && Totp.SpellsCode(hmac, secret, message, text, 6))
  {
    if i :| InSteps(now, i) && Totp.GenerateHmacOtp(hmac, secret, i, Totp.DEFAULT_DIGITS) == Ok(text) {
      var message := SpelledBy(hmac, secret, text, now, i);
    }
    if message :| MessageNear(message, now) && Totp.SpellsCode(hmac, secret, message, text, 6) {
      NearIsCounter(message, secret, now);
      Totp.CodeIffSpelled(hmac, secret, message, text, 6);
      assert InSteps(now, Totp.BytesValue(message));
    }
  }

  lemma SpelledBy(hmac: Totp.Hmac, secret: string, text: string, now: Time, i: int) returns (message: seq<Base32.Byte>)
    requires Totp.LongDigests(hmac) && Base32.Ascii(secret) && Usable(secret, now)
    requires InSteps(now, i) && Totp.GenerateHmacOtp(hmac, secret, i, Totp.DEFAULT_DIGITS) == Ok(text)
    ensures MessageNear(message, now) && Totp.SpellsCode(hmac, secret, message, text, 6)
  {
    Totp.GeneratesIff(hmac, secret, i, Totp.DEFAULT_DIGITS);
    hide Totp.GenerateHmacOtp, Totp.BytesValue, Totp.CounterBytes, Base32.Decode, Base32.Clean, Totp.CounterAt, Totp.SpellsCode;
    InWindow(now, i);
    message := Totp.CounterBytes(i);
    Totp.CounterSpelled(i, message);
    Totp.CodeIffSpelled(hmac, secret, message, text, 6);
  }
}
