/** How many logins one challenge completes when answers overlap. */
module OverlappingAnswers {
  import opened Wrappers
  import opened Rows
  import opened Cache
  import opened Protocol
  import opened Machine
  import opened Provenance
  import opened Interleaving
  import opened WorldInvariant

  /** An answer to challenge `id` takes off. */
  predicate ReadsChallenge(st: Stage, id: string) {
    st.move.ReadForAnswer? && st.move.challengeId == id && TakingOff(st).Some?
  }

  /** The challenge `id` is dropped: the call every answer that is accepted makes before its login. */
  predicate Drops(st: Stage, id: string) {
    Flying(st).Some? && Flying(st).value.Dropping? && Flying(st).value.challengeId == id
  }

  ghost predicate SpentChallenge(w: World, id: string) {
    id in w.sys.drawn && ChallengeKey(id) !in w.sys.core.cache
  }

  lemma ReadNeedsChallenge(cfg: Config, st: Stage, id: string)
    requires ValidStage(cfg, st) && WorldFits(st.pre) && ReadsChallenge(st, id)
    ensures id in st.pre.sys.drawn && !SpentChallenge(st.pre, id)
  {
    StageParts(cfg, st);
    hide ValidStage, SessionsFit, RecoveryFits, FlightFits, ChallengeKey;
  }

  lemma DropSpends(cfg: Config, st: Stage, id: string)
    requires ValidStage(cfg, st) && Drops(st, id) && id in st.pre.sys.drawn
    ensures SpentChallenge(st.post, id)
  {
    StageParts(cfg, st);
    hide ValidStage, ChallengeKey, GoSession, GoUsers, GoCodes, GoElse;
  }

  lemma {:induction false} DrawnStays(cfg: Config, trace: seq<Stage>, i: nat, j: nat)
    requires ValidTrace(cfg, trace) && trace != [] && i <= j <= |trace| && WorldFits(trace[0].pre)
    ensures WorldAt(trace, i).sys.drawn <= WorldAt(trace, j).sys.drawn
    decreases j
  {
    hide ValidStage, WorldFits, SessionsOnward, CodesOnward, ChallengesOnward;
    if i < j {
      DrawnStays(cfg, trace, i, j - 1);
      TraceFits(cfg, trace, j - 1);
      StageGood(cfg, trace[j - 1]);
    }
  }

  lemma {:induction false} SpentStays(cfg: Config, trace: seq<Stage>, i: nat, j: nat, id: string)
    requires ValidTrace(cfg, trace) && trace != [] && i <= j <= |trace| && WorldFits(trace[0].pre) && SpentChallenge(WorldAt(trace, i), id)
    ensures SpentChallenge(WorldAt(trace, j), id)
    decreases j
  {
    hide ValidStage, WorldFits, SessionsOnward, CodesOnward, ChallengeKey;
    if i < j {
      SpentStays(cfg, trace, i, j - 1, id);
      TraceFits(cfg, trace, j - 1);
      StageGood(cfg, trace[j - 1]);
    }
  }

  /**
   One login per challenge under overlap: once an accepted answer has dropped the challenge no
   other answer to it takes off, by whichever method. So a challenge completes two logins only
   when both answers are read before either drops it, and that does happen (`TwoLoginsByOverlap`).
   */
  lemma SecondLoginNeedsOverlap(cfg: Config, trace: seq<Stage>, i: nat, j: nat, k: nat, id: string)
    requires ValidTrace(cfg, trace) && i < j < k < |trace| && WorldFits(trace[0].pre)
    requires ReadsChallenge(trace[i], id) && Drops(trace[j], id)
    ensures !ReadsChallenge(trace[k], id)
  {
    hide ValidStage, WorldFits, SpentChallenge, ReadsChallenge, Drops;
    TraceFits(cfg, trace, i);
    ReadNeedsChallenge(cfg, trace[i], id);
    DrawnStays(cfg, trace, i, j);
    DropSpends(cfg, trace[j], id);
    SpentStays(cfg, trace, j + 1, k, id);
    TraceFits(cfg, trace, k);
    if ReadsChallenge(trace[k], id) {
      ReadNeedsChallenge(cfg, trace[k], id);
    }
  }

  // ---------------------------------------------------------------------------
  // Two answers that overlap
  // ---------------------------------------------------------------------------

  lemma ReadCall(cfg: Config, w: World, f: nat, id: string, u: Id, answer: Answer, now: Time)
    requires f !in w.flights && LiveChallenge(w.sys.core.cache, id, u, now)
    ensures DrawnBy(w, ReadForAnswer(f, id, answer, now)) == {}
    ensures Call(cfg, w, ReadForAnswer(f, id, answer, now)).0 == w.(flights := w.flights[f := Answering(id, u, answer, now)])
  {
    hide ChallengeKey;
    assert w.sys.(drawn := w.sys.drawn + {}) == w.sys;
  }

  lemma ProofCall(cfg: Config, w: World, f: nat, id: string, u: Id, code: string, now: Time, e: Entropy)
    requires f in w.flights && w.flights[f] == Answering(id, u, ByTotp(code, false), now) && TotpProven(cfg, w.sys.core.db, now, u, code)
    ensures DrawnBy(w, Go(f, e)) == {}
    ensures Call(cfg, w, Go(f, e)).0 == w.(flights := w.flights[f := Dropping(id, u, false, false, now)])
  {
    hide GoSession, GoUsers, GoCodes, GoCache;
    assert w.sys.(drawn := w.sys.drawn + {}) == w.sys;
  }

  lemma DropCall(cfg: Config, w: World, f: nat, id: string, u: Id, now: Time, e: Entropy)
    requires f in w.flights && w.flights[f] == Dropping(id, u, false, false, now)
    ensures DrawnBy(w, Go(f, e)) == {}
    ensures Call(cfg, w, Go(f, e)).0
         == World(WithCache(w.sys, w.sys.core.cache - {ChallengeKey(id)}), w.flights[f := Finishing(u, None, false, now)])
  {
    hide GoSession, GoUsers, GoCodes, GoElse, ChallengeKey;
    assert w.sys.drawn + {} == w.sys.drawn;
  }

  lemma FinishCall(cfg: Config, w: World, f: nat, u: Id, now: Time, e: Entropy)
    requires f in w.flights && w.flights[f] == Finishing(u, None, false, now) && u in w.sys.core.db.users
    ensures DrawnBy(w, Go(f, e)) == {}
    ensures Call(cfg, w, Go(f, e)).0 == w.(flights := w.flights[f := Creating(u, false, None, false, now)])
  {
    hide GoSession, GoUsers, GoCodes, GoCache;
    assert w.sys.(drawn := w.sys.drawn + {}) == w.sys;
  }

  predicate LoginReply(reply: Reply, u: Id) {
    reply.Said? && reply.out.Login? && reply.out.login.LoggedIn? && reply.out.login.userId == u
  }

  lemma CreateCall(cfg: Config, w: World, f: nat, u: Id, now: Time, e: Entropy)
    requires f in w.flights && w.flights[f] == Creating(u, false, None, false, now)
    ensures DrawnBy(w, Go(f, e)) == {e.uuid, e.access, e.refresh}
    ensures var (w1, reply) := Call(cfg, w, Go(f, e));
            && w1.flights == w.flights - {f} && w1.sys.drawn == w.sys.drawn + {e.uuid, e.access, e.refresh}
            && w1.sys.core.db.users == w.sys.core.db.users && w1.sys.core.db.totp == w.sys.core.db.totp
            && LoginReply(reply, u)
  {
    hide GoUsers, GoCodes, GoCache, GoElse, SessionTtl;
  }

  /** A flight with a right code, the account and its secret in the tables: four calls to its login, whatever the cache. */
  predicate Ready(cfg: Config, w: World, f: nat, id: string, u: Id, code: string, now: Time) {
    && f in w.flights && w.flights[f] == Answering(id, u, ByTotp(code, false), now)
    && TotpProven(cfg, w.sys.core.db, now, u, code) && u in w.sys.core.db.users
  }

  function Gos(f: nat, e: Entropy): seq<Move> {
    [Go(f, e), Go(f, e), Go(f, e), Go(f, e)]
  }

  /** The world once the flight `f` is about to create its session. */
  function AtCreation(w: World, f: nat, id: string, u: Id, now: Time): World {
    World(WithCache(w.sys, w.sys.core.cache - {ChallengeKey(id)}), w.flights[f := Creating(u, false, None, false, now)])
  }

  lemma ThreeGos(cfg: Config, w: World, f: nat, id: string, u: Id, code: string, now: Time, e: Entropy)
    requires Ready(cfg, w, f, id, u, code, now)
    ensures var w1 := Call(cfg, w, Go(f, e)).0;
            var w2 := Call(cfg, w1, Go(f, e)).0;
            && DrawnBy(w, Go(f, e)) == DrawnBy(w1, Go(f, e)) == DrawnBy(w2, Go(f, e)) == {}
            && Call(cfg, w2, Go(f, e)).0 == AtCreation(w, f, id, u, now)
  {
    hide Call, DrawnBy, TotpProven, ChallengeKey;
    ProofCall(cfg, w, f, id, u, code, now, e);
    var w1 := w.(flights := w.flights[f := Dropping(id, u, false, false, now)]);
    DropCall(cfg, w1, f, id, u, now, e);
    var w2 := World(WithCache(w.sys, w.sys.core.cache - {ChallengeKey(id)}), w1.flights[f := Finishing(u, None, false, now)]);
    FinishCall(cfg, w2, f, u, now, e);
    assert w2.flights[f := Creating(u, false, None, false, now)] == w.flights[f := Creating(u, false, None, false, now)];
  }

  /** Four more moves of a trace, to a login. */
  lemma ExtendedByLogin(cfg: Config, w0: World, moves: seq<Move>, f: nat, id: string, u: Id, code: string, now: Time, e: Entropy)
    requires FreshAlong(cfg, w0, moves) && Ready(cfg, After(cfg, w0, moves), f, id, u, code, now)
    requires {e.uuid, e.access, e.refresh} !! After(cfg, w0, moves).sys.drawn
    ensures var w, w4 := After(cfg, w0, moves), After(cfg, w0, moves + Gos(f, e));
            && FreshAlong(cfg, w0, moves + Gos(f, e))
            && w4.flights == w.flights - {f} && w4.sys.drawn == w.sys.drawn + {e.uuid, e.access, e.refresh}
            && w4.sys.core.db.users == w.sys.core.db.users && w4.sys.core.db.totp == w.sys.core.db.totp
    ensures LoginReply(Call(cfg, After(cfg, w0, moves + [Go(f, e), Go(f, e), Go(f, e)]), Go(f, e)).1, u)
  {
    hide Call, DrawnBy, Ready, FreshAlong, After, ChallengeKey;
    var w, g := After(cfg, w0, moves), Go(f, e);
    ThreeGos(cfg, w, f, id, u, code, now, e);
    Extended(cfg, w0, moves, g);
    Extended(cfg, w0, moves + [g], g);
    Extended(cfg, w0, moves + [g] + [g], g);
    assert AtCreation(w, f, id, u, now).flights - {f} == w.flights - {f};
    CreateCall(cfg, AtCreation(w, f, id, u, now), f, u, now, e);
    Extended(cfg, w0, moves + [g] + [g] + [g], g);
    assert moves + [g] + [g] + [g] == moves + [g, g, g];
    assert moves + [g] + [g] + [g] + [g] == moves + Gos(f, e);
  }

  function TwoAnswers(f: nat, g: nat, id: string, code: string, now: Time, e1: Entropy, e2: Entropy): seq<Move> {
    [ReadForAnswer(f, id, ByTotp(code, false), now), ReadForAnswer(g, id, ByTotp(code, false), now)] + Gos(f, e1) + Gos(g, e2)
  }

  lemma BothRead(cfg: Config, w: World, f: nat, g: nat, id: string, u: Id, code: string, now: Time)
    requires f != g && f !in w.flights && g !in w.flights && u in w.sys.core.db.users
    requires LiveChallenge(w.sys.core.cache, id, u, now) && TotpProven(cfg, w.sys.core.db, now, u, code)
    ensures var moves := [ReadForAnswer(f, id, ByTotp(code, false), now), ReadForAnswer(g, id, ByTotp(code, false), now)];
            var w2 := After(cfg, w, moves);
            && FreshAlong(cfg, w, moves) && w2.sys == w.sys && Ready(cfg, w2, f, id, u, code, now) && Ready(cfg, w2, g, id, u, code, now)
  {
    var answer := ByTotp(code, false);
    hide Call, DrawnBy, FreshAlong, After, LiveChallenge, TotpProven;
    Unextended(cfg, w);
    ReadCall(cfg, w, f, id, u, answer, now);
    Extended(cfg, w, [], ReadForAnswer(f, id, answer, now));
    var w1 := w.(flights := w.flights[f := Answering(id, u, answer, now)]);
    ReadCall(cfg, w1, g, id, u, answer, now);
    Extended(cfg, w, [] + [ReadForAnswer(f, id, answer, now)], ReadForAnswer(g, id, answer, now));
    assert [] + [ReadForAnswer(f, id, answer, now)] + [ReadForAnswer(g, id, answer, now)]
        == [ReadForAnswer(f, id, answer, now), ReadForAnswer(g, id, answer, now)];
  }

  lemma StillReady(cfg: Config, a: World, b: World, g: nat, id: string, u: Id, code: string, now: Time)
    requires Ready(cfg, a, g, id, u, code, now) && g in b.flights && b.flights[g] == a.flights[g]
    requires b.sys.core.db.users == a.sys.core.db.users && b.sys.core.db.totp == a.sys.core.db.totp
    ensures Ready(cfg, b, g, id, u, code, now)
  {
  }

  lemma ReadyFlies(cfg: Config, w: World, f: nat, id: string, u: Id, code: string, now: Time)
    requires Ready(cfg, w, f, id, u, code, now)
    ensures f in w.flights
  {
  }

  /** Two answers with one right code to one live challenge, both read before either drops it: both log in. */
  lemma TwoLoginsByOverlap(cfg: Config, w: World, f: nat, g: nat, id: string, u: Id, code: string, now: Time, e1: Entropy, e2: Entropy)
    requires f != g && f !in w.flights && g !in w.flights && u in w.sys.core.db.users
    requires LiveChallenge(w.sys.core.cache, id, u, now) && TotpProven(cfg, w.sys.core.db, now, u, code)
    requires {e1.uuid, e1.access, e1.refresh} !! w.sys.drawn
    requires {e2.uuid, e2.access, e2.refresh} !! w.sys.drawn + {e1.uuid, e1.access, e1.refresh}
    ensures var trace := TraceOf(cfg, w, TwoAnswers(f, g, id, code, now, e1, e2));
            && ValidTrace(cfg, trace) && |trace| == 10 && WorldAt(trace, 0) == w
            && LoginReply(trace[5].reply, u) && LoginReply(trace[9].reply, u)
  {
    hide Call, DrawnBy, FreshAlong, After, LiveChallenge, TotpProven, Ready, TraceOf, ValidTrace, LoginReply;
    var answer := ByTotp(code, false);
    var first := [ReadForAnswer(f, id, answer, now), ReadForAnswer(g, id, answer, now)];
    BothRead(cfg, w, f, g, id, u, code, now);
    var w2 := After(cfg, w, first);
    ExtendedByLogin(cfg, w, first, f, id, u, code, now, e1);
    var w6 := After(cfg, w, first + Gos(f, e1));
    ReadyFlies(cfg, w2, g, id, u, code, now);
    StillReady(cfg, w2, w6, g, id, u, code, now);
    ExtendedByLogin(cfg, w, first + Gos(f, e1), g, id, u, code, now, e2);
    var moves := TwoAnswers(f, g, id, code, now, e1, e2);
    TraceOfIsValid(cfg, w, moves);
    LoginStages(cfg, w, f, g, id, code, now, e1, e2);
  }

  lemma LoginStages(cfg: Config, w: World, f: nat, g: nat, id: string, code: string, now: Time, e1: Entropy, e2: Entropy)
    ensures var moves := TwoAnswers(f, g, id, code, now, e1, e2);
            var first := moves[..2];
            var trace := TraceOf(cfg, w, moves);
            && first == [ReadForAnswer(f, id, ByTotp(code, false), now), ReadForAnswer(g, id, ByTotp(code, false), now)]
            && |trace| == 10
            && trace[5].reply == Call(cfg, After(cfg, w, first + [Go(f, e1), Go(f, e1), Go(f, e1)]), Go(f, e1)).1
            && trace[9].reply == Call(cfg, After(cfg, w, first + Gos(f, e1) + [Go(g, e2), Go(g, e2), Go(g, e2)]), Go(g, e2)).1
  {
    hide Call, After;
    var moves := TwoAnswers(f, g, id, code, now, e1, e2);
    assert moves[..5] == moves[..2] + [Go(f, e1), Go(f, e1), Go(f, e1)] && moves[5] == Go(f, e1);
    assert moves[..9] == moves[..2] + Gos(f, e1) + [Go(g, e2), Go(g, e2), Go(g, e2)] && moves[9] == Go(g, e2);
    StageOf(cfg, w, moves, 5);
    StageOf(cfg, w, moves, 9);
  }
}
