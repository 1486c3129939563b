/** Recovery codes: what a typed code matches, and how often a batch lets anyone in. */
module RecoveryCodes {
  import opened Wrappers
  import opened Rows
  import opened Cache
  import opened Protocol
  import opened Machine
  import opened Consistency
  import opened Interleaving
  import opened WorldInvariant

  // ---------------------------------------------------------------------------
  // What is typed
  // ---------------------------------------------------------------------------

  predicate Counts(c: char) {
    'a' <= c <= 'z' || 'A' <= c <= 'Z' || '0' <= c <= '9'
  }

  /** The letters and digits of a text. */
  function LettersAndDigits(text: string): string {
    if text == "" then ""
    else (if Counts(text[0]) then [text[0]] else "") + LettersAndDigits(text[1..])
  }

  predicate SameButCase(a: string, b: string) {
    |a| == |b| && forall i | 0 <= i < |a| :: LowerChar(a[i]) == LowerChar(b[i])
  }

  /** The same code typed with other separators or in another case. */
  predicate Variant(a: string, b: string) {
    SameButCase(LettersAndDigits(a), LettersAndDigits(b))
  }

  lemma {:induction false} NormalizeIs(text: string)
    ensures |Normalize(text)| == |LettersAndDigits(text)|
    ensures forall i | 0 <= i < |Normalize(text)| :: Normalize(text)[i] == LowerChar(LettersAndDigits(text)[i])
  {
    if text != "" {
      var rest, tail := Normalize(text[1..]), LettersAndDigits(text[1..]);
      NormalizeIs(text[1..]);
      CountsLowered(text[0]);
      hide LowerChar, AlphaNumeric, Counts;
      if Counts(text[0]) {
        assert Normalize(text) == [LowerChar(text[0])] + rest && LettersAndDigits(text) == [text[0]] + tail;
      } else {
        assert Normalize(text) == rest && LettersAndDigits(text) == tail;
      }
    }
  }

  lemma CountsLowered(c: char)
    ensures AlphaNumeric(LowerChar(c)) <==> Counts(c)
  {
  }

  /** Two texts normalize to the same exactly when they differ in separators and case only. */
  lemma NormalizesAlike(a: string, b: string)
    ensures Normalize(a) == Normalize(b) <==> Variant(a, b)
  {
    NormalizeIs(a);
    NormalizeIs(b);
    if Normalize(a) == Normalize(b) {
      forall i | 0 <= i < |LettersAndDigits(a)| ensures LowerChar(LettersAndDigits(a)[i]) == LowerChar(LettersAndDigits(b)[i]) {
        assert Normalize(a)[i] == Normalize(b)[i];
      }
    }
  }

  lemma {:induction false} NormalizeConcat(a: string, b: string)
    ensures Normalize(a + b) == Normalize(a) + Normalize(b)
  {
    hide LowerChar, AlphaNumeric;
    if a == "" {
      assert a + b == b;
    } else {
      NormalizeConcat(a[1..], b);
      assert (a + b)[1..] == a[1..] + b;
    }
  }

  predicate LowerHex(text: string) {
    forall i | 0 <= i < |text| :: 'a' <= text[i] <= 'f' || '0' <= text[i] <= '9'
  }

  lemma {:induction false} NormalizeHex(text: string)
    requires LowerHex(text)
    ensures Normalize(text) == text
  {
    if text != "" {
      NormalizeHex(text[1..]);
    }
  }

  /** What is hashed for a code is its twelve hex digits. */
  lemma IssuedCodeNormalizes(hex: string)
    requires |hex| == 16 && LowerHex(hex)
    ensures Normalize(FormatRecoveryCode(hex)) == hex[..12]
  {
    NormalizeConcat(hex[0..4] + "-" + hex[4..8] + "-", hex[8..12]);
    NormalizeConcat(hex[0..4] + "-" + hex[4..8], "-");
    NormalizeConcat(hex[0..4] + "-", hex[4..8]);
    NormalizeConcat(hex[0..4], "-");
    NormalizeHex(hex[0..4]);
    NormalizeHex(hex[4..8]);
    NormalizeHex(hex[8..12]);
    assert Normalize("-") == "";
  }

  /** A typed code has the stored hash exactly when it is a variant of the code that was issued. */
  lemma MatchesIffVariant(hex: seq<string>, i: nat, typed: string)
    requires HexDraw(hex) && i < RECOVERY_CODES_COUNT
    ensures Sha256(Normalize(typed)) == RecoveryHashes(hex)[i] <==> Variant(typed, RecoveryCodes(hex)[i])
  {
    NormalizesAlike(typed, FormatRecoveryCode(hex[i]));
  }

  // ---------------------------------------------------------------------------
  // Each code once
  // ---------------------------------------------------------------------------

  /** A code of `u` is claimed. */
  predicate ClaimsSome(st: Stage, u: Id) {
    && Flying(st).Some? && Flying(st).value.Answering? && Flying(st).value.answer.ByRecovery? && Flying(st).value.userId == u
    && st.move.flight in st.post.flights
  }

  /** The claim of `hash` for `u` goes through. */
  predicate Claims(st: Stage, u: Id, hash: Hash) {
    ClaimsSome(st, u) && hash == Sha256(Normalize(Flying(st).value.answer.code))
  }

  lemma ClaimTakesCode(cfg: Config, st: Stage, u: Id)
    requires ValidStage(cfg, st) && ClaimsSome(st, u)
    ensures var hash, now := Sha256(Normalize(Flying(st).value.answer.code)), Flying(st).value.at;
            && Unused(st.pre.sys.core.db.recovery, u, hash)
            && st.post.sys.core.db.recovery == ConsumeRecoveryCode(st.pre.sys.core.db.recovery, u, hash, now).0
  {
    StageParts(cfg, st);
    hide ValidStage, Normalize;
  }

  /** A code that was made once and is not there unused now never is again. */
  ghost predicate Gone(w: World, hash: Hash) {
    hash.text in w.sys.drawn && !Claimable(w.sys.core.db.recovery, hash)
  }

  lemma StaysGone(cfg: Config, st: Stage, hash: Hash)
    requires ValidStage(cfg, st) && WorldFits(st.pre) && Gone(st.pre, hash)
    ensures Gone(st.post, hash)
  {
    StageGood(cfg, st);
    hide WorldFits, ValidStage, SessionsOnward, ChallengesOnward;
  }

  lemma {:induction false} GoneForGood(cfg: Config, trace: seq<Stage>, i: nat, j: nat, hash: Hash)
    requires ValidTrace(cfg, trace) && trace != [] && i <= j <= |trace| && WorldFits(trace[0].pre) && Gone(WorldAt(trace, i), hash)
    ensures Gone(WorldAt(trace, j), hash)
    decreases j
  {
    hide ValidStage, WorldFits, Gone;
    if i < j {
      GoneForGood(cfg, trace, i, j - 1, hash);
      TraceFits(cfg, trace, j - 1);
      StaysGone(cfg, trace[j - 1], hash);
    }
  }

  lemma ClaimedIsGone(cfg: Config, st: Stage, u: Id, hash: Hash)
    requires ValidStage(cfg, st) && WorldFits(st.pre) && Claims(st, u, hash)
    ensures Gone(st.post, hash) && !Gone(st.pre, hash)
  {
    ClaimTakesCode(cfg, st, u);
    StageGood(cfg, st);
    hide ValidStage, SessionsFit, ChallengesDrawn, SessionsOnward, ChallengesOnward, FlightFits, Normalize;
  }

  /** No code is claimed twice, whatever is in flight and whoever claims it. */
  lemma ClaimedOnce(cfg: Config, trace: seq<Stage>, i: nat, j: nat, u: Id, v: Id, hash: Hash)
    requires ValidTrace(cfg, trace) && i < j < |trace| && WorldFits(trace[0].pre)
    ensures !(Claims(trace[i], u, hash) && Claims(trace[j], v, hash))
  {
    hide ValidStage, WorldFits, Gone, Claims;
    if Claims(trace[i], u, hash) && Claims(trace[j], v, hash) {
      TraceFits(cfg, trace, i);
      TraceFits(cfg, trace, j);
      ClaimedIsGone(cfg, trace[i], u, hash);
      GoneForGood(cfg, trace, i + 1, j, hash);
      ClaimedIsGone(cfg, trace[j], v, hash);
    }
  }

  // ---------------------------------------------------------------------------
  // Claims count
  // ---------------------------------------------------------------------------

  /** A request that makes a new batch for `u` is under way. */
  predicate Regenerating(flight: Flight, u: Id) {
    flight == Deleting(u) || flight == Inserting(u)
  }

  /** The codes of `u` are deleted or a batch inserted. */
  predicate Rebatches(st: Stage, u: Id) {
    (Flying(st).Some? && Regenerating(Flying(st).value, u)) || st.move == Forget(u)
  }

  function ClaimCount(trace: seq<Stage>, u: Id): nat {
    if trace == [] then 0
    else ClaimCount(trace[..|trace| - 1], u) + if ClaimsSome(trace[|trace| - 1], u) then 1 else 0
  }

  predicate SameCodes(a: map<Hash, RecoveryCode>, b: map<Hash, RecoveryCode>, u: Id) {
    UnusedCodes(a, u) == UnusedCodes(b, u) && UsedCodes(a, u) == UsedCodes(b, u)
  }

  lemma OthersKeepCodes(recovery: map<Hash, RecoveryCode>, u: Id, v: Id, hashes: seq<Hash>)
    requires u != v
    ensures SameCodes(recovery, DeleteRecoveryCodes(recovery, v), u)
    ensures SameCodes(recovery, CreateRecoveryCodes(recovery, v, hashes), u)
  {
  }

  lemma OthersClaimKeepsCodes(recovery: map<Hash, RecoveryCode>, u: Id, v: Id, hash: Hash, now: Time)
    requires u != v || !Unused(recovery, v, hash)
    ensures SameCodes(recovery, ConsumeRecoveryCode(recovery, v, hash, now).0, u)
  {
  }

  lemma ClaimMovesOne(recovery: map<Hash, RecoveryCode>, u: Id, hash: Hash, now: Time)
    requires Unused(recovery, u, hash)
    ensures var after := ConsumeRecoveryCode(recovery, u, hash, now).0;
            && UnusedCodes(after, u) == UnusedCodes(recovery, u) - {hash} && hash in UnusedCodes(recovery, u)
            && UsedCodes(after, u) == UsedCodes(recovery, u) + {hash} && hash !in UsedCodes(recovery, u)
  {
  }

  lemma NoCodesChanged(recovery: map<Hash, RecoveryCode>, u: Id)
    ensures SameCodes(recovery, recovery, u)
  {
  }

  lemma GoKeepsCodes(recovery: map<Hash, RecoveryCode>, flight: Flight, e: Entropy, u: Id)
    requires WritesCodes(flight) && !Regenerating(flight, u)
    requires !(flight.Answering? && flight.userId == u && GoCodes(recovery, flight, e).1.On?)
    ensures SameCodes(recovery, GoCodes(recovery, flight, e).0, u)
  {
    hide SameCodes, Normalize, DeleteRecoveryCodes, CreateRecoveryCodes, RecoveryHashes, HexDraw, Insertable, RecoveryCodes;
    NoCodesChanged(recovery, u);
    match flight
    case Deleting(v) => OthersKeepCodes(recovery, u, v, []);
    case Inserting(v) =>
      if HexDraw(e.hex) {
        OthersKeepCodes(recovery, u, v, RecoveryHashes(e.hex));
      }
    case Answering(_, v, answer, now) => OthersClaimKeepsCodes(recovery, u, v, Sha256(Normalize(answer.code)), now);
  }

  lemma SingleKeepsCodes(s: Sys, m: Move, u: Id)
    requires m != Forget(u)
    ensures SameCodes(s.core.db.recovery, Single(s, m).0.core.db.recovery, u)
  {
    hide SameCodes, DeleteRecoveryCodes, LogoutTarget, EndSession;
    NoCodesChanged(s.core.db.recovery, u);
    if m.Forget? {
      OthersKeepCodes(s.core.db.recovery, u, m.userId, []);
    }
  }

  lemma ContinueKeepsCodes(cfg: Config, s: Sys, flight: Flight, e: Entropy, u: Id)
    requires !Regenerating(flight, u)
    requires flight.Answering? && flight.answer.ByRecovery? && flight.userId == u ==> Continue(cfg, s, flight, e).1.Landed?
    ensures SameCodes(s.core.db.recovery, Continue(cfg, s, flight, e).0.core.db.recovery, u)
  {
    hide SameCodes, GoSession, GoUsers, GoCodes, GoCache, GoElse;
    NoCodesChanged(s.core.db.recovery, u);
    if WritesSessions(flight) {
      GoSessionFrame(cfg, s, flight, e);
    } else if WritesCodes(flight) {
      GoKeepsCodes(s.core.db.recovery, flight, e, u);
    } else if !WritesUsers(flight) && !WritesCache(flight) {
      GoElseFrame(cfg, s.core, flight, e);
    }
  }

  lemma DepartureKeepsCodes(cfg: Config, s: Sys, m: Move)
    requires Begins(m)
    ensures Departure(cfg, s, m).0.core.db.recovery == s.core.db.recovery
  {
    hide BeginRefresh, BeginSignIn, BeginAdmission, BeginConfirm, GetItem;
  }

  /** Only a claim for `u`, a new batch or a deletion touches the codes of `u`. */
  lemma StageKeepsCodes(cfg: Config, st: Stage, u: Id)
    requires ValidStage(cfg, st) && !ClaimsSome(st, u) && !Rebatches(st, u)
    ensures SameCodes(st.pre.sys.core.db.recovery, st.post.sys.core.db.recovery, u)
  {
    StageParts(cfg, st);
    hide ValidStage, SameCodes, Single, Continue, Departure;
    NoCodesChanged(st.pre.sys.core.db.recovery, u);
    if Flying(st).Some? {
      ContinueKeepsCodes(cfg, st.pre.sys, Flying(st).value, st.move.entropy, u);
    } else if Begins(st.move) {
      DepartureKeepsCodes(cfg, st.pre.sys, st.move);
    } else if !st.move.Go? {
      SingleKeepsCodes(st.pre.sys, st.move, u);
    }
  }

  /** One claim moves one code from unused to used. */
  lemma StageCounts(cfg: Config, st: Stage, u: Id)
    requires ValidStage(cfg, st) && !Rebatches(st, u)
    ensures var a, b, claimed := st.pre.sys.core.db.recovery, st.post.sys.core.db.recovery, if ClaimsSome(st, u) then 1 else 0;
            && |UnusedCodes(a, u)| == |UnusedCodes(b, u)| + claimed
            && |UsedCodes(b, u)| == |UsedCodes(a, u)| + claimed
  {
    if ClaimsSome(st, u) {
      var flight := Flying(st).value;
      ClaimTakesCode(cfg, st, u);
      hide ValidStage, UnusedCodes, UsedCodes, ConsumeRecoveryCode, Unused, Normalize;
      ClaimMovesOne(st.pre.sys.core.db.recovery, u, Sha256(Normalize(flight.answer.code)), flight.at);
    } else {
      hide ValidStage, UnusedCodes, UsedCodes;
      StageKeepsCodes(cfg, st, u);
    }
  }

  ghost predicate SameBatch(trace: seq<Stage>, u: Id) {
    forall i | 0 <= i < |trace| :: !Rebatches(trace[i], u)
  }

  /** As long as the batch stays: every claim is one unused code less and one used code more. */
  lemma {:induction false} CodesConserved(cfg: Config, trace: seq<Stage>, u: Id)
    requires ValidTrace(cfg, trace) && trace != [] && SameBatch(trace, u)
    ensures var a, b := trace[0].pre.sys.core.db.recovery, trace[|trace| - 1].post.sys.core.db.recovery;
            && |UnusedCodes(a, u)| == |UnusedCodes(b, u)| + ClaimCount(trace, u)
            && |UsedCodes(b, u)| == |UsedCodes(a, u)| + ClaimCount(trace, u)
  {
    hide ValidStage, UnusedCodes, UsedCodes, ClaimsSome, Rebatches;
    var n := |trace| - 1;
    StageCounts(cfg, trace[n], u);
    if n > 0 {
      CodesConserved(cfg, trace[..n], u);
    } else {
      assert trace[..n] == [];
    }
  }

  lemma {:induction false} DistinctCount(hashes: seq<Hash>)
    requires Distinct(hashes)
    ensures |set h | h in hashes| == |hashes|
  {
    if hashes != [] {
      var n := |hashes| - 1;
      DistinctCount(hashes[..n]);
      assert (set h | h in hashes) == (set h | h in hashes[..n]) + {hashes[n]};
    }
  }

  lemma DeletedCodes(recovery: map<Hash, RecoveryCode>, u: Id)
    ensures var deleted := DeleteRecoveryCodes(recovery, u); UnusedCodes(deleted, u) == {} && UsedCodes(deleted, u) == {}
    ensures DeleteRecoveryCodes(DeleteRecoveryCodes(recovery, u), u) == DeleteRecoveryCodes(recovery, u)
  {
  }

  lemma InsertedSets(recovery: map<Hash, RecoveryCode>, u: Id, hashes: seq<Hash>)
    requires Insertable(recovery, hashes)
    ensures var after, new_ := CreateRecoveryCodes(recovery, u, hashes), set h | h in hashes;
            && UnusedCodes(after, u) == UnusedCodes(recovery, u) + new_ && UnusedCodes(recovery, u) !! new_
            && UsedCodes(after, u) == UsedCodes(recovery, u)
  {
  }

  /** An inserted batch adds as many unused codes as it has. */
  lemma InsertedCodes(recovery: map<Hash, RecoveryCode>, u: Id, hashes: seq<Hash>)
    requires Insertable(recovery, hashes)
    ensures var after := CreateRecoveryCodes(recovery, u, hashes);
            |UnusedCodes(after, u)| == |UnusedCodes(recovery, u)| + |hashes| && UsedCodes(after, u) == UsedCodes(recovery, u)
  {
    DistinctCount(hashes);
    hide UnusedCodes, UsedCodes, CreateRecoveryCodes;
    InsertedSets(recovery, u, hashes);
  }

  // ---------------------------------------------------------------------------
  // Ten codes a batch
  // ---------------------------------------------------------------------------

  ghost predicate OneRegeneration(w: World, u: Id) {
    forall f, g | f in w.flights && g in w.flights && Regenerating(w.flights[f], u) && Regenerating(w.flights[g], u) :: f == g
  }

  function CodeCount(w: World, u: Id): nat {
    |UnusedCodes(w.sys.core.db.recovery, u)| + |UsedCodes(w.sys.core.db.recovery, u)|
  }

  /** At most ten codes, and none between the deletion of a batch and the insertion of the next. */
  ghost predicate BatchFits(w: World, u: Id) {
    && CodeCount(w, u) <= RECOVERY_CODES_COUNT
    && forall f | f in w.flights && w.flights[f] == Inserting(u) :: CodeCount(w, u) == 0
  }

  lemma DeletedCount(recovery: map<Hash, RecoveryCode>, u: Id)
    ensures |UnusedCodes(DeleteRecoveryCodes(recovery, u), u)| + |UsedCodes(DeleteRecoveryCodes(recovery, u), u)| == 0
  {
    DeletedCodes(recovery, u);
  }

  lemma DeletingFits(cfg: Config, st: Stage, u: Id)
    requires ValidStage(cfg, st) && (Flying(st) == Some(Deleting(u)) || st.move == Forget(u))
    ensures CodeCount(st.post, u) == 0
  {
    hide ValidStage, DeleteRecoveryCodes, UnusedCodes, UsedCodes, GoSession, GoUsers, GoCache, GoElse, Logout, Departure, DrawnBy;
    StageParts(cfg, st);
    DeletedCount(st.pre.sys.core.db.recovery, u);
  }

  lemma InsertedCount(recovery: map<Hash, RecoveryCode>, u: Id, hashes: seq<Hash>)
    requires |UnusedCodes(recovery, u)| + |UsedCodes(recovery, u)| == 0
    ensures var after := CreateRecoveryCodes(recovery, u, hashes);
            if Insertable(recovery, hashes) then |UnusedCodes(after, u)| == |hashes| && |UsedCodes(after, u)| == 0
            else after == recovery
  {
    hide UnusedCodes, UsedCodes, Insertable;
    if Insertable(recovery, hashes) {
      InsertedCodes(recovery, u, hashes);
    }
  }

  /** A batch inserted where there is no code: all ten, or none if it is refused. */
  lemma InsertingCounts(cfg: Config, st: Stage, u: Id)
    requires ValidStage(cfg, st) && Flying(st) == Some(Inserting(u)) && CodeCount(st.pre, u) == 0
    ensures CodeCount(st.post, u) <= RECOVERY_CODES_COUNT
    ensures st.move.flight in st.post.flights ==> CodeCount(st.post, u) == 0
    ensures st.reply.Said? && st.reply.out.Codes? ==>
              |UnusedCodes(st.post.sys.core.db.recovery, u)| == RECOVERY_CODES_COUNT && |UsedCodes(st.post.sys.core.db.recovery, u)| == 0
  {
    hide ValidStage, CreateRecoveryCodes, UnusedCodes, UsedCodes, Insertable, RecoveryCodes, GoSession, GoUsers, GoCache, GoElse, Normalize,
      FormatRecoveryCode, RecoveryHashes, HexDraw, Departure, Single, DrawnBy;
    StageParts(cfg, st);
    var e := st.move.entropy;
    if HexDraw(e.hex) {
      TenHashes(e.hex);
      InsertedCount(st.pre.sys.core.db.recovery, u, RecoveryHashes(e.hex));
    }
  }

  lemma TenHashes(hex: seq<string>)
    requires HexDraw(hex)
    ensures |RecoveryHashes(hex)| == RECOVERY_CODES_COUNT
  {
  }

  /** Which flights insert for `u` after a stage: those before it, and the one that has just deleted. */
  lemma InsertersAfter(cfg: Config, st: Stage, u: Id, f: nat)
    requires ValidStage(cfg, st) && f in st.post.flights && st.post.flights[f] == Inserting(u)
    ensures (f in st.pre.flights && st.pre.flights[f] == Inserting(u)) || (Flying(st) == Some(Deleting(u)) && st.move.flight == f)
  {
    StageParts(cfg, st);
    hide ValidStage, Single, Departure, Continue;
    if Begins(st.move) && st.move.flight == f {
      DepartsElsewhere(cfg, st.pre.sys, st.move);
    } else if Flying(st).Some? && st.move.flight == f {
      OnlyDeletingInserts(cfg, st.pre.sys, Flying(st).value, st.move.entropy);
    }
  }

  lemma DepartsElsewhere(cfg: Config, s: Sys, m: Move)
    requires Begins(m)
    ensures var r := Departure(cfg, s, m).1; r.Ok? ==> !r.value.Inserting? && !r.value.Dropping? && !r.value.Finishing? && !r.value.Creating?
  {
    hide ChallengeUser, LockedOut, PasswordMatches, SecondsUp;
  }

  lemma OnlyDeletingInserts(cfg: Config, s: Sys, flight: Flight, e: Entropy)
    ensures var next := Continue(cfg, s, flight, e).1;
            next.On? && next.flight.Inserting? ==> next.flight == flight || flight == Deleting(next.flight.userId)
  {
    hide GoSession, PasswordMatches, MarkLoginSuccess, Unlock, FailedLogin, Changed, MarkEmailVerified, SetItem, GetItem, ChallengeKey, CeremonyKey,
      ConsumeRecoveryCode, DeleteRecoveryCodes, CreateRecoveryCodes, Insertable, DeviceTrusted, AvailableMethods, UpdateCounter, MarkUsed,
      Objection, SessionActive, RecoveryHashes, HexDraw;
    if WritesSessions(flight) {
      GoSessionFrame(cfg, s, flight, e);
    }
  }

  lemma StageCountFits(cfg: Config, st: Stage, u: Id)
    requires ValidStage(cfg, st) && BatchFits(st.pre, u)
    ensures CodeCount(st.post, u) <= RECOVERY_CODES_COUNT
    ensures CodeCount(st.pre, u) == 0 && Flying(st) != Some(Inserting(u)) ==> CodeCount(st.post, u) == 0
    ensures Flying(st) == Some(Deleting(u)) || st.move == Forget(u) ==> CodeCount(st.post, u) == 0
    ensures Flying(st) == Some(Inserting(u)) && st.move.flight in st.post.flights ==> CodeCount(st.post, u) == 0
  {
    hide ValidStage, UnusedCodes, UsedCodes;
    if Flying(st) == Some(Deleting(u)) || st.move == Forget(u) {
      DeletingFits(cfg, st, u);
    } else if Flying(st) == Some(Inserting(u)) {
      InsertingCounts(cfg, st, u);
    } else {
      StageCounts(cfg, st, u);
    }
  }

  lemma StageBatch(cfg: Config, st: Stage, u: Id)
    requires ValidStage(cfg, st) && BatchFits(st.pre, u) && OneRegeneration(st.pre, u)
    ensures BatchFits(st.post, u)
  {
    hide ValidStage, CodeCount;
    StageCountFits(cfg, st, u);
    forall f | f in st.post.flights && st.post.flights[f] == Inserting(u) ensures CodeCount(st.post, u) == 0 {
      InsertersAfter(cfg, st, u, f);
    }
  }

  /**
   As long as no two regenerations for an account are in flight together it never has more
   than ten codes, whatever else overlaps.
   */
  lemma {:induction false} NeverMoreThanTen(cfg: Config, trace: seq<Stage>, n: nat, u: Id)
    requires ValidTrace(cfg, trace) && trace != [] && n <= |trace| && BatchFits(trace[0].pre, u)
    requires forall i | 0 <= i < |trace| :: OneRegeneration(trace[i].pre, u)
    ensures BatchFits(WorldAt(trace, n), u)
  {
    hide ValidStage, BatchFits, OneRegeneration;
    if n > 0 {
      NeverMoreThanTen(cfg, trace, n - 1, u);
      StageBatch(cfg, trace[n - 1], u);
    }
  }

  /** A batch for `u` is inserted, where there is none to add to. */
  ghost predicate StartsBatch(st: Stage, u: Id) {
    Flying(st) == Some(Inserting(u)) && st.reply.Said? && st.reply.out.Codes? && BatchFits(st.pre, u)
  }

  /** From one batch to the next: used and unused codes make ten, and there are as many used codes as claims. */
  lemma TenPerBatch(cfg: Config, trace: seq<Stage>, n: nat, u: Id)
    requires ValidTrace(cfg, trace) && 0 < n <= |trace| && StartsBatch(trace[0], u) && SameBatch(trace[1..], u)
    ensures var codes := WorldAt(trace, n).sys.core.db.recovery;
            && |UsedCodes(codes, u)| + |UnusedCodes(codes, u)| == RECOVERY_CODES_COUNT
            && |UsedCodes(codes, u)| == ClaimCount(trace[1..n], u) <= RECOVERY_CODES_COUNT
  {
    hide ValidStage, UnusedCodes, UsedCodes, Rebatches;
    InsertingCounts(cfg, trace[0], u);
    if n > 1 {
      CodesConserved(cfg, trace[1..n], u);
    }
  }

  // Two regenerations that overlap

  lemma InsertableParts(recovery: map<Hash, RecoveryCode>, u: Id, a: seq<Hash>, b: seq<Hash>)
    requires Insertable(recovery, a + b)
    ensures Insertable(recovery, a) && Insertable(CreateRecoveryCodes(recovery, u, a), b)
  {
    forall i | 0 <= i < |a| ensures a[i] == (a + b)[i] {
    }
    forall i | 0 <= i < |b| ensures b[i] == (a + b)[|a| + i] && b[i] !in a {
    }
  }

  lemma TwoBatches(recovery: map<Hash, RecoveryCode>, u: Id, a: seq<Hash>, b: seq<Hash>)
    requires |a| == |b| == RECOVERY_CODES_COUNT && Insertable(DeleteRecoveryCodes(recovery, u), a + b)
    ensures var deleted := DeleteRecoveryCodes(DeleteRecoveryCodes(recovery, u), u);
            |UnusedCodes(CreateRecoveryCodes(CreateRecoveryCodes(deleted, u, a), u, b), u)| == 2 * RECOVERY_CODES_COUNT
  {
    hide UnusedCodes, UsedCodes, DeleteRecoveryCodes, CreateRecoveryCodes, Insertable;
    DeletedCodes(recovery, u);
    var deleted := DeleteRecoveryCodes(recovery, u);
    InsertableParts(deleted, u, a, b);
    InsertedCodes(deleted, u, a);
    InsertedCodes(CreateRecoveryCodes(deleted, u, a), u, b);
  }

  function TwoRegenerations(f: nat, g: nat, u: Id, e1: Entropy, e2: Entropy): seq<Move> {
    [BeginRegeneration(f, u), BeginRegeneration(g, u), Go(f, e1), Go(g, e2), Go(f, e1), Go(g, e2)]
  }

  lemma BeginCall(cfg: Config, w: World, f: nat, u: Id)
    requires f !in w.flights && u in w.sys.core.db.users
    ensures DrawnBy(w, BeginRegeneration(f, u)) == {}
    ensures Call(cfg, w, BeginRegeneration(f, u)).0 == w.(flights := w.flights[f := Deleting(u)])
  {
    assert w.sys.(drawn := w.sys.drawn + {}) == w.sys;
  }

  lemma DeleteCall(cfg: Config, w: World, f: nat, u: Id, e: Entropy)
    requires f in w.flights && w.flights[f] == Deleting(u)
    ensures DrawnBy(w, Go(f, e)) == {}
    ensures Call(cfg, w, Go(f, e)).0
         == World(WithRecovery(w.sys, DeleteRecoveryCodes(w.sys.core.db.recovery, u)), w.flights[f := Inserting(u)])
  {
    hide GoSession, GoUsers, GoCache, GoElse, DeleteRecoveryCodes;
    assert w.sys.drawn + {} == w.sys.drawn;
  }

  lemma InsertCall(cfg: Config, w: World, f: nat, u: Id, e: Entropy)
    requires f in w.flights && w.flights[f] == Inserting(u) && HexDraw(e.hex)
    ensures DrawnBy(w, Go(f, e)) == Texts(RecoveryHashes(e.hex))
    ensures Call(cfg, w, Go(f, e)).0
         == World(WithRecovery(w.sys, CreateRecoveryCodes(w.sys.core.db.recovery, u, RecoveryHashes(e.hex)))
                    .(drawn := w.sys.drawn + Texts(RecoveryHashes(e.hex))),
                  w.flights - {f})
  {
    hide GoSession, GoUsers, GoCache, GoElse, CreateRecoveryCodes, RecoveryHashes, HexDraw, Insertable, RecoveryCodes;
  }

  function Texts(hashes: seq<Hash>): set<string> {
    set h | h in hashes :: h.text
  }

  lemma NewInsertable(recovery: map<Hash, RecoveryCode>, u: Id, hashes: seq<Hash>, drawn: set<string>)
    requires (forall h | h in recovery :: h.text in drawn) && Texts(hashes) !! drawn && Distinct(hashes)
    ensures Insertable(DeleteRecoveryCodes(recovery, u), hashes)
  {
    forall i | 0 <= i < |hashes| ensures hashes[i] !in recovery {
      assert hashes[i].text in Texts(hashes);
    }
  }

  lemma TextsOfTwo(a: seq<Hash>, b: seq<Hash>)
    ensures Texts(a + b) == Texts(a) + Texts(b)
  {
    assert forall h :: h in a + b <==> h in a || h in b;
  }

  lemma CodesDrawn(w: World)
    requires WorldFits(w)
    ensures forall h | h in w.sys.core.db.recovery :: h.text in w.sys.drawn
  {
    hide SessionsFit, ChallengesDrawn, FlightFits;
  }

  /** The world once two regenerations have both deleted. */
  function BothDeleted(w: World, f: nat, g: nat, u: Id): World {
    World(WithRecovery(w.sys, DeleteRecoveryCodes(DeleteRecoveryCodes(w.sys.core.db.recovery, u), u)),
          w.flights[f := Inserting(u)][g := Inserting(u)])
  }

  lemma DeletedTwice(cfg: Config, w: World, f: nat, g: nat, u: Id, e1: Entropy, e2: Entropy)
    requires f != g && f !in w.flights && g !in w.flights && u in w.sys.core.db.users
    ensures var moves := TwoRegenerations(f, g, u, e1, e2);
            && After(cfg, w, moves[..4]) == BothDeleted(w, f, g, u)
            && forall i | 0 <= i < 4 :: DrawnBy(After(cfg, w, moves[..i]), moves[i]) == {}
  {
    var moves := TwoRegenerations(f, g, u, e1, e2);
    var w1 := w.(flights := w.flights[f := Deleting(u)]);
    var w2 := w1.(flights := w1.flights[g := Deleting(u)]);
    var w3 := World(WithRecovery(w.sys, DeleteRecoveryCodes(w.sys.core.db.recovery, u)), w2.flights[f := Inserting(u)]);
    hide Call, DrawnBy, DeleteRecoveryCodes;
    BeginCall(cfg, w, f, u);
    BeginCall(cfg, w1, g, u);
    DeleteCall(cfg, w2, f, u, e1);
    DeleteCall(cfg, w3, g, u, e2);
    SixCalls(cfg, w, moves);
    hide After;
    assert w3.flights[g := Inserting(u)] == w.flights[f := Inserting(u)][g := Inserting(u)];
  }

  /** Two regenerations that both delete before either inserts leave twenty codes that work. */
  lemma TwentyByOverlap(cfg: Config, w: World, f: nat, g: nat, u: Id, e1: Entropy, e2: Entropy)
    requires f != g && f !in w.flights && g !in w.flights && u in w.sys.core.db.users && WorldFits(w)
    requires HexDraw(e1.hex) && HexDraw(e2.hex) && Distinct(RecoveryHashes(e1.hex) + RecoveryHashes(e2.hex))
    requires Texts(RecoveryHashes(e1.hex)) !! w.sys.drawn && Texts(RecoveryHashes(e2.hex)) !! w.sys.drawn + Texts(RecoveryHashes(e1.hex))
    ensures var trace := TraceOf(cfg, w, TwoRegenerations(f, g, u, e1, e2));
            && ValidTrace(cfg, trace) && WorldAt(trace, 0) == w
            && |UnusedCodes(WorldAt(trace, 6).sys.core.db.recovery, u)| == 2 * RECOVERY_CODES_COUNT
  {
    hide WorldFits, RecoveryHashes, HexDraw, Distinct, Texts, Call, DrawnBy, DeleteRecoveryCodes, CreateRecoveryCodes, UnusedCodes, TraceOf,
      ValidTrace, After;
    var moves := TwoRegenerations(f, g, u, e1, e2);
    var w4 := BothDeleted(w, f, g, u);
    TenHashes(e1.hex);
    TenHashes(e2.hex);
    BatchesFit(w, u, RecoveryHashes(e1.hex), RecoveryHashes(e2.hex));
    DeletedTwice(cfg, w, f, g, u, e1, e2);
    InsertedTwice(cfg, w4, f, g, u, e1, e2);
    SixCalls(cfg, w, moves);
    assert FreshAlong(cfg, w, moves);
    TraceOfIsValid(cfg, w, moves);
  }

  lemma InsertedTwice(cfg: Config, w: World, f: nat, g: nat, u: Id, e1: Entropy, e2: Entropy)
    requires f != g && f in w.flights && g in w.flights && w.flights[f] == Inserting(u) && w.flights[g] == Inserting(u)
    requires HexDraw(e1.hex) && HexDraw(e2.hex)
    ensures var w1 := Call(cfg, w, Go(f, e1)).0;
            && w1.sys.drawn == w.sys.drawn + Texts(RecoveryHashes(e1.hex))
            && DrawnBy(w, Go(f, e1)) == Texts(RecoveryHashes(e1.hex)) && DrawnBy(w1, Go(g, e2)) == Texts(RecoveryHashes(e2.hex))
            && Call(cfg, w1, Go(g, e2)).0.sys.core.db.recovery
               == CreateRecoveryCodes(CreateRecoveryCodes(w.sys.core.db.recovery, u, RecoveryHashes(e1.hex)), u, RecoveryHashes(e2.hex))
  {
    hide RecoveryHashes, HexDraw, Texts, Call, DrawnBy, CreateRecoveryCodes;
    InsertCall(cfg, w, f, u, e1);
    InsertCall(cfg, Call(cfg, w, Go(f, e1)).0, g, u, e2);
  }

  lemma BatchesFit(w: World, u: Id, a: seq<Hash>, b: seq<Hash>)
    requires |a| == |b| == RECOVERY_CODES_COUNT && WorldFits(w) && Distinct(a + b)
    requires Texts(a) !! w.sys.drawn && Texts(b) !! w.sys.drawn + Texts(a)
    ensures var deleted := DeleteRecoveryCodes(DeleteRecoveryCodes(w.sys.core.db.recovery, u), u);
            |UnusedCodes(CreateRecoveryCodes(CreateRecoveryCodes(deleted, u, a), u, b), u)| == 2 * RECOVERY_CODES_COUNT
  {
    CodesDrawn(w);
    TextsOfTwo(a, b);
    hide WorldFits, Distinct, Texts, Insertable, DeleteRecoveryCodes, CreateRecoveryCodes, UnusedCodes;
    NewInsertable(w.sys.core.db.recovery, u, a + b, w.sys.drawn);
    TwoBatches(w.sys.core.db.recovery, u, a, b);
  }

  lemma SixCalls(cfg: Config, w: World, moves: seq<Move>)
    requires |moves| == 6
    ensures After(cfg, w, moves[..0]) == w
    ensures After(cfg, w, moves[..1]) == Call(cfg, w, moves[0]).0
    ensures After(cfg, w, moves[..2]) == Call(cfg, After(cfg, w, moves[..1]), moves[1]).0
    ensures After(cfg, w, moves[..3]) == Call(cfg, After(cfg, w, moves[..2]), moves[2]).0
    ensures After(cfg, w, moves[..4]) == Call(cfg, After(cfg, w, moves[..3]), moves[3]).0
    ensures After(cfg, w, moves[..5]) == Call(cfg, After(cfg, w, moves[..4]), moves[4]).0
    ensures After(cfg, w, moves) == Call(cfg, After(cfg, w, moves[..5]), moves[5]).0
  {
    hide Call, After;
    Unextended(cfg, w);
    assert moves[..0] == [] && moves[..6] == moves;
    AfterNext(cfg, w, moves, 0);
    AfterNext(cfg, w, moves, 1);
    AfterNext(cfg, w, moves, 2);
    AfterNext(cfg, w, moves, 3);
    AfterNext(cfg, w, moves, 4);
    AfterNext(cfg, w, moves, 5);
  }

  // ---------------------------------------------------------------------------
  // A claim lets in once
  // ---------------------------------------------------------------------------

  /** Past a claim for `u`, on the way to a session. */
  predicate Carries(flight: Flight, u: Id) {
    match flight
    case Dropping(_, v, _, byRecovery, _) => u == v && byRecovery
    case Finishing(v, _, byRecovery, _) => u == v && byRecovery
    case Creating(v, _, _, byRecovery, _) => u == v && byRecovery
    case _ => false
  }

  function Carrying(w: World, u: Id): set<nat> {
    set f | f in w.flights && Carries(w.flights[f], u)
  }

  /** A recovery login of `u` is completed. */
  predicate RecoveryLogin(st: Stage, u: Id) {
    Flying(st).Some? && Flying(st).value.Creating? && Carries(Flying(st).value, u)
  }

  function RecoveryLogins(trace: seq<Stage>, u: Id): nat {
    if trace == [] then 0
    else RecoveryLogins(trace[..|trace| - 1], u) + if RecoveryLogin(trace[|trace| - 1], u) then 1 else 0
  }

  /** Where a flight goes next, as far as carrying a claim is concerned. */
  lemma ContinueCarries(cfg: Config, s: Sys, flight: Flight, e: Entropy, u: Id)
    ensures var next := Continue(cfg, s, flight, e).1;
            && (next.On? && Carries(next.flight, u) && !Carries(flight, u) ==>
                  flight.Answering? && flight.answer.ByRecovery? && flight.userId == u)
            && (flight.Creating? ==> next.Landed?)
  {
    hide GoSession, Compare, MarkLoginSuccess, Unlock, FailedLogin, Changed, MarkEmailVerified, SetItem, GetItem, ChallengeKey, CeremonyKey,
      ConsumeRecoveryCode, DeleteRecoveryCodes, CreateRecoveryCodes, Insertable, DeviceTrusted, AvailableMethods, UpdateCounter, MarkUsed,
      Objection, SessionActive, RecoveryHashes, HexDraw, RecoveryCodes, CredentialsOf, Normalize;
    ComparedFlies(cfg);
    if WritesSessions(flight) {
      GoSessionFrame(cfg, s, flight, e);
    }
  }

  lemma ComparedFlies(cfg: Config)
    ensures forall u, row, attempt :: Compare(cfg, u, row, attempt).Ok? ==>
              Compare(cfg, u, row, attempt).value.Failing? || Compare(cfg, u, row, attempt).value.Succeeding?
  {
    hide PasswordMatches;
  }

  lemma CarryingStep(flights: map<nat, Flight>, f: nat, next: Next, u: Id, s: Sys)
    requires f in flights
    ensures Carrying(World(s, Land(flights, f, next)), u)
         == Carrying(World(s, flights), u) - {f} + if next.On? && Carries(next.flight, u) then {f} else {}
  {
  }

  lemma CarryingNew(flights: map<nat, Flight>, f: nat, flight: Flight, u: Id, s: Sys)
    requires f !in flights && !Carries(flight, u)
    ensures Carrying(World(s, flights[f := flight]), u) == Carrying(World(s, flights), u)
  {
  }

  lemma CarryingIs(w: World, s: Sys, u: Id)
    ensures Carrying(w, u) == Carrying(World(s, w.flights), u)
    ensures forall f :: f in Carrying(w, u) <==> f in w.flights && Carries(w.flights[f], u)
  {
  }

  /** A login uses up a flight that carries a claim; only a claim makes one. */
  lemma StageCarries(cfg: Config, st: Stage, u: Id)
    requires ValidStage(cfg, st)
    ensures |Carrying(st.post, u)| + (if RecoveryLogin(st, u) then 1 else 0)
         <= |Carrying(st.pre, u)| + if ClaimsSome(st, u) then 1 else 0
  {
    StageParts(cfg, st);
    hide ValidStage, Single, Departure, Continue, Carrying, Carries;
    CarryingIs(st.pre, st.pre.sys, u);
    CarryingIs(st.post, st.pre.sys, u);
    if Flying(st).Some? {
      var flight := Flying(st).value;
      ContinueCarries(cfg, st.pre.sys, flight, st.move.entropy, u);
      CarryingStep(st.pre.flights, st.move.flight, Continue(cfg, st.pre.sys, flight, st.move.entropy).1, u, st.pre.sys);
    } else if Begins(st.move) && st.move.flight !in st.pre.flights {
      var r := Departure(cfg, st.pre.sys, st.move).1;
      DepartsElsewhere(cfg, st.pre.sys, st.move);
      if r.Ok? {
        NotCarrying(r.value, u);
        CarryingNew(st.pre.flights, st.move.flight, r.value, u, st.pre.sys);
      }
    }
  }

  lemma NotCarrying(flight: Flight, u: Id)
    requires !flight.Dropping? && !flight.Finishing? && !flight.Creating?
    ensures !Carries(flight, u)
  {
  }

  lemma {:induction false} LoginsNeedClaims(cfg: Config, trace: seq<Stage>, u: Id)
    requires ValidTrace(cfg, trace) && trace != []
    ensures RecoveryLogins(trace, u) + |Carrying(trace[|trace| - 1].post, u)| <= |Carrying(trace[0].pre, u)| + ClaimCount(trace, u)
  {
    hide ValidStage, RecoveryLogin, ClaimsSome, Carrying;
    var n := |trace| - 1;
    StageCarries(cfg, trace[n], u);
    if n > 0 {
      LoginsNeedClaims(cfg, trace[..n], u);
    } else {
      assert trace[..n] == [];
    }
  }

  /** A batch lets in ten times at most, counting from when no login by an earlier code is still under way. */
  lemma TenLoginsPerBatch(cfg: Config, trace: seq<Stage>, u: Id)
    requires ValidTrace(cfg, trace) && trace != [] && StartsBatch(trace[0], u) && SameBatch(trace[1..], u)
    requires Carrying(trace[0].post, u) == {}
    ensures RecoveryLogins(trace[1..], u) <= RECOVERY_CODES_COUNT
  {
    hide ValidStage, StartsBatch, Rebatches, RecoveryLogin, ClaimsSome, Carrying;
    if |trace| > 1 {
      TenPerBatch(cfg, trace, |trace|, u);
      LoginsNeedClaims(cfg, trace[1..], u);
      assert trace[1..|trace|] == trace[1..];
    }
  }
}
