/**
 The in-memory rate limiter: a counter per key and window, with a lazy sweep of the
 expired buckets once there are more than ten thousand. Times are milliseconds.
 */
module RateLimit {
  import opened Wrappers
  import opened Arithmetic

  const SWEEP_THRESHOLD := 10_000

  datatype Bucket = Bucket(count: int, resetAt: int)

  datatype RateLimitResult = RateLimitResult(success: bool, limit: int, remaining: int, resetAt: int)

  type Buckets = map<string, Bucket>

  /** The buckets that have not expired at `now`. */
  function Unexpired(buckets: Buckets, now: int): Buckets {
    map k | k in buckets && buckets[k].resetAt > now :: buckets[k]
  }

  function Sweep(buckets: Buckets, now: int): Buckets {
    if |buckets| > SWEEP_THRESHOLD then Unexpired(buckets, now) else buckets
  }

  /** One call without the sweep: the bucket of `key` alone decides and changes. */
  function Count(buckets: Buckets, key: string, windowMs: int, limit: int, now: int): (Buckets, RateLimitResult) {
    if key !in buckets || buckets[key].resetAt <= now then
      (buckets[key := Bucket(1, now + windowMs)], RateLimitResult(true, limit, limit - 1, now + windowMs))
    else
      var count := buckets[key].count + 1;
      (buckets[key := Bucket(count, buckets[key].resetAt)],
       RateLimitResult(count <= limit, limit, if limit - count > 0 then limit - count else 0, buckets[key].resetAt))
  }

  class InMemoryRateLimitStore {
    var buckets: Buckets

    constructor ()
      ensures buckets == map[]
    {
      buckets := map[];
    }

    method Consume(key: string, windowMs: int, limit: int, now: int) returns (r: RateLimitResult)
      modifies this
      ensures (buckets, r) == Count(Sweep(old(buckets), now), key, windowMs, limit, now)
    {
      if |buckets| > SWEEP_THRESHOLD {
        var rest := buckets.Keys;
        while rest != {}
          invariant rest <= buckets.Keys <= old(buckets).Keys
          invariant forall k :: k in buckets ==> buckets[k] == old(buckets)[k]
          invariant forall k :: k in old(buckets) && k !in rest ==> (k in buckets <==> old(buckets)[k].resetAt > now)
        {
          var k :| k in rest;
          if buckets[k].resetAt <= now {
            buckets := buckets - {k};
          }
          rest := rest - {k};
        }
        assert buckets == Unexpired(old(buckets), now);
      }
      if key !in buckets || buckets[key].resetAt <= now {
        buckets := buckets[key := Bucket(1, now + windowMs)];
        return RateLimitResult(true, limit, limit - 1, now + windowMs);
      }
      var bucket := buckets[key].(count := buckets[key].count + 1);
      buckets := buckets[key := bucket];
      return RateLimitResult(bucket.count <= limit, limit,
                             if 0 > limit - bucket.count then 0 else limit - bucket.count, bucket.resetAt);
    }
  }

  // ---------------------------------------------------------------------------
  // Call sequences
  // ---------------------------------------------------------------------------

  datatype Call = Call(key: string, windowMs: int, limit: int, now: int)

  predicate Chronological(calls: seq<Call>) {
    forall i, j | 0 <= i < j < |calls| :: calls[i].now <= calls[j].now
  }

  /** The sweeping store after `calls`, from empty, with what each call returned. */
  function Run(calls: seq<Call>): (Buckets, seq<RateLimitResult>) {
    if calls == [] then (map[], [])
    else
      var (buckets, results) := Run(calls[..|calls| - 1]);
      var c := calls[|calls| - 1];
      var (after, r) := Count(Sweep(buckets, c.now), c.key, c.windowMs, c.limit, c.now);
      (after, results + [r])
  }

  /** The same calls on a store that never deletes anything. */
  function RunKeeping(calls: seq<Call>): (Buckets, seq<RateLimitResult>) {
    if calls == [] then (map[], [])
    else
      var (buckets, results) := RunKeeping(calls[..|calls| - 1]);
      var c := calls[|calls| - 1];
      var (after, r) := Count(buckets, c.key, c.windowMs, c.limit, c.now);
      (after, results + [r])
  }

  /** `swept` is `kept` without some buckets that have expired by `now`. */
  predicate OnlyExpiredMissing(swept: Buckets, kept: Buckets, now: int) {
    && (forall k | k in swept :: k in kept && swept[k] == kept[k])
    && (forall k | k in kept && k !in swept :: kept[k].resetAt <= now)
  }

  /**
   Sweeping is invisible: for every call sequence in time order, over any keys, every
   call returns what the store that never deletes would have returned.
   */
  lemma {:induction false} SweepInvisible(calls: seq<Call>)
    requires Chronological(calls)
    ensures Run(calls).1 == RunKeeping(calls).1
    ensures calls != [] ==> OnlyExpiredMissing(Run(calls).0, RunKeeping(calls).0, calls[|calls| - 1].now)
  {
    if calls != [] {
      var before, c := calls[..|calls| - 1], calls[|calls| - 1];
      SweepInvisible(before);
      assert OnlyExpiredMissing(Run(before).0, RunKeeping(before).0, c.now);
    }
  }

  /** After every call the store holds at most 10001 buckets, or no expired one besides. */
  lemma SizeBounded(calls: seq<Call>)
    requires calls != []
    ensures var c := calls[|calls| - 1];
            c.windowMs > 0 ==> |Run(calls).0| <= 10_001
                               || |Run(calls).0| <= |Unexpired(Run(calls).0, c.now)|
  {
    var before, c := Run(calls[..|calls| - 1]).0, calls[|calls| - 1];
    var after := Run(calls).0;
    if c.windowMs > 0 {
      if |before| > SWEEP_THRESHOLD {
        assert Unexpired(after, c.now) == after;
      } else {
        assert after.Keys == before.Keys + {c.key};
      }
    }
  }

  // ---------------------------------------------------------------------------
  // How much gets through
  // ---------------------------------------------------------------------------

  /** The last of `calls`: what the store answered. */
  function LastResult(calls: seq<Call>): RateLimitResult
    requires calls != []
  {
    var results := Run(calls).1;
    results[|results| - 1]
  }

  /** The successful calls for `key` at times in `[lo, hi)`. */
  function Successes(calls: seq<Call>, key: string, lo: int, hi: int): nat {
    if calls == [] then 0
    else
      var c := calls[|calls| - 1];
      Successes(calls[..|calls| - 1], key, lo, hi)
      + if c.key == key && lo <= c.now < hi && LastResult(calls).success then 1 else 0
  }

  /** One limiter uses one window and one limit for a key. */
  predicate Uniform(calls: seq<Call>, key: string, windowMs: int, limit: int) {
    forall i | 0 <= i < |calls| && calls[i].key == key :: calls[i].windowMs == windowMs && calls[i].limit == limit
  }

  predicate Configured(calls: seq<Call>, key: string, windowMs: int, limit: int) {
    windowMs > 0 && limit >= 1 && Chronological(calls) && Uniform(calls, key, windowMs, limit)
  }

  function Min(a: int, b: int): int {
    if a < b then a else b
  }

  /** The windows after the first that can have ended by the start of the current one. */
  function WindowsSince(lo: int, start: int, windowMs: int): nat
    requires windowMs > 0
  {
    if start < lo then 0 else (start - lo) / windowMs + 1
  }

  /** The bucket `key` has after `calls` if nothing is deleted; `None` before its first call. */
  function BucketOf(calls: seq<Call>, key: string): Option<Bucket> {
    var kept := RunKeeping(calls).0;
    if key in kept then Some(kept[key]) else None
  }

  lemma LastResultIsCount(calls: seq<Call>)
    requires Chronological(calls) && calls != []
    ensures var c := calls[|calls| - 1];
            LastResult(calls) == Count(RunKeeping(calls[..|calls| - 1]).0, c.key, c.windowMs, c.limit, c.now).1
  {
    SweepInvisible(calls);
  }

  lemma {:induction false} NoneBefore(calls: seq<Call>, key: string, lo: int, hi: int)
    requires forall i | 0 <= i < |calls| :: calls[i].now < lo
    ensures Successes(calls, key, lo, hi) == 0
  {
    if calls != [] {
      NoneBefore(calls[..|calls| - 1], key, lo, hi);
    }
  }

  lemma {:induction false} NoneWithoutBucket(calls: seq<Call>, key: string, lo: int, hi: int)
    requires BucketOf(calls, key).None?
    ensures Successes(calls, key, lo, hi) == 0
  {
    if calls != [] {
      NoneWithoutBucket(calls[..|calls| - 1], key, lo, hi);
    }
  }

  /** Calls for the key made after its window closed would have opened a new one. */
  lemma {:induction false} CallsPrecedeReset(calls: seq<Call>, key: string, windowMs: int, limit: int)
    requires Configured(calls, key, windowMs, limit)
    ensures match BucketOf(calls, key)
            case None => forall i | 0 <= i < |calls| :: calls[i].key != key
            case Some(b) => b.count >= 1 && forall i | 0 <= i < |calls| && calls[i].key == key :: calls[i].now < b.resetAt
  {
    if calls != [] {
      CallsPrecedeReset(calls[..|calls| - 1], key, windowMs, limit);
    }
  }

  lemma {:induction false} NoneOfKey(calls: seq<Call>, key: string, lo: int, hi: int)
    requires forall i | 0 <= i < |calls| && calls[i].key == key :: calls[i].now < lo
    ensures Successes(calls, key, lo, hi) == 0
  {
    if calls != [] {
      NoneOfKey(calls[..|calls| - 1], key, lo, hi);
    }
  }

  lemma {:induction false} BucketStart(calls: seq<Call>, key: string, windowMs: int, limit: int)
    requires Configured(calls, key, windowMs, limit) && calls != []
    ensures BucketOf(calls, key).Some? ==> BucketOf(calls, key).value.resetAt - windowMs <= calls[|calls| - 1].now
  {
    var before, c := calls[..|calls| - 1], calls[|calls| - 1];
    if before != [] {
      BucketStart(before, key, windowMs, limit);
    } else {
      assert RunKeeping(before).0 == map[];
    }
  }

  lemma {:induction false} WindowCount(calls: seq<Call>, key: string, windowMs: int, limit: int)
    requires Configured(calls, key, windowMs, limit)
    ensures match BucketOf(calls, key)
            case None => true
            case Some(b) => Successes(calls, key, b.resetAt - windowMs, b.resetAt) == Min(b.count, limit)
  {
    if calls != [] {
      var before, c := calls[..|calls| - 1], calls[|calls| - 1];
      WindowCount(before, key, windowMs, limit);
      CallsPrecedeReset(before, key, windowMs, limit);
      BucketStart(calls, key, windowMs, limit);
      LastResultIsCount(calls);
      if c.key == key && (BucketOf(before, key).None? || BucketOf(before, key).value.resetAt <= c.now) {
        NoneOfKey(before, key, c.now, c.now + windowMs);
      }
    }
  }

  /**
   Within a window, what remains plus what has succeeded is the limit: so no window lets
   more than `limit` calls through.
   */
  lemma WindowExact(calls: seq<Call>, key: string, windowMs: int, limit: int)
    requires Configured(calls, key, windowMs, limit) && calls != [] && calls[|calls| - 1].key == key
    ensures var r := LastResult(calls);
            && r.resetAt - windowMs <= calls[|calls| - 1].now < r.resetAt
            && Successes(calls, key, r.resetAt - windowMs, r.resetAt) + r.remaining == limit
            && r.remaining >= 0
            && (r.success <==> Successes(calls[..|calls| - 1], key, r.resetAt - windowMs, r.resetAt) < limit)
            && r.limit == limit
  {
    var before := calls[..|calls| - 1];
    WindowCount(calls, key, windowMs, limit);
    WindowCount(before, key, windowMs, limit);
    CallsPrecedeReset(before, key, windowMs, limit);
    BucketStart(calls, key, windowMs, limit);
    LastResultIsCount(calls);
    var c := calls[|calls| - 1];
    if BucketOf(before, key).None? || BucketOf(before, key).value.resetAt <= c.now {
      NoneOfKey(before, key, c.now, c.now + windowMs);
    }
  }

  predicate CalledAt(calls: seq<Call>, key: string, time: int) {
    exists i | 0 <= i < |calls| :: calls[i].key == key && calls[i].now == time
  }

  /** The window a call falls into was opened by a call of its key, and lasts from that one on. */
  lemma {:induction false} WindowOpenedByCall(calls: seq<Call>, key: string, windowMs: int, limit: int)
    requires Configured(calls, key, windowMs, limit)
    ensures BucketOf(calls, key).Some? ==> CalledAt(calls, key, BucketOf(calls, key).value.resetAt - windowMs)
    ensures calls != [] && calls[|calls| - 1].key == key ==> CalledAt(calls, key, LastResult(calls).resetAt - windowMs)
  {
    if calls != [] {
      var before, c := calls[..|calls| - 1], calls[|calls| - 1];
      WindowOpenedByCall(before, key, windowMs, limit);
      LastResultIsCount(calls);
      assert c.key == key ==> CalledAt(calls, key, c.now);
      assert forall t :: CalledAt(before, key, t) ==> CalledAt(calls, key, t) by {
        forall t | CalledAt(before, key, t) ensures CalledAt(calls, key, t) {
          var i :| 0 <= i < |before| && before[i].key == key && before[i].now == t;
          assert calls[i].key == key && calls[i].now == t;
        }
      }
    }
  }

  lemma {:induction false} IntervalInvariant(calls: seq<Call>, key: string, windowMs: int, limit: int, lo: int, hi: int)
    requires Configured(calls, key, windowMs, limit)
    ensures match BucketOf(calls, key)
            case None => true
            case Some(b) =>
              Successes(calls, key, lo, hi)
              <= limit * WindowsSince(lo, b.resetAt - windowMs, windowMs) + Min(b.count, limit)
  {
    if calls != [] {
      var before, c := calls[..|calls| - 1], calls[|calls| - 1];
      IntervalInvariant(before, key, windowMs, limit, lo, hi);
      LastResultIsCount(calls);
      if c.key == key {
        match BucketOf(before, key)
        case None =>
          NoneWithoutBucket(before, key, lo, hi);
          assert limit * WindowsSince(lo, c.now, windowMs) >= 0;
        case Some(b) =>
          if b.resetAt <= c.now {
            if c.now < lo {
              NoneBefore(before, key, lo, hi);
            } else {
              NextWindow(lo, b.resetAt - windowMs, c.now, windowMs, limit);
            }
          }
      }
    }
  }

  /** A window opened once the previous one is over counts at least one window more. */
  lemma NextWindow(lo: int, start: int, next: int, windowMs: int, limit: int)
    requires windowMs > 0 && limit >= 1 && start + windowMs <= next && lo <= next
    ensures limit * WindowsSince(lo, start, windowMs) + limit <= limit * WindowsSince(lo, next, windowMs)
  {
    var m, n := WindowsSince(lo, start, windowMs), WindowsSince(lo, next, windowMs);
    if start >= lo {
      DivShift(start - lo, windowMs, 1);
      DivMonotone(start - lo + windowMs, next - lo, windowMs);
    }
    assert m + 1 <= n;
    assert limit * (n - m - 1) >= 0;
  }

  /**
   For every call sequence in time order, any half-open interval of length `T` lets at
   most `limit * (ceil(T / windowMs) + 1)` calls of a key through.
   */
  lemma {:induction false} IntervalBound(calls: seq<Call>, key: string, windowMs: int, limit: int, lo: int, hi: int)
    requires Configured(calls, key, windowMs, limit) && lo <= hi
    ensures Successes(calls, key, lo, hi) <= limit * (CeilDiv(hi - lo, windowMs) + 1)
  {
    if calls == [] {
      assert limit * (CeilDiv(hi - lo, windowMs) + 1) >= 0;
    } else if calls[|calls| - 1].now >= hi {
      IntervalBound(calls[..|calls| - 1], key, windowMs, limit, lo, hi);
    } else {
      IntervalInvariant(calls, key, windowMs, limit, lo, hi);
      if BucketOf(calls, key).None? {
        NoneWithoutBucket(calls, key, lo, hi);
        assert limit * (CeilDiv(hi - lo, windowMs) + 1) >= 0;
      } else {
        BucketStart(calls, key, windowMs, limit);
        WindowsFit(lo, hi, BucketOf(calls, key).value.resetAt - windowMs, windowMs, limit);
      }
    }
  }

  lemma WindowsFit(lo: int, hi: int, start: int, windowMs: int, limit: int)
    requires windowMs > 0 && limit >= 1 && lo <= hi && start < hi
    ensures limit * WindowsSince(lo, start, windowMs) + limit <= limit * (CeilDiv(hi - lo, windowMs) + 1)
  {
    var m, n := WindowsSince(lo, start, windowMs), CeilDiv(hi - lo, windowMs);
    if start >= lo {
      DivShift(start - lo, windowMs, 1);
      DivMonotone(start - lo + windowMs, hi - lo + windowMs - 1, windowMs);
    }
    assert m <= n;
    assert limit * (n - m) >= 0;
  }

  /** In particular at most twice the limit in any span of one window. */
  lemma OneWindowSpan(calls: seq<Call>, key: string, windowMs: int, limit: int, lo: int)
    requires Configured(calls, key, windowMs, limit)
    ensures Successes(calls, key, lo, lo + windowMs) <= 2 * limit
  {
    IntervalBound(calls, key, windowMs, limit, lo, lo + windowMs);
    assert CeilDiv(windowMs, windowMs) == 1 by {
      DivShift(windowMs - 1, windowMs, 1);
    }
  }
}
