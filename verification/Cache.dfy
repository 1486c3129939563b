/**
 The in-memory cache behind pending challenges: an entry carries a deadline, and an
 entry past it is deleted when it is next read. Times are milliseconds.
 */
module Cache {
  import opened Wrappers

  /** `expiresAt` is `None` for an entry that never expires. */
  datatype Item<V> = Item(value: V, expiresAt: Option<int>)

  type Store<V> = map<string, Item<V>>

  predicate Lapsed<V>(item: Item<V>, now: int) {
    item.expiresAt.Some? && item.expiresAt.value < now
  }

  function GetItem<V>(store: Store<V>, key: string, now: int): (Store<V>, Option<V>) {
    if key !in store then (store, None)
    else if Lapsed(store[key], now) then (store - {key}, None)
    else (store, Some(store[key].value))
  }

  /** A `ttlSeconds` that is absent or zero is falsy: the entry never expires. */
  function Deadline(ttlSeconds: int, now: int): Option<int> {
    if ttlSeconds != 0 then Some(now + ttlSeconds * 1000) else None
  }

  function SetItem<V>(store: Store<V>, key: string, value: V, ttlSeconds: int, now: int): Store<V> {
    store[key := Item(value, Deadline(ttlSeconds, now))]
  }

  class MemoryCache<V> {
    var store: Store<V>

    constructor ()
      ensures store == map[]
    {
      store := map[];
    }

    method Get(key: string, now: int) returns (r: Option<V>)
      modifies this
      ensures (store, r) == GetItem(old(store), key, now)
    {
      if key !in store {
        return None;
      }
      var item := store[key];
      if item.expiresAt.Some? && item.expiresAt.value < now {
        store := store - {key};
        return None;
      }
      return Some(item.value);
    }

    method Set(key: string, value: V, ttlSeconds: int, now: int)
      modifies this
      ensures store == SetItem(old(store), key, value, ttlSeconds, now)
    {
      store := store[key := Item(value, Deadline(ttlSeconds, now))];
    }

    method Del(key: string)
      modifies this
      ensures store == old(store) - {key}
    {
      store := store - {key};
    }

    method Close()
      modifies this
      ensures store == map[]
    {
      store := map[];
    }
  }

  // ---------------------------------------------------------------------------
  // Lazy deletion is invisible
  // ---------------------------------------------------------------------------

  datatype Op<V> =
    | OpGet(key: string)
    | OpSet(key: string, value: V, ttlSeconds: int)
    | OpDel(key: string)
    | OpClose

  datatype Timed<V> = Timed(op: Op<V>, now: int)

  predicate Chronological<V>(ops: seq<Timed<V>>) {
    forall i, j | 0 <= i < j < |ops| :: ops[i].now <= ops[j].now
  }

  /** One operation on the lazily deleting store, and what a read returns. */
  function Apply<V>(store: Store<V>, op: Op<V>, now: int): (Store<V>, Option<V>) {
    match op
    case OpGet(key) => GetItem(store, key, now)
    case OpSet(key, value, ttl) => (SetItem(store, key, value, ttl, now), None)
    case OpDel(key) => (store - {key}, None)
    case OpClose => (map[], None)
  }

  /** The same on a plain map that only filters by deadline when it is read. */
  function ApplyFiltering<V>(store: Store<V>, op: Op<V>, now: int): (Store<V>, Option<V>) {
    match op
    case OpGet(key) =>
      (store, if key in store && !Lapsed(store[key], now) then Some(store[key].value) else None)
    case _ => Apply(store, op, now)
  }

  function Run<V>(ops: seq<Timed<V>>): (r: (Store<V>, seq<Option<V>>))
    ensures |r.1| == |ops|
  {
    if ops == [] then (map[], [])
    else
      var (store, results) := Run(ops[..|ops| - 1]);
      var (after, r) := Apply(store, ops[|ops| - 1].op, ops[|ops| - 1].now);
      (after, results + [r])
  }

  function RunFiltering<V>(ops: seq<Timed<V>>): (r: (Store<V>, seq<Option<V>>))
    ensures |r.1| == |ops|
  {
    if ops == [] then (map[], [])
    else
      var (store, results) := RunFiltering(ops[..|ops| - 1]);
      var (after, r) := ApplyFiltering(store, ops[|ops| - 1].op, ops[|ops| - 1].now);
      (after, results + [r])
  }

  ghost predicate OnlyLapsedMissing<V>(lazy: Store<V>, plain: Store<V>, now: int) {
    && (forall k | k in lazy :: k in plain && lazy[k] == plain[k])
    && (forall k | k in plain && k !in lazy :: Lapsed(plain[k], now))
  }

  /** Every read of every operation sequence in time order is that of the filtering map. */
  lemma {:induction false} LazyDeletionInvisible<V>(ops: seq<Timed<V>>)
    requires Chronological(ops)
    ensures Run(ops).1 == RunFiltering(ops).1
    ensures ops != [] ==> OnlyLapsedMissing(Run(ops).0, RunFiltering(ops).0, ops[|ops| - 1].now)
  {
    if ops != [] {
      var before, now := ops[..|ops| - 1], ops[|ops| - 1].now;
      LazyDeletionInvisible(before);
      assert OnlyLapsedMissing(Run(before).0, RunFiltering(before).0, now);
    }
  }

  predicate Touches<V>(op: Op<V>, key: string) {
    match op
    case OpGet(_) => false
    case OpSet(k, _, _) => k == key
    case OpDel(k) => k == key
    case OpClose => true
  }

  lemma {:induction false} EntryPersists<V>(ops: seq<Timed<V>>, i: nat)
    requires i < |ops| && ops[i].op.OpSet?
    requires forall j | i < j < |ops| :: !Touches(ops[j].op, ops[i].op.key)
    ensures var put := ops[i].op;
            && put.key in RunFiltering(ops).0
            && RunFiltering(ops).0[put.key] == Item(put.value, Deadline(put.ttlSeconds, ops[i].now))
  {
    if i < |ops| - 1 {
      EntryPersists(ops[..|ops| - 1], i);
    }
  }

  /** What a read of `key` at `now` returns after `ops`. */
  function ReadAfter<V>(ops: seq<Timed<V>>, key: string, now: int): Option<V> {
    Run(ops + [Timed(OpGet(key), now)]).1[|ops|]
  }

  /**
   A value that was set and not touched since is read back exactly until its deadline,
   the deadline included; with a zero time to live it is read back for ever.
   */
  lemma ReadUntilDeadline<V>(ops: seq<Timed<V>>, i: nat, now: int)
    requires i < |ops| && ops[i].op.OpSet?
    requires Chronological(ops) && ops[|ops| - 1].now <= now
    requires forall j | i < j < |ops| :: !Touches(ops[j].op, ops[i].op.key)
    ensures var alive := ops[i].op.ttlSeconds == 0 || now <= ops[i].now + ops[i].op.ttlSeconds * 1000;
            ReadAfter(ops, ops[i].op.key, now) == if alive then Some(ops[i].op.value) else None
  {
    var all := ops + [Timed(OpGet(ops[i].op.key), now)];
    LazyDeletionInvisible(all);
    assert all[..|all| - 1] == ops;
    EntryPersists(ops, i);
    assert Run(all).1[|ops|] == RunFiltering(all).1[|ops|];
    assert RunFiltering(all).1[|ops|] == ApplyFiltering(RunFiltering(ops).0, OpGet(ops[i].op.key), now).1;
  }
}
