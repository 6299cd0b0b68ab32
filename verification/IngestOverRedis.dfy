/**
 The two maps of the clocked protocol, with their expiry, are one Redis keyspace: what the
 idempotency store promises of each call keeps the two in step, and expiry needs no call.
 */
module IngestOverRedis {
  import opened Prelude
  import opened Schemas
  import opened Ingest
  import opened IngestClocked
  import opened Idempotency

  /** Nothing in the maps has run out. */
  ghost predicate Current(x: Clocked) {
    && (forall k :: k in x.base.data.cache ==> k in x.cacheEnds && x.now < x.cacheEnds[k])
    && (forall k :: k in x.base.locks ==> k in x.lockEnds && x.now < x.lockEnds[k])
  }

  /** From now on the store answers as the maps would, if nothing more were written. */
  ghost predicate Mirrors(entries: Keyspace, x: Clocked) {
    && Current(x)
    && (forall k, t {:trigger CachedAt(entries, t, k)} :: x.now <= t ==>
          CachedAt(entries, t, k) ==
          if k in x.base.data.cache && t < x.cacheEnds[k] then Some(x.base.data.cache[k]) else None)
    && (forall k, t {:trigger LockedAt(entries, t, k)} :: x.now <= t ==>
          (LockedAt(entries, t, k) <==> k in x.base.locks && t < x.lockEnds[k]))
  }

  /** What the store does at an await, by the contracts of IdempotencyStore. */
  ghost predicate StoreEffect(ttls: Ttls, x: Clocked, b: ClockedAction, before: Keyspace, after: Keyspace)
    requires ClockedEnabled(x, b)
  {
    if b.Tick? then after == before
    else if b.a.TryLock? then
      var key := KeyOf(x.base.data.requests[b.a.r]);
      if Applied(b.a.o) && !LockedAt(before, x.now, key) then Locks(before, after, key, x.now + ttls.lock)
      else after == before
    else if b.a.StoreReply? && Applied(b.a.o) then
      Caches(before, after, KeyOf(x.base.data.requests[b.a.r]), Encode(x.base.pcs[b.a.r].id), x.now + ttls.cache)
    else if b.a.Unlock? && Applied(b.a.o) then
      Frees(before, after, KeyOf(x.base.data.requests[b.a.r]))
    else after == before
  }

  lemma TickMirrored(entries: Keyspace, x: Clocked, seconds: nat)
    requires Mirrors(entries, x)
    ensures Mirrors(entries, TickStep(x, seconds))
  {
  }

  ghost predicate SameMaps(x: Clocked, y: Clocked) {
    && y.now == x.now && y.base.locks == x.base.locks && y.base.data.cache == x.base.data.cache
    && y.lockEnds == x.lockEnds && y.cacheEnds == x.cacheEnds
  }

  lemma LockingMirrored(x: Clocked, y: Clocked, before: Keyspace, after: Keyspace, key: Key, r: ReqId, ends: nat)
    requires Mirrors(before, x) && Locks(before, after, key, ends) && x.now < ends
    requires SameMaps(x.(base := x.base.(locks := x.base.locks[key := r]), lockEnds := x.lockEnds[key := ends]), y)
    ensures Mirrors(after, y)
  {
  }

  lemma CachingMirrored(
      x: Clocked, y: Clocked, before: Keyspace, after: Keyspace, key: Key, response: Response, ends: nat)
    requires Mirrors(before, x) && Caches(before, after, key, response, ends) && x.now < ends
    requires y.now == x.now && y.base.locks == x.base.locks && y.lockEnds == x.lockEnds
    requires y.base.data.cache == x.base.data.cache[key := response] && y.cacheEnds == x.cacheEnds[key := ends]
    ensures Mirrors(after, y)
  {
  }

  lemma LockMirrored(ttls: Ttls, x: Clocked, r: ReqId, o: Outcome, before: Keyspace, after: Keyspace)
    requires Mirrors(before, x) && ttls.lock > 0
    requires Enabled(x.base, TryLock(r, o)) && StoreEffect(ttls, x, Step(TryLock(r, o)), before, after)
    ensures LockedAt(before, x.now, KeyOf(x.base.data.requests[r])) <==> KeyOf(x.base.data.requests[r]) in x.base.locks
    ensures Mirrors(after, ClockedTryLock(ttls, x, r, o))
  {
    var key, y := KeyOf(x.base.data.requests[r]), ClockedTryLock(ttls, x, r, o);
    if Applied(o) && !LockedAt(before, x.now, key) {
      LockingMirrored(x, y, before, after, key, r, x.now + ttls.lock);
    } else {
      SameMapsMirrored(x, y, after);
    }
  }

  lemma StoreShape(ttls: Ttls, x: Clocked, r: ReqId, o: Outcome)
    requires AtPc(x.base, r) && x.base.pcs[r].Caching?
    ensures var y, key := ClockedStore(ttls, x, r, o), KeyOf(x.base.data.requests[r]);
      if Applied(o) then
        && y.now == x.now && y.base.locks == x.base.locks && y.lockEnds == x.lockEnds
        && y.base.data.cache == x.base.data.cache[key := Encode(x.base.pcs[r].id)]
        && y.cacheEnds == x.cacheEnds[key := x.now + ttls.cache]
      else SameMaps(x, y)
  {
  }

  lemma SameMapsMirrored(x: Clocked, y: Clocked, entries: Keyspace)
    requires Mirrors(entries, x) && SameMaps(x, y)
    ensures Mirrors(entries, y)
  {
  }

  lemma StoreMirrored(ttls: Ttls, x: Clocked, r: ReqId, o: Outcome, before: Keyspace, after: Keyspace)
    requires Mirrors(before, x) && ttls.cache > 0
    requires Enabled(x.base, StoreReply(r, o)) && StoreEffect(ttls, x, Step(StoreReply(r, o)), before, after)
    ensures Mirrors(after, ClockedStore(ttls, x, r, o))
  {
    var key, y := KeyOf(x.base.data.requests[r]), ClockedStore(ttls, x, r, o);
    StoreShape(ttls, x, r, o);
    if Applied(o) {
      CachingMirrored(x, y, before, after, key, Encode(x.base.pcs[r].id), x.now + ttls.cache);
    } else {
      SameMapsMirrored(x, y, after);
    }
  }

  lemma UnlockMirrored(ttls: Ttls, x: Clocked, r: ReqId, o: Outcome, before: Keyspace, after: Keyspace)
    requires Mirrors(before, x)
    requires Enabled(x.base, Unlock(r, o)) && StoreEffect(ttls, x, Step(Unlock(r, o)), before, after)
    ensures Mirrors(after, x.(base := UnlockStep(x.base, r, o)))
  {
  }

  /** No other await writes to Redis. */
  lemma OthersLeaveRedisAlone(c: Config, s: State, a: Action)
    requires Enabled(s, a)
    requires !a.TryLock? && !a.StoreReply? && !a.Unlock? && !a.Forget? && !a.DropLock?
    ensures Next(c, s, a).locks == s.locks && Next(c, s, a).data.cache == s.data.cache
  {
  }

  /** The store over one keyspace simulates the clocked maps, at every step. */
  lemma StepMirrored(c: Config, ttls: Ttls, x: Clocked, b: ClockedAction, before: Keyspace, after: Keyspace)
    requires Mirrors(before, x) && ttls.lock > 0 && ttls.cache > 0
    requires ClockedEnabled(x, b) && StoreEffect(ttls, x, b, before, after)
    ensures Mirrors(after, ClockedNext(c, ttls, x, b))
  {
    if b.Tick? {
      TickMirrored(before, x, b.seconds);
    } else if b.a.TryLock? {
      LockMirrored(ttls, x, b.a.r, b.a.o, before, after);
    } else if b.a.StoreReply? {
      StoreMirrored(ttls, x, b.a.r, b.a.o, before, after);
    } else if b.a.Unlock? {
      UnlockMirrored(ttls, x, b.a.r, b.a.o, before, after);
    } else {
      OthersLeaveRedisAlone(c, x.base, b.a);
    }
  }

  // ---------- the store's calls ----------

  /** Store and protocol have the same clock, TTLs and contents. */
  ghost predicate InStep(store: IdempotencyStore, ttls: Ttls, x: Clocked)
    reads store.redis
  {
    && store.Valid() && store.redis.now == x.now
    && store.defaultTtl == ttls.cache && store.defaultLockTtl == ttls.lock
    && Mirrors(store.redis.entries, x)
  }

  /** Both looks into the cache: the store's answer is the protocol's, and looking changes
      nothing. */
  method StoreGet(c: Config, store: IdempotencyStore, key: Key, ghost ttls: Ttls, ghost x: Clocked, ghost r: ReqId)
    returns (cached: Option<Response>)
    requires InStep(store, ttls, x) && Enabled(x.base, CacheGet(r, true)) && key == KeyOf(x.base.data.requests[r])
    ensures cached == if key in x.base.data.cache then Some(x.base.data.cache[key]) else None
    ensures InStep(store, ttls, ClockedNext(c, ttls, x, Step(CacheGet(r, true))))
  {
    cached := store.Get(key);
    assert SameMaps(x, ClockedNext(c, ttls, x, Step(CacheGet(r, true))));
    SameMapsMirrored(x, ClockedNext(c, ttls, x, Step(CacheGet(r, true))), store.redis.entries);
  }

  method StoreLock(
      c: Config, store: IdempotencyStore, key: Key, o: Outcome, ghost ttls: Ttls, ghost x: Clocked, ghost r: ReqId)
    returns (acquired: Result<bool, ()>)
    requires InStep(store, ttls, x) && ttls.lock > 0
    requires Enabled(x.base, TryLock(r, o)) && key == KeyOf(x.base.data.requests[r])
    modifies store.redis
    ensures acquired == if o.Failed? then Failure(()) else Success(key !in x.base.locks)
    ensures InStep(store, ttls, ClockedNext(c, ttls, x, Step(TryLock(r, o))))
  {
    acquired := store.Lock(key, None, o);
    LockMirrored(ttls, x, r, o, old(store.redis.entries), store.redis.entries);
  }

  method StoreSet(
      c: Config, store: IdempotencyStore, key: Key, response: Response, o: Outcome,
      ghost ttls: Ttls, ghost x: Clocked, ghost r: ReqId)
    returns (raised: bool)
    requires InStep(store, ttls, x) && ttls.cache > 0
    requires Enabled(x.base, StoreReply(r, o)) && key == KeyOf(x.base.data.requests[r])
    requires response == Encode(x.base.pcs[r].id)
    modifies store.redis
    ensures raised == o.Failed?
    ensures InStep(store, ttls, ClockedNext(c, ttls, x, Step(StoreReply(r, o))))
  {
    raised := store.Set(key, response, None, o);
    StoreMirrored(ttls, x, r, o, old(store.redis.entries), store.redis.entries);
  }

  method StoreUnlock(
      c: Config, store: IdempotencyStore, key: Key, o: Outcome, ghost ttls: Ttls, ghost x: Clocked, ghost r: ReqId)
    returns (raised: bool)
    requires InStep(store, ttls, x) && Enabled(x.base, Unlock(r, o)) && key == KeyOf(x.base.data.requests[r])
    modifies store.redis
    ensures raised == o.Failed?
    ensures InStep(store, ttls, ClockedNext(c, ttls, x, Step(Unlock(r, o))))
  {
    raised := store.Unlock(key, o);
    UnlockMirrored(ttls, x, r, o, old(store.redis.entries), store.redis.entries);
  }

  /** Time passes for both. */
  method StoreElapse(c: Config, store: IdempotencyStore, seconds: nat, ghost ttls: Ttls, ghost x: Clocked)
    requires InStep(store, ttls, x)
    modifies store.redis
    ensures InStep(store, ttls, ClockedNext(c, ttls, x, Tick(seconds)))
  {
    store.redis.Elapse(seconds);
    TickMirrored(store.redis.entries, x, seconds);
  }

  /** Every other step leaves the store in step as it is. */
  lemma OthersStayInStep(c: Config, store: IdempotencyStore, ttls: Ttls, x: Clocked, a: Action)
    requires InStep(store, ttls, x) && ClockedEnabled(x, Step(a))
    requires !a.TryLock? && !a.StoreReply? && !a.Unlock?
    ensures InStep(store, ttls, ClockedNext(c, ttls, x, Step(a)))
  {
    OthersLeaveRedisAlone(c, x.base, a);
    SameMapsMirrored(x, ClockedNext(c, ttls, x, Step(a)), store.redis.entries);
  }
}
