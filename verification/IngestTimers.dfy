/**
 What the timers of the clocked protocol do and do not give, in all clocked runs: how long a
 lock protects its holder, and when exactly a request meets a duplicate.
 */
module IngestTimers {
  import opened Prelude
  import opened Schemas
  import opened Events
  import opened Ingest
  import opened IngestInvariant
  import opened IngestTheorems
  import opened IngestClocked

  // ---------- what every clocked step keeps ----------

  /** A cached reply lives until its TTL ends, counted from when it was stored. */
  ghost predicate CacheIsLive(ttls: Ttls, x: Clocked, key: Key)
    requires key in x.base.data.cache
  {
    var id := x.base.data.cache[key].body.eventId;
    && key in x.cacheEnds && id in x.storedAt
    && x.cacheEnds[key] == x.storedAt[id] + ttls.cache && x.now < x.cacheEnds[key]
  }

  ghost predicate Timed(ttls: Ttls, x: Clocked) {
    && (forall key {:trigger LockIsLive(ttls, x, key)} :: key in x.base.locks ==> LockIsLive(ttls, x, key))
    && (forall key {:trigger CacheIsLive(ttls, x, key)} :: key in x.base.data.cache ==> CacheIsLive(ttls, x, key))
  }

  ghost predicate TimersInv(ttls: Ttls, x: Clocked) {
    Inv(x.base) && Timed(ttls, x) && KeysPresent(x.base)
  }

  /** No lock and no cache entry is added. */
  lemma CalmKeepsTimed(ttls: Ttls, x: Clocked, y: Clocked)
    requires Timed(ttls, x) && y.now == x.now
    requires y.lockEnds == x.lockEnds && y.cacheEnds == x.cacheEnds && y.storedAt == x.storedAt
    requires y.base.locks.Keys <= x.base.locks.Keys && y.base.data.cache == x.base.data.cache
    ensures Timed(ttls, y)
  {
    forall k | k in y.base.locks ensures LockIsLive(ttls, y, k) {
      assert LockIsLive(ttls, x, k);
    }
    forall k | k in y.base.data.cache ensures CacheIsLive(ttls, y, k) {
      assert CacheIsLive(ttls, x, k);
    }
  }

  lemma TickKeepsTimed(ttls: Ttls, x: Clocked, seconds: nat)
    requires Timed(ttls, x)
    ensures Timed(ttls, TickStep(x, seconds))
  {
    var y := TickStep(x, seconds);
    forall k | k in y.base.locks ensures LockIsLive(ttls, y, k) {
      assert LockIsLive(ttls, x, k);
    }
    forall k | k in y.base.data.cache ensures CacheIsLive(ttls, y, k) {
      assert CacheIsLive(ttls, x, k);
    }
  }

  lemma TryLockKeepsTimed(ttls: Ttls, x: Clocked, r: ReqId, o: Outcome)
    requires Timed(ttls, x) && ttls.lock > 0 && Enabled(x.base, TryLock(r, o))
    ensures Timed(ttls, ClockedTryLock(ttls, x, r, o))
  {
    var y := ClockedTryLock(ttls, x, r, o);
    forall k | k in y.base.locks ensures LockIsLive(ttls, y, k) {
      if k in x.base.locks { assert LockIsLive(ttls, x, k); }
    }
    forall k | k in y.base.data.cache ensures CacheIsLive(ttls, y, k) {
      assert CacheIsLive(ttls, x, k);
    }
  }

  lemma StoreKeepsTimed(ttls: Ttls, x: Clocked, y: Clocked, key: Key, id: EventId)
    requires Inv(x.base) && Timed(ttls, x) && ttls.cache > 0 && Settled(x.base.data, key, id)
    requires y.now == x.now && y.base.locks == x.base.locks && y.lockEnds == x.lockEnds
    requires y.base.data.cache == x.base.data.cache[key := Encode(id)]
    requires y.cacheEnds == x.cacheEnds[key := x.now + ttls.cache] && y.storedAt == x.storedAt[id := x.now]
    ensures Timed(ttls, y)
  {
    forall k | k in y.base.locks ensures LockIsLive(ttls, y, k) {
      assert LockIsLive(ttls, x, k);
    }
    forall k | k in y.base.data.cache ensures CacheIsLive(ttls, y, k) {
      if k != key {
        assert CacheIsLive(ttls, x, k) && Acknowledges(x.base.data, k, x.base.data.cache[k]);
      }
    }
  }

  lemma StoreReplyKeepsTimed(ttls: Ttls, x: Clocked, r: ReqId, o: Outcome)
    requires Inv(x.base) && Timed(ttls, x) && ttls.cache > 0 && Enabled(x.base, StoreReply(r, o))
    ensures Timed(ttls, ClockedStore(ttls, x, r, o))
  {
    if Applied(o) {
      CachingMeansSettled(x.base, r);
      StoreKeepsTimed(ttls, x, ClockedStore(ttls, x, r, o), KeyOf(x.base.data.requests[r]), x.base.pcs[r].id);
    } else {
      CalmKeepsTimed(ttls, x, ClockedStore(ttls, x, r, o));
    }
  }

  lemma OthersSetNoTimer(c: Config, s: State, a: Action)
    requires Enabled(s, a) && !a.TryLock? && !a.StoreReply? && !a.Forget?
    ensures Next(c, s, a).locks.Keys <= s.locks.Keys && Next(c, s, a).data.cache == s.data.cache
  {
  }

  lemma ClockedStepKeepsTimers(c: Config, ttls: Ttls, x: Clocked, b: ClockedAction)
    requires TimersInv(ttls, x) && ttls.lock > 0 && ttls.cache > 0 && ClockedEnabled(x, b)
    ensures TimersInv(ttls, ClockedNext(c, ttls, x, b))
  {
    ClockedStepKeepsBase(c, ttls, x, b);
    if b.Tick? {
      TickKeepsTimed(ttls, x, b.seconds);
    } else {
      StepKeepsKeysPresent(c, x.base, b.a);
      if b.a.TryLock? {
        TryLockKeepsTimed(ttls, x, b.a.r, b.a.o);
      } else if b.a.StoreReply? {
        StoreReplyKeepsTimed(ttls, x, b.a.r, b.a.o);
      } else {
        OthersSetNoTimer(c, x.base, b.a);
        CalmKeepsTimed(ttls, x, ClockedNext(c, ttls, x, b));
      }
    }
  }

  lemma {:induction false} ClockedRunKeepsTimers(c: Config, ttls: Ttls, x: Clocked, actions: seq<ClockedAction>)
    requires TimersInv(ttls, x) && ttls.lock > 0 && ttls.cache > 0 && ClockedLegal(c, ttls, x, actions)
    ensures TimersInv(ttls, ClockedRun(c, ttls, x, actions))
    decreases |actions|
  {
    if actions != [] {
      ClockedStepKeepsTimers(c, ttls, x, actions[0]);
      ClockedRunKeepsTimers(c, ttls, ClockedNext(c, ttls, x, actions[0]), actions[1..]);
    }
  }

  lemma {:induction false} TimeGoesOn(c: Config, ttls: Ttls, x: Clocked, actions: seq<ClockedAction>)
    requires ClockedLegal(c, ttls, x, actions)
    ensures x.now <= ClockedRun(c, ttls, x, actions).now
    decreases |actions|
  {
    if actions != [] {
      TimeGoesOn(c, ttls, ClockedNext(c, ttls, x, actions[0]), actions[1..]);
    }
  }

  lemma ClockedReachableHasTimers(c: Config, ttls: Ttls, x: Clocked)
    requires ClockedReachable(c, ttls, x) && ttls.lock > 0 && ttls.cache > 0
    ensures TimersInv(ttls, x)
  {
    var actions :| ClockedLegal(c, ttls, START, actions) && ClockedRun(c, ttls, START, actions) == x;
    ClockedRunKeepsTimers(c, ttls, START, actions);
  }

  /** One TTL later every lock is gone or is a newer one, whatever became of its owner and
      whoever is late: so a key is lockable again within the TTL after any crash. */
  lemma LocksDoNotOutliveTheirTtl(c: Config, ttls: Ttls, x: Clocked, actions: seq<ClockedAction>, key: Key)
    requires ClockedReachable(c, ttls, x) && ttls.lock > 0 && ttls.cache > 0
    requires ClockedLegal(c, ttls, x, actions) && key in x.base.locks
    requires ClockedRun(c, ttls, x, actions).now >= x.now + ttls.lock
    ensures var y := ClockedRun(c, ttls, x, actions);
      key in x.lockEnds && (key in y.base.locks ==> key in y.lockEnds && y.lockEnds[key] > x.lockEnds[key])
  {
    ClockedReachableHasTimers(c, ttls, x);
    ClockedRunKeepsTimers(c, ttls, x, actions);
    assert LockIsLive(ttls, x, key);
    assert key in ClockedRun(c, ttls, x, actions).base.locks ==>
      LockIsLive(ttls, ClockedRun(c, ttls, x, actions), key);
  }

  // ---------- how long a lock protects ----------

  /** Another request is inside for the same key. */
  ghost predicate Joined(x: Clocked, r: ReqId)
    requires r in x.base.data.requests
  {
    exists q :: q != r && AtPc(x.base, q) && Inside(x.base.pcs[q])
      && KeyOf(x.base.data.requests[q]) == KeyOf(x.base.data.requests[r])
  }

  /** The request has the key to itself until `ends`. */
  ghost predicate Protected(x: Clocked, r: ReqId, key: Key, ends: nat) {
    && AtPc(x.base, r) && Inside(x.base.pcs[r]) && KeyOf(x.base.data.requests[r]) == key
    && key in x.base.locks && key in x.lockEnds && x.lockEnds[key] == ends && x.now < ends
    && !Joined(x, r)
  }

  predicate Moves(b: ClockedAction, r: ReqId) {
    b.Step? && Mover(b.a) == Some(r)
  }

  lemma OthersCannotJoin(c: Config, s: State, a: Action, r: ReqId, q: ReqId)
    requires Inv(s) && Enabled(s, a) && AtPc(s, r) && KeyOf(s.data.requests[r]) in s.locks && q != r
    requires AtPc(s, q) ==> !(Inside(s.pcs[q]) && KeyOf(s.data.requests[q]) == KeyOf(s.data.requests[r]))
    requires Mover(a) != Some(r)
    ensures var t := Next(c, s, a);
      AtPc(t, q) && r in t.data.requests ==>
        !(Inside(t.pcs[q]) && KeyOf(t.data.requests[q]) == KeyOf(t.data.requests[r]))
  {
  }

  lemma OthersLeaveTheHolderAlone(c: Config, s: State, a: Action, r: ReqId)
    requires Enabled(s, a) && Mover(a) != Some(r) && AtPc(s, r) && !a.DropLock?
    requires KeyOf(s.data.requests[r]) in s.locks
    requires a.Unlock? ==> KeyOf(s.data.requests[a.r]) != KeyOf(s.data.requests[r])
    ensures var t := Next(c, s, a);
      && AtPc(t, r) && t.pcs[r] == s.pcs[r] && t.data.requests[r] == s.data.requests[r]
      && KeyOf(s.data.requests[r]) in t.locks
  {
  }

  lemma ProtectionOutlastsSteps(c: Config, x: Clocked, a: Action, y: Clocked, r: ReqId, key: Key, ends: nat)
    requires Inv(x.base) && Protected(x, r, key, ends) && Enabled(x.base, a) && !a.DropLock? && Mover(a) != Some(r)
    requires y.base == Next(c, x.base, a) && y.now == x.now && key in y.lockEnds && y.lockEnds[key] == ends
    ensures Protected(y, r, key, ends)
  {
    assert a.Unlock? ==> AtPc(x.base, a.r) && Inside(x.base.pcs[a.r]);
    OthersLeaveTheHolderAlone(c, x.base, a, r);
    forall q | q != r && AtPc(y.base, q)
      ensures !(Inside(y.base.pcs[q]) && KeyOf(y.base.data.requests[q]) == KeyOf(y.base.data.requests[r]))
    {
      OthersCannotJoin(c, x.base, a, r, q);
    }
  }

  lemma ProtectionOutlastsTicks(x: Clocked, seconds: nat, r: ReqId, key: Key, ends: nat)
    requires Protected(x, r, key, ends) && x.now + seconds < ends
    ensures Protected(TickStep(x, seconds), r, key, ends)
  {
    var y := TickStep(x, seconds);
    assert forall q :: q != r && AtPc(y.base, q) ==> AtPc(x.base, q);
  }

  lemma HeldLocksAreNotRenewed(c: Config, ttls: Ttls, x: Clocked, a: Action, key: Key)
    requires ClockedEnabled(x, Step(a)) && key in x.base.locks && key in x.lockEnds
    ensures var y := ClockedNext(c, ttls, x, Step(a));
      && y.base == Next(c, x.base, a) && y.now == x.now
      && key in y.lockEnds && y.lockEnds[key] == x.lockEnds[key]
  {
  }

  lemma ProtectionLasts(c: Config, ttls: Ttls, x: Clocked, b: ClockedAction, r: ReqId, key: Key, ends: nat)
    requires Inv(x.base) && Protected(x, r, key, ends) && ClockedEnabled(x, b) && !Moves(b, r)
    requires ClockedNext(c, ttls, x, b).now < ends
    ensures Protected(ClockedNext(c, ttls, x, b), r, key, ends)
  {
    if b.Tick? {
      ProtectionOutlastsTicks(x, b.seconds, r, key, ends);
    } else {
      HeldLocksAreNotRenewed(c, ttls, x, b.a, key);
      ProtectionOutlastsSteps(c, x, b.a, ClockedNext(c, ttls, x, b), r, key, ends);
    }
  }

  /** While `r` makes no step. */
  ghost predicate HoldsStill(actions: seq<ClockedAction>, r: ReqId) {
    forall i :: 0 <= i < |actions| ==> !Moves(actions[i], r)
  }

  lemma {:induction false} ProtectedRun(
      c: Config, ttls: Ttls, x: Clocked, actions: seq<ClockedAction>, r: ReqId, key: Key, ends: nat)
    requires TimersInv(ttls, x) && ttls.lock > 0 && ttls.cache > 0
    requires Protected(x, r, key, ends) && ClockedLegal(c, ttls, x, actions) && HoldsStill(actions, r)
    requires ClockedRun(c, ttls, x, actions).now < ends
    ensures Protected(ClockedRun(c, ttls, x, actions), r, key, ends)
    decreases |actions|
  {
    if actions != [] {
      var y := ClockedNext(c, ttls, x, actions[0]);
      ClockedStepKeepsTimers(c, ttls, x, actions[0]);
      TimeGoesOn(c, ttls, y, actions[1..]);
      ProtectionLasts(c, ttls, x, actions[0], r, key, ends);
      ProtectedRun(c, ttls, y, actions[1..], r, key, ends);
    }
  }

  lemma StepThenRun(c: Config, ttls: Ttls, x: Clocked, b: ClockedAction, rest: seq<ClockedAction>)
    requires ClockedEnabled(x, b) && ClockedLegal(c, ttls, ClockedNext(c, ttls, x, b), rest)
    ensures ClockedLegal(c, ttls, x, [b] + rest)
    ensures ClockedRun(c, ttls, x, [b] + rest) == ClockedRun(c, ttls, ClockedNext(c, ttls, x, b), rest)
  {
    assert ([b] + rest)[1..] == rest;
  }

  lemma StepThenNoRun(c: Config, ttls: Ttls, x: Clocked, b: ClockedAction, rest: seq<ClockedAction>)
    requires ClockedEnabled(x, b) && !ClockedLegal(c, ttls, ClockedNext(c, ttls, x, b), rest)
    ensures !ClockedLegal(c, ttls, x, [b] + rest)
  {
    assert ([b] + rest)[1..] == rest;
  }

  /** A request for a key that is neither locked nor cached gets inside in three steps. */
  lemma TheWayIn(c: Config, ttls: Ttls, x: Clocked, q: ReqId, req: Request) returns (actions: seq<ClockedAction>)
    requires Inv(x.base) && q !in x.base.pcs
    requires KeyOf(req) != "" && KeyOf(req) !in x.base.locks && KeyOf(req) !in x.base.data.cache
    ensures actions == [Step(Arrive(q, req)), Step(CacheGet(q, true)), Step(TryLock(q, Done))]
    ensures ClockedLegal(c, ttls, x, actions)
    ensures var z := ClockedRun(c, ttls, x, actions);
      && z.now == x.now && AtPc(z.base, q) && z.base.data.requests == x.base.data.requests[q := req]
      && z.base.pcs == x.base.pcs[q := Rechecking]
      && z.base.data.cache == x.base.data.cache && z.base.data.table == x.base.data.table
  {
    var x1 := ClockedNext(c, ttls, x, Step(Arrive(q, req)));
    var x2 := ClockedNext(c, ttls, x1, Step(CacheGet(q, true)));
    StepThenRun(c, ttls, x2, Step(TryLock(q, Done)), []);
    StepThenRun(c, ttls, x1, Step(CacheGet(q, true)), [Step(TryLock(q, Done))]);
    StepThenRun(c, ttls, x, Step(Arrive(q, req)), [Step(CacheGet(q, true)), Step(TryLock(q, Done))]);
    actions := [Step(Arrive(q, req))] + ([Step(CacheGet(q, true))] + [Step(TryLock(q, Done))]);
  }

  lemma {:induction false} BoundIds(used: set<ReqId>) returns (bound: ReqId)
    ensures forall r :: r in used ==> r < bound
    decreases |used|
  {
    if used == {} {
      bound := 0;
    } else {
      var one :| one in used;
      var rest := BoundIds(used - {one});
      bound := rest + one + 1;
      assert forall r :: r in used ==> r == one || r in used - {one};
    }
  }

  /** Another run of the same request finds its way to the holder's side once the lock and any
      cached reply are gone, at the time they are. */
  lemma TheLateAreJoined(c: Config, ttls: Ttls, x: Clocked, r: ReqId, q: ReqId) returns (actions: seq<ClockedAction>)
    requires TimersInv(ttls, x) && AtPc(x.base, r) && Inside(x.base.pcs[r]) && q !in x.base.pcs
    requires KeyOf(x.base.data.requests[r]) !in x.base.locks && KeyOf(x.base.data.requests[r]) !in x.base.data.cache
    ensures ClockedLegal(c, ttls, x, actions) && HoldsStill(actions, r)
    ensures var z := ClockedRun(c, ttls, x, actions);
      z.now == x.now && AtPc(z.base, r) && z.base.pcs[r] == x.base.pcs[r] && Joined(z, r)
  {
    actions := TheWayIn(c, ttls, x, q, x.base.data.requests[r]);
    var z := ClockedRun(c, ttls, x, actions);
    assert q != r && AtPc(z.base, q) && Inside(z.base.pcs[q])
      && KeyOf(z.base.data.requests[q]) == KeyOf(z.base.data.requests[r]);
  }

  lemma TickDropsLock(ttls: Ttls, x: Clocked, seconds: nat, key: Key)
    requires Timed(ttls, x)
    requires key in x.lockEnds ==> x.lockEnds[key] <= x.now + seconds
    ensures key !in TickStep(x, seconds).base.locks
  {
    assert key in x.base.locks ==> LockIsLive(ttls, x, key) && key in ExpiredLocks(x, x.now + seconds);
  }

  // ---------- how long a cached reply keeps others out ----------

  /** Another request is about to try the lock of the key. */
  ghost predicate SomeoneLocking(s: State, key: Key) {
    exists q :: AtPc(s, q) && s.pcs[q].Locking? && KeyOf(s.data.requests[q]) == key
  }

  predicate NearLock(s: State, q: ReqId, key: Key) {
    AtPc(s, q) && (Inside(s.pcs[q]) || s.pcs[q].Locking?) && KeyOf(s.data.requests[q]) == key
  }

  /** The key's reply is cached until `ends`, and no other request has got past the cache. */
  ghost predicate Shielded(x: Clocked, r: ReqId, key: Key, ends: nat) {
    && AtPc(x.base, r) && Inside(x.base.pcs[r]) && KeyOf(x.base.data.requests[r]) == key
    && key in x.base.data.cache && key in x.cacheEnds && x.cacheEnds[key] == ends && x.now < ends
    && forall q {:trigger NearLock(x.base, q, key)} :: NearLock(x.base, q, key) ==> q == r
  }

  lemma HitsStayOut(c: Config, s: State, a: Action, q: ReqId, key: Key)
    requires Enabled(s, a) && s.pcs.Keys == s.data.requests.Keys && key in s.data.cache && !NearLock(s, q, key)
    ensures !NearLock(Next(c, s, a), q, key)
  {
  }

  lemma CachedStaysCached(c: Config, s: State, a: Action, r: ReqId, key: Key)
    requires Enabled(s, a) && !a.Forget? && Mover(a) != Some(r) && AtPc(s, r) && key in s.data.cache
    ensures var t := Next(c, s, a);
      && AtPc(t, r) && t.pcs[r] == s.pcs[r] && t.data.requests[r] == s.data.requests[r] && key in t.data.cache
  {
  }

  lemma CacheEndsStay(c: Config, ttls: Ttls, x: Clocked, a: Action, key: Key)
    requires ClockedEnabled(x, Step(a)) && key in x.cacheEnds
    requires a.StoreReply? ==> KeyOf(x.base.data.requests[a.r]) != key
    ensures var y := ClockedNext(c, ttls, x, Step(a));
      && y.base == Next(c, x.base, a) && y.now == x.now
      && key in y.cacheEnds && y.cacheEnds[key] == x.cacheEnds[key]
  {
  }

  lemma ShieldLasts(c: Config, ttls: Ttls, x: Clocked, b: ClockedAction, r: ReqId, key: Key, ends: nat)
    requires Inv(x.base) && Shielded(x, r, key, ends) && ClockedEnabled(x, b) && !Moves(b, r)
    requires ClockedNext(c, ttls, x, b).now < ends
    ensures Shielded(ClockedNext(c, ttls, x, b), r, key, ends)
  {
    var y := ClockedNext(c, ttls, x, b);
    if b.Tick? {
      assert forall q :: NearLock(y.base, q, key) ==> NearLock(x.base, q, key);
    } else {
      assert b.a.StoreReply? && KeyOf(x.base.data.requests[b.a.r]) == key ==> NearLock(x.base, b.a.r, key);
      CacheEndsStay(c, ttls, x, b.a, key);
      CachedStaysCached(c, x.base, b.a, r, key);
      forall q | q != r ensures !NearLock(y.base, q, key) {
        HitsStayOut(c, x.base, b.a, q, key);
      }
    }
  }

  lemma {:induction false} ShieldedRun(
      c: Config, ttls: Ttls, x: Clocked, actions: seq<ClockedAction>, r: ReqId, key: Key, ends: nat)
    requires TimersInv(ttls, x) && ttls.lock > 0 && ttls.cache > 0
    requires Shielded(x, r, key, ends) && ClockedLegal(c, ttls, x, actions) && HoldsStill(actions, r)
    requires ClockedRun(c, ttls, x, actions).now < ends
    ensures Shielded(ClockedRun(c, ttls, x, actions), r, key, ends)
    decreases |actions|
  {
    if actions != [] {
      var y := ClockedNext(c, ttls, x, actions[0]);
      ClockedStepKeepsTimers(c, ttls, x, actions[0]);
      TimeGoesOn(c, ttls, y, actions[1..]);
      ShieldLasts(c, ttls, x, actions[0], r, key, ends);
      ShieldedRun(c, ttls, y, actions[1..], r, key, ends);
    }
  }

  lemma ShieldedIsNotJoined(x: Clocked, r: ReqId, key: Key, ends: nat)
    requires Shielded(x, r, key, ends)
    ensures !Joined(x, r)
  {
    forall q | q != r && AtPc(x.base, q) && Inside(x.base.pcs[q]) ensures KeyOf(x.base.data.requests[q]) != key {
      assert !NearLock(x.base, q, key);
    }
  }

  // ---------- the exact time ----------

  /** A run with the holder standing still that ends by `horizon` and lets another request
      inside for the same key. */
  ghost predicate CanBeJoinedBy(c: Config, ttls: Ttls, x: Clocked, r: ReqId, horizon: nat) {
    exists actions :: ClockedLegal(c, ttls, x, actions) && HoldsStill(actions, r)
      && JoinedInTime(ClockedRun(c, ttls, x, actions), r, horizon)
  }

  ghost predicate JoinedInTime(z: Clocked, r: ReqId, horizon: nat) {
    z.now <= horizon && AtPc(z.base, r) && Inside(z.base.pcs[r]) && Joined(z, r)
  }

  lemma JoinedLater(c: Config, ttls: Ttls, x: Clocked, r: ReqId, sooner: nat, later: nat)
    requires CanBeJoinedBy(c, ttls, x, r, sooner) && sooner <= later
    ensures CanBeJoinedBy(c, ttls, x, r, later)
  {
    var actions :| ClockedLegal(c, ttls, x, actions) && HoldsStill(actions, r)
      && JoinedInTime(ClockedRun(c, ttls, x, actions), r, sooner);
    assert JoinedInTime(ClockedRun(c, ttls, x, actions), r, later);
  }

  lemma JoinedAfterATick(c: Config, ttls: Ttls, x: Clocked, seconds: nat, r: ReqId, horizon: nat)
    requires CanBeJoinedBy(c, ttls, TickStep(x, seconds), r, horizon)
    ensures CanBeJoinedBy(c, ttls, x, r, horizon)
  {
    var y := TickStep(x, seconds);
    var rest :| ClockedLegal(c, ttls, y, rest) && HoldsStill(rest, r)
      && JoinedInTime(ClockedRun(c, ttls, y, rest), r, horizon);
    StepThenRun(c, ttls, x, Tick(seconds), rest);
    assert HoldsStill([Tick(seconds)] + rest, r);
    assert JoinedInTime(ClockedRun(c, ttls, x, [Tick(seconds)] + rest), r, horizon);
  }

  lemma TickDropsReply(ttls: Ttls, x: Clocked, seconds: nat, key: Key)
    requires Timed(ttls, x)
    requires key in x.base.data.cache ==> key in x.cacheEnds && x.cacheEnds[key] <= x.now + seconds
    ensures key !in TickStep(x, seconds).base.data.cache
  {
    assert key in x.base.data.cache ==> key in ExpiredReplies(x, x.now + seconds);
  }

  /** Once the lock and any cached reply have run out, a newcomer gets inside. */
  lemma NewcomersJoin(c: Config, ttls: Ttls, x: Clocked, r: ReqId, ends: nat)
    requires TimersInv(ttls, x) && ttls.lock > 0 && ttls.cache > 0
    requires AtPc(x.base, r) && Inside(x.base.pcs[r]) && x.now <= ends
    requires var key := KeyOf(x.base.data.requests[r]);
      && (key in x.base.data.cache ==> key in x.cacheEnds && x.cacheEnds[key] <= ends)
      && (key in x.lockEnds ==> x.lockEnds[key] <= ends)
    ensures CanBeJoinedBy(c, ttls, x, r, ends)
  {
    var wait := Tick(ends - x.now);
    var y := ClockedNext(c, ttls, x, wait);
    TickDropsLock(ttls, x, ends - x.now, KeyOf(x.base.data.requests[r]));
    TickDropsReply(ttls, x, ends - x.now, KeyOf(x.base.data.requests[r]));
    ClockedStepKeepsTimers(c, ttls, x, wait);
    var q := BoundIds(y.base.pcs.Keys);
    var rest := TheLateAreJoined(c, ttls, y, r, q);
    assert JoinedInTime(ClockedRun(c, ttls, y, rest), r, ends);
    JoinedAfterATick(c, ttls, x, wait.seconds, r, ends);
  }

  lemma TheNextInLineJoins(c: Config, ttls: Ttls, x: Clocked, r: ReqId, q: ReqId)
    requires AtPc(x.base, r) && Inside(x.base.pcs[r]) && AtPc(x.base, q) && x.base.pcs[q].Locking?
    requires KeyOf(x.base.data.requests[q]) == KeyOf(x.base.data.requests[r])
    requires KeyOf(x.base.data.requests[r]) !in x.base.locks
    ensures CanBeJoinedBy(c, ttls, x, r, x.now)
  {
    var take := Step(TryLock(q, Done));
    var z := ClockedNext(c, ttls, x, take);
    StepThenRun(c, ttls, x, take, []);
    assert [take] + [] == [take];
    assert q != r && AtPc(z.base, q) && Inside(z.base.pcs[q])
      && KeyOf(z.base.data.requests[q]) == KeyOf(z.base.data.requests[r]);
    assert HoldsStill([take], r) && JoinedInTime(ClockedRun(c, ttls, x, [take]), r, x.now);
  }

  lemma TickLeavesTheRest(x: Clocked, seconds: nat)
    ensures var y := TickStep(x, seconds);
      y.now == x.now + seconds && y.base.pcs == x.base.pcs && y.base.data.requests == x.base.data.requests
  {
  }

  /** Once the lock has run out, a request that waits to take it gets inside. */
  lemma WaitersJoin(c: Config, ttls: Ttls, x: Clocked, r: ReqId, ends: nat)
    requires Timed(ttls, x) && AtPc(x.base, r) && Inside(x.base.pcs[r]) && x.now <= ends
    requires var key := KeyOf(x.base.data.requests[r]);
      SomeoneLocking(x.base, key) && (key in x.lockEnds ==> x.lockEnds[key] <= ends)
    ensures CanBeJoinedBy(c, ttls, x, r, ends)
  {
    var key, wait: nat := KeyOf(x.base.data.requests[r]), ends - x.now;
    var q :| AtPc(x.base, q) && x.base.pcs[q].Locking? && KeyOf(x.base.data.requests[q]) == key;
    TickDropsLock(ttls, x, wait, key);
    TickLeavesTheRest(x, wait);
    TheNextInLineJoins(c, ttls, TickStep(x, wait), r, q);
    JoinedAfterATick(c, ttls, x, wait, r, ends);
  }

  lemma AloneInside(ttls: Ttls, x: Clocked, r: ReqId)
    requires Exclusion(ttls, x) && AtPc(x.base, r) && Inside(x.base.pcs[r])
    ensures !Joined(x, r)
  {
    forall q | q != r && AtPc(x.base, q) && Inside(x.base.pcs[q])
      ensures KeyOf(x.base.data.requests[q]) != KeyOf(x.base.data.requests[r])
    {
      if KeyOf(x.base.data.requests[q]) == KeyOf(x.base.data.requests[r]) {
        InsideMeansAlone(ttls, x, r, q);
      }
    }
  }

  lemma PunctualIsReachable(c: Config, ttls: Ttls, x: Clocked)
    requires PunctuallyReachable(c, ttls, x)
    ensures ClockedReachable(c, ttls, x)
  {
    var actions :| PunctualRun(c, ttls, START, actions) && ClockedRun(c, ttls, START, actions) == x;
    assert ClockedLegal(c, ttls, START, actions);
  }

  /** The cached reply keeps everybody out until after `horizon`. */
  ghost predicate KeptOutByCache(x: Clocked, key: Key, horizon: nat) {
    key in x.base.data.cache && key in x.cacheEnds && horizon < x.cacheEnds[key] && !SomeoneLocking(x.base, key)
  }

  lemma LockKeepsOthersOut(c: Config, ttls: Ttls, x: Clocked, r: ReqId, horizon: nat)
    requires ClockedInv(ttls, x) && TimersInv(ttls, x) && ttls.lock > 0 && ttls.cache > 0
    requires AtPc(x.base, r) && Inside(x.base.pcs[r]) && r in x.since && horizon < x.since[r] + ttls.lock
    ensures !CanBeJoinedBy(c, ttls, x, r, horizon)
  {
    var key, ends := KeyOf(x.base.data.requests[r]), x.since[r] + ttls.lock;
    assert HoldsLock(ttls, x, r);
    AloneInside(ttls, x, r);
    assert Protected(x, r, key, ends);
    forall actions | ClockedLegal(c, ttls, x, actions) && HoldsStill(actions, r)
      ensures !JoinedInTime(ClockedRun(c, ttls, x, actions), r, horizon)
    {
      if ClockedRun(c, ttls, x, actions).now <= horizon {
        ProtectedRun(c, ttls, x, actions, r, key, ends);
      }
    }
  }

  lemma CacheKeepsOthersOut(c: Config, ttls: Ttls, x: Clocked, r: ReqId, horizon: nat)
    requires Exclusion(ttls, x) && TimersInv(ttls, x) && ttls.lock > 0 && ttls.cache > 0
    requires AtPc(x.base, r) && Inside(x.base.pcs[r])
    requires KeptOutByCache(x, KeyOf(x.base.data.requests[r]), horizon)
    ensures !CanBeJoinedBy(c, ttls, x, r, horizon)
  {
    var key := KeyOf(x.base.data.requests[r]);
    assert CacheIsLive(ttls, x, key);
    forall q | NearLock(x.base, q, key) ensures q == r {
      if Inside(x.base.pcs[q]) {
        InsideMeansAlone(ttls, x, r, q);
      }
    }
    forall actions | ClockedLegal(c, ttls, x, actions) && HoldsStill(actions, r)
      ensures !JoinedInTime(ClockedRun(c, ttls, x, actions), r, horizon)
    {
      if ClockedRun(c, ttls, x, actions).now <= horizon {
        ShieldedRun(c, ttls, x, actions, r, key, x.cacheEnds[key]);
        ShieldedIsNotJoined(ClockedRun(c, ttls, x, actions), r, key, x.cacheEnds[key]);
      }
    }
  }

  /** How long a lock excludes others, exactly: however punctual or late all other requests
      are, another request can get inside while `r` stands still if and only if the time is
      reached at which `r`'s SETNX plus the TTL ends, and no reply that was already cached for
      the key keeps everybody away from the lock for longer. */
  lemma LockProtectsUntilItsEndExactly(c: Config, ttls: Ttls, x: Clocked, r: ReqId, horizon: nat)
    requires PunctuallyReachable(c, ttls, x) && ttls.lock > 0 && ttls.cache > 0
    requires AtPc(x.base, r) && Inside(x.base.pcs[r])
    ensures r in x.since
    ensures CanBeJoinedBy(c, ttls, x, r, horizon) <==>
      x.since[r] + ttls.lock <= horizon && !KeptOutByCache(x, KeyOf(x.base.data.requests[r]), horizon)
  {
    PunctuallyReachableHasInv(c, ttls, x);
    PunctualIsReachable(c, ttls, x);
    ClockedReachableHasTimers(c, ttls, x);
    assert HoldsLock(ttls, x, r);
    var key, ends := KeyOf(x.base.data.requests[r]), x.since[r] + ttls.lock;
    if horizon < ends {
      LockKeepsOthersOut(c, ttls, x, r, horizon);
    } else if KeptOutByCache(x, key, horizon) {
      CacheKeepsOthersOut(c, ttls, x, r, horizon);
    } else if SomeoneLocking(x.base, key) {
      WaitersJoin(c, ttls, x, r, ends);
      JoinedLater(c, ttls, x, r, ends, horizon);
    } else {
      assert key in x.base.data.cache ==> CacheIsLive(ttls, x, key);
      NewcomersJoin(c, ttls, x, r, horizon);
    }
  }

  /** One tick that is not punctual is enough: from there some run, with the late request
      standing still, puts a second request for its key inside. */
  lemma LateTickLetsAnotherIn(c: Config, ttls: Ttls, x: Clocked, seconds: nat)
    requires TimersInv(ttls, x) && Exclusion(ttls, x) && ttls.lock > 0 && ttls.cache > 0
    requires !Punctual(ttls, x, Tick(seconds))
    ensures exists r, horizon :: (
      r in x.base.pcs && Inside(x.base.pcs[r]) && CanBeJoinedBy(c, ttls, TickStep(x, seconds), r, horizon))
  {
    var r :| r in x.base.pcs && r in x.since && Inside(x.base.pcs[r]) && x.now + seconds >= x.since[r] + ttls.lock;
    assert HoldsLock(ttls, x, r);
    var y, key := TickStep(x, seconds), KeyOf(x.base.data.requests[r]);
    ClockedStepKeepsTimers(c, ttls, x, Tick(seconds));
    assert key in y.base.data.cache ==> CacheIsLive(ttls, y, key);
    var ends := if key in y.base.data.cache then y.cacheEnds[key] else y.now;
    NewcomersJoin(c, ttls, y, r, ends);
  }

  /** Punctuality is what mutual exclusion takes: no run of the duration of a tick lets another
      request in on one that stands still if and only if for everybody inside the tick is
      punctual, or a cached reply keeps the others out for as long. */
  lemma PunctualityIsExact(c: Config, ttls: Ttls, x: Clocked, seconds: nat)
    requires PunctuallyReachable(c, ttls, x) && ttls.lock > 0 && ttls.cache > 0
    ensures (forall r :: AtPc(x.base, r) && Inside(x.base.pcs[r]) ==> !CanBeJoinedBy(c, ttls, x, r, x.now + seconds))
       <==> (forall r :: AtPc(x.base, r) && Inside(x.base.pcs[r]) ==>
               IsInTime(ttls, x, r, seconds) || KeptOutByCache(x, KeyOf(x.base.data.requests[r]), x.now + seconds))
    ensures Punctual(ttls, x, Tick(seconds)) <==>
      forall r :: AtPc(x.base, r) && Inside(x.base.pcs[r]) ==> IsInTime(ttls, x, r, seconds)
  {
    PunctuallyReachableHasInv(c, ttls, x);
    forall r | AtPc(x.base, r) && Inside(x.base.pcs[r])
      ensures r in x.since
      ensures CanBeJoinedBy(c, ttls, x, r, x.now + seconds) <==>
        !IsInTime(ttls, x, r, seconds) && !KeptOutByCache(x, KeyOf(x.base.data.requests[r]), x.now + seconds)
    {
      LockProtectsUntilItsEndExactly(c, ttls, x, r, x.now + seconds);
    }
  }

  /** Its lock outlasts the tick. */
  predicate IsInTime(ttls: Ttls, x: Clocked, r: ReqId, seconds: nat) {
    r in x.since && x.now + seconds < x.since[r] + ttls.lock
  }

  // ---------- when a duplicate is met ----------

  ghost predicate NobodyInside(s: State, key: Key) {
    forall r :: AtPc(s, r) && Inside(s.pcs[r]) ==> KeyOf(s.data.requests[r]) != key
  }

  /** With nobody inside, a row is stale exactly if its key has no cached reply. */
  lemma StaleMeansUncached(ttls: Ttls, x: Clocked, id: EventId)
    requires ClockedInv(ttls, x) && TimersInv(ttls, x) && id in x.base.data.table
    requires NobodyInside(x.base, x.base.data.table[id].key)
    ensures Stale(ttls, x, id) <==> x.base.data.table[id].key !in x.base.data.cache
    ensures !Stale(ttls, x, id) ==> x.base.data.cache[x.base.data.table[id].key] == Encode(id)
  {
    var d, key := x.base.data, x.base.data.table[id].key;
    assert RowOk(d, id) && CreatorOk(d, x.base.pcs, id);
    if key in d.cache {
      assert CacheIsLive(ttls, x, key) && Acknowledges(d, key, d.cache[key]);
      assert d.cache[key].body.eventId == id;
    } else {
      assert id in x.storedAt ==> StoredOk(ttls, x, id);
      assert AtPc(x.base, d.creator[id]);
    }
  }

  /** A request that meets no fault and is never kept waiting, up to its insert. */
  function Errand(q: ReqId, req: Request, at: real): seq<ClockedAction> {
    [Step(Arrive(q, req)), Step(CacheGet(q, true)), Step(TryLock(q, Done)), Step(CacheGet(q, true)),
     Step(Read(q, true, at))]
  }

  /** It is about to insert, and the insert will be refused whatever id is generated. */
  ghost predicate MeetsDuplicate(z: Clocked, q: ReqId) {
    && AtPc(z.base, q) && z.base.pcs[q].Inserting?
    && forall newId :: Refused(z.base.data.table, newId, KeyOf(z.base.data.requests[q]))
  }

  lemma RecheckThroughAMiss(c: Config, ttls: Ttls, x: Clocked, id: EventId, q: ReqId, at: real)
    requires AtPc(x.base, q) && x.base.pcs[q].Rechecking? && Passes(c, x.base.data.requests[q], at)
    requires var key := KeyOf(x.base.data.requests[q]);
      key !in x.base.data.cache && id in x.base.data.table && x.base.data.table[id].key == key
    ensures var rest := [Step(CacheGet(q, true)), Step(Read(q, true, at))];
      ClockedLegal(c, ttls, x, rest) && MeetsDuplicate(ClockedRun(c, ttls, x, rest), q)
  {
    var get, read := Step(CacheGet(q, true)), Step(Read(q, true, at));
    ExaminedExactly(c, x.base.data.requests[q], at);
    var x1 := ClockedNext(c, ttls, x, get);
    assert x1.base == Goto(x.base, q, Reading);
    var x2 := ClockedNext(c, ttls, x1, read);
    assert x2.base.data.table == x.base.data.table && x2.base.data.requests == x.base.data.requests;
    StepThenRun(c, ttls, x1, read, []);
    StepThenRun(c, ttls, x, get, [read]);
    assert [get] + [read] == [get, read];
    assert MeetsDuplicate(x2, q);
  }

  lemma ErrandThroughAMiss(c: Config, ttls: Ttls, x: Clocked, id: EventId, q: ReqId, req: Request, at: real)
    requires Inv(x.base) && q !in x.base.pcs && Passes(c, req, at)
    requires KeyOf(req) != "" && KeyOf(req) !in x.base.locks && KeyOf(req) !in x.base.data.cache
    requires id in x.base.data.table && x.base.data.table[id].key == KeyOf(req)
    ensures PunctualRun(c, ttls, x, Errand(q, req, at))
    ensures MeetsDuplicate(ClockedRun(c, ttls, x, Errand(q, req, at)), q)
  {
    var way := TheWayIn(c, ttls, x, q, req);
    var last := [Step(CacheGet(q, true)), Step(Read(q, true, at))];
    RecheckThroughAMiss(c, ttls, ClockedRun(c, ttls, x, way), id, q, at);
    RunThenRun(c, ttls, x, way, last);
    assert way + last == Errand(q, req, at);
    InstantRunsArePunctual(c, ttls, x, Errand(q, req, at));
  }

  lemma {:induction false} RunThenRun(
      c: Config, ttls: Ttls, x: Clocked, first: seq<ClockedAction>, second: seq<ClockedAction>)
    requires ClockedLegal(c, ttls, x, first) && ClockedLegal(c, ttls, ClockedRun(c, ttls, x, first), second)
    ensures ClockedLegal(c, ttls, x, first + second)
    ensures ClockedRun(c, ttls, x, first + second) == ClockedRun(c, ttls, ClockedRun(c, ttls, x, first), second)
    decreases |first|
  {
    if first == [] {
      assert first + second == second;
    } else {
      assert (first + second)[1..] == first[1..] + second;
      RunThenRun(c, ttls, ClockedNext(c, ttls, x, first[0]), first[1..], second);
    }
  }

  lemma {:induction false} InstantRunsArePunctual(c: Config, ttls: Ttls, x: Clocked, actions: seq<ClockedAction>)
    requires ClockedLegal(c, ttls, x, actions) && forall i :: 0 <= i < |actions| ==> actions[i].Step?
    ensures PunctualRun(c, ttls, x, actions)
    decreases |actions|
  {
    if actions != [] {
      InstantRunsArePunctual(c, ttls, ClockedNext(c, ttls, x, actions[0]), actions[1..]);
    }
  }

  /** A request that finds its key cached is answered at once and goes no further. */
  lemma ErrandEndsAtAHit(c: Config, ttls: Ttls, x: Clocked, q: ReqId, req: Request, at: real)
    requires q !in x.base.pcs && KeyOf(req) != "" && KeyOf(req) in x.base.data.cache
    ensures ClockedLegal(c, ttls, x, Errand(q, req, at)[..2]) && !ClockedLegal(c, ttls, x, Errand(q, req, at))
    ensures ClockedRun(c, ttls, x, Errand(q, req, at)[..2]).base.pcs
         == x.base.pcs[q := Replied(Accepted(x.base.data.cache[KeyOf(req)]))]
  {
    var arrive, get := Step(Arrive(q, req)), Step(CacheGet(q, true));
    var x1 := ClockedNext(c, ttls, x, arrive);
    var x2 := ClockedNext(c, ttls, x1, get);
    StepThenRun(c, ttls, x1, get, []);
    StepThenRun(c, ttls, x, arrive, [get]);
    assert Errand(q, req, at)[..2] == [arrive] + [get];
    var rest := Errand(q, req, at)[2..];
    assert !ClockedLegal(c, ttls, x2, rest) by {
      assert rest[0] == Step(TryLock(q, Done)) && !ClockedEnabled(x2, rest[0]);
    }
    StepThenNoRun(c, ttls, x1, get, rest);
    StepThenNoRun(c, ttls, x, arrive, [get] + rest);
    assert Errand(q, req, at) == [arrive] + ([get] + rest);
  }

  /** A request for a key that has a row, that arrives while nobody is inside and the lock is
      free, and is well signed, gets as far as the duplicate branch if and only if the row is
      stale; otherwise it is answered at once with the row's 202. */
  lemma DuplicateIsMetIffStale(
      c: Config, ttls: Ttls, x: Clocked, id: EventId, q: ReqId, req: Request, at: real)
    requires PunctuallyReachable(c, ttls, x) && ttls.lock > 0 && ttls.cache > 0
    requires id in x.base.data.table && x.base.data.table[id].key == KeyOf(req)
    requires NobodyInside(x.base, KeyOf(req)) && KeyOf(req) !in x.base.locks
    requires q !in x.base.pcs && Passes(c, req, at)
    ensures Stale(ttls, x, id) <==>
      PunctualRun(c, ttls, x, Errand(q, req, at)) && MeetsDuplicate(ClockedRun(c, ttls, x, Errand(q, req, at)), q)
    ensures !Stale(ttls, x, id) ==>
      && ClockedLegal(c, ttls, x, Errand(q, req, at)[..2])
      && ClockedRun(c, ttls, x, Errand(q, req, at)[..2]).base.pcs == x.base.pcs[q := Replied(Accepted(Encode(id)))]
  {
    PunctuallyReachableHasInv(c, ttls, x);
    PunctualIsReachable(c, ttls, x);
    ClockedReachableHasTimers(c, ttls, x);
    assert RowOk(x.base.data, id);
    StaleMeansUncached(ttls, x, id);
    if Stale(ttls, x, id) {
      ErrandThroughAMiss(c, ttls, x, id, q, req, at);
    } else {
      ErrandEndsAtAHit(c, ttls, x, q, req, at);
    }
  }
}
