/**
 The ingest protocol under a clock: lock and cache entries live exactly their TTL.

 Every clocked run is a run of the adversarial environment, so everything proved there
 holds here too. What a clock adds is mutual exclusion, provided every holder of a lock
 leaves or dies before its TTL ends.
 */
module IngestClocked {
  import opened Prelude
  import opened Schemas
  import opened Events
  import opened Ingest
  import opened IngestInvariant
  import opened IngestTheorems

  datatype Ttls = Ttls(lock: nat, cache: nat)

  datatype Clocked = Clocked(
    base: State,
    now: nat,
    lockEnds: map<Key, nat>,
    cacheEnds: map<Key, nat>,
    since: map<ReqId, nat>,           // history: when a request's SETNX took effect
    storedAt: map<EventId, nat>)      // history: when a row's reply was cached

  const START := Clocked(INITIAL, 0, map[], map[], map[], map[])

  datatype ClockedAction = Step(a: Action) | Tick(seconds: nat)

  function ExpiredLocks(x: Clocked, now: nat): set<Key> {
    set k | k in x.base.locks && k in x.lockEnds && x.lockEnds[k] <= now
  }

  function ExpiredReplies(x: Clocked, now: nat): set<Key> {
    set k | k in x.base.data.cache && k in x.cacheEnds && x.cacheEnds[k] <= now
  }

  function Expire(s: State, locks: set<Key>, replies: set<Key>): State {
    s.(locks := s.locks - locks, data := s.data.(cache := s.data.cache - replies))
  }

  ghost predicate ClockedEnabled(x: Clocked, b: ClockedAction) {
    b.Step? ==> Enabled(x.base, b.a) && !b.a.Forget? && !b.a.DropLock?
  }

  predicate TakesLock(s: State, r: ReqId, o: Outcome)
    requires r in s.data.requests
  {
    KeyOf(s.data.requests[r]) !in s.locks && Applied(o)
  }

  ghost function TickStep(x: Clocked, seconds: nat): Clocked {
    var now := x.now + seconds;
    x.(now := now, base := Expire(x.base, ExpiredLocks(x, now), ExpiredReplies(x, now)))
  }

  function ClockedTryLock(ttls: Ttls, x: Clocked, r: ReqId, o: Outcome): Clocked
    requires AtPc(x.base, r)
  {
    var y := x.(base := TryLockStep(x.base, r, o));
    if TakesLock(x.base, r, o)
    then y.(lockEnds := x.lockEnds[KeyOf(x.base.data.requests[r]) := x.now + ttls.lock], since := x.since[r := x.now])
    else y
  }

  function ClockedStore(ttls: Ttls, x: Clocked, r: ReqId, o: Outcome): Clocked
    requires AtPc(x.base, r) && x.base.pcs[r].Caching?
  {
    var y := x.(base := StoreStep(x.base, r, o));
    if Applied(o)
    then y.(cacheEnds := x.cacheEnds[KeyOf(x.base.data.requests[r]) := x.now + ttls.cache],
            storedAt := x.storedAt[x.base.pcs[r].id := x.now])
    else y
  }

  ghost function ClockedNext(c: Config, ttls: Ttls, x: Clocked, b: ClockedAction): Clocked
    requires ClockedEnabled(x, b)
  {
    if b.Tick? then TickStep(x, b.seconds)
    else if b.a.TryLock? then ClockedTryLock(ttls, x, b.a.r, b.a.o)
    else if b.a.StoreReply? then ClockedStore(ttls, x, b.a.r, b.a.o)
    else x.(base := Next(c, x.base, b.a))
  }

  // ---------- clocked runs are adversarial runs ----------

  lemma {:induction false} LockExpiryIsAdversarial(c: Config, s: State, locks: set<Key>)
    ensures CanReach(c, s, s.(locks := s.locks - locks))
    decreases |locks|
  {
    if locks == {} {
      assert s.locks - {} == s.locks;
      ReachNow(c, s);
    } else {
      var k :| k in locks;
      var t := s.(locks := s.locks - {k});
      LockExpiryIsAdversarial(c, t, locks - {k});
      assert t.locks - (locks - {k}) == s.locks - locks;
      StepThenReach(c, s, DropLock(k), s.(locks := s.locks - locks));
    }
  }

  function WithoutReplies(s: State, replies: set<Key>): State {
    s.(data := s.data.(cache := s.data.cache - replies))
  }

  lemma {:induction false} ReplyExpiryIsAdversarial(c: Config, s: State, replies: set<Key>)
    ensures CanReach(c, s, WithoutReplies(s, replies))
    decreases |replies|
  {
    if replies == {} {
      assert s.data.cache - {} == s.data.cache;
      ReachNow(c, s);
    } else {
      var k :| k in replies;
      var t := WithoutReplies(s, {k});
      ReplyExpiryIsAdversarial(c, t, replies - {k});
      assert t.data.cache - (replies - {k}) == s.data.cache - replies;
      StepThenReach(c, s, Forget(k), WithoutReplies(s, replies));
    }
  }

  lemma ExpiryIsAdversarial(c: Config, s: State, locks: set<Key>, replies: set<Key>)
    ensures CanReach(c, s, Expire(s, locks, replies))
  {
    var t := s.(locks := s.locks - locks);
    LockExpiryIsAdversarial(c, s, locks);
    ReplyExpiryIsAdversarial(c, t, replies);
    ReachTransitive(c, s, t, Expire(s, locks, replies));
  }

  lemma ClockedStepIsAdversarial(c: Config, ttls: Ttls, x: Clocked, b: ClockedAction)
    requires ClockedEnabled(x, b)
    ensures CanReach(c, x.base, ClockedNext(c, ttls, x, b).base)
  {
    match b
    case Tick(seconds) =>
      ExpiryIsAdversarial(c, x.base, ExpiredLocks(x, x.now + seconds), ExpiredReplies(x, x.now + seconds));
    case Step(a) =>
      ReachNow(c, Next(c, x.base, a));
      StepThenReach(c, x.base, a, Next(c, x.base, a));
  }

  // ---------- runs ----------

  /** Between lock and unlock. */
  predicate Inside(pc: Pc) {
    InTry(pc) || pc.Unlocking?
  }

  /** Time passes only while every request inside is younger than its lock. */
  ghost predicate Punctual(ttls: Ttls, x: Clocked, b: ClockedAction) {
    b.Tick? ==> forall r :: r in x.base.pcs && r in x.since && Inside(x.base.pcs[r]) ==>
      x.now + b.seconds < x.since[r] + ttls.lock
  }

  ghost predicate ClockedLegal(c: Config, ttls: Ttls, x: Clocked, actions: seq<ClockedAction>)
    decreases |actions|
  {
    actions == [] ||
    (ClockedEnabled(x, actions[0]) && ClockedLegal(c, ttls, ClockedNext(c, ttls, x, actions[0]), actions[1..]))
  }

  ghost function ClockedRun(c: Config, ttls: Ttls, x: Clocked, actions: seq<ClockedAction>): Clocked
    requires ClockedLegal(c, ttls, x, actions)
    decreases |actions|
  {
    if actions == [] then x else ClockedRun(c, ttls, ClockedNext(c, ttls, x, actions[0]), actions[1..])
  }

  ghost predicate AllPunctual(c: Config, ttls: Ttls, x: Clocked, actions: seq<ClockedAction>)
    requires ClockedLegal(c, ttls, x, actions)
    decreases |actions|
  {
    actions == [] ||
    (Punctual(ttls, x, actions[0]) && AllPunctual(c, ttls, ClockedNext(c, ttls, x, actions[0]), actions[1..]))
  }

  ghost predicate PunctualRun(c: Config, ttls: Ttls, x: Clocked, actions: seq<ClockedAction>) {
    ClockedLegal(c, ttls, x, actions) && AllPunctual(c, ttls, x, actions)
  }

  ghost predicate ClockedReachable(c: Config, ttls: Ttls, x: Clocked) {
    exists actions :: ClockedLegal(c, ttls, START, actions) && ClockedRun(c, ttls, START, actions) == x
  }

  ghost predicate PunctuallyReachable(c: Config, ttls: Ttls, x: Clocked) {
    exists actions :: PunctualRun(c, ttls, START, actions) && ClockedRun(c, ttls, START, actions) == x
  }

  /** Every clocked run, late holders or not, is a run of the adversary. */
  lemma {:induction false} ClockedRunsAreAdversarial(c: Config, ttls: Ttls, x: Clocked, actions: seq<ClockedAction>)
    requires ClockedLegal(c, ttls, x, actions)
    ensures CanReach(c, x.base, ClockedRun(c, ttls, x, actions).base)
    decreases |actions|
  {
    if actions == [] {
      ReachNow(c, x.base);
    } else {
      var y := ClockedNext(c, ttls, x, actions[0]);
      ClockedStepIsAdversarial(c, ttls, x, actions[0]);
      ClockedRunsAreAdversarial(c, ttls, y, actions[1..]);
      ReachTransitive(c, x.base, y.base, ClockedRun(c, ttls, x, actions).base);
    }
  }

  // ---------- mutual exclusion ----------

  /** The request inside owns its key's lock, and that lock has not run out. */
  ghost predicate HoldsLock(ttls: Ttls, x: Clocked, r: ReqId)
    requires r in x.base.data.requests
  {
    var key := KeyOf(x.base.data.requests[r]);
    && key in x.base.locks && x.base.locks[key] == r
    && r in x.since && key in x.lockEnds
    && x.lockEnds[key] == x.since[r] + ttls.lock
    && x.now < x.lockEnds[key]
  }

  /** No lock outlives its TTL. */
  ghost predicate LockIsLive(ttls: Ttls, x: Clocked, key: Key) {
    key in x.lockEnds && x.now < x.lockEnds[key] <= x.now + ttls.lock
  }

  ghost predicate Exclusion(ttls: Ttls, x: Clocked) {
    && x.base.pcs.Keys == x.base.data.requests.Keys
    && (forall r {:trigger HoldsLock(ttls, x, r)} :: r in x.base.pcs && Inside(x.base.pcs[r]) ==> HoldsLock(ttls, x, r))
    && (forall key {:trigger LockIsLive(ttls, x, key)} :: key in x.base.locks ==> LockIsLive(ttls, x, key))
  }

  /** Nothing happens to the locks, and nobody comes inside. */
  lemma CalmKeepsExclusion(ttls: Ttls, x: Clocked, y: Clocked)
    requires Exclusion(ttls, x)
    requires y.base.locks == x.base.locks && y.lockEnds == x.lockEnds && y.since == x.since && y.now == x.now
    requires y.base.pcs.Keys == y.base.data.requests.Keys
    requires forall q :: q in y.base.pcs && Inside(y.base.pcs[q]) ==>
      q in x.base.pcs && Inside(x.base.pcs[q]) && y.base.data.requests[q] == x.base.data.requests[q]
    ensures Exclusion(ttls, y)
  {
    forall q | q in y.base.pcs && Inside(y.base.pcs[q]) ensures HoldsLock(ttls, y, q) {
      assert HoldsLock(ttls, x, q);
    }
    forall k | k in y.base.locks ensures LockIsLive(ttls, y, k) {
      assert LockIsLive(ttls, x, k);
    }
  }

  lemma TakingKeepsExclusion(ttls: Ttls, x: Clocked, y: Clocked, r: ReqId, pc: Pc)
    requires Exclusion(ttls, x) && ttls.lock > 0
    requires r in x.base.pcs && KeyOf(x.base.data.requests[r]) !in x.base.locks
    requires var key := KeyOf(x.base.data.requests[r]);
      && y.base == x.base.(locks := x.base.locks[key := r], pcs := x.base.pcs[r := pc])
      && y.lockEnds == x.lockEnds[key := x.now + ttls.lock] && y.since == x.since[r := x.now] && y.now == x.now
    ensures Exclusion(ttls, y)
  {
    forall q | q in y.base.pcs && Inside(y.base.pcs[q]) ensures HoldsLock(ttls, y, q) {
      if q != r { assert HoldsLock(ttls, x, q); }
    }
    forall k | k in y.base.locks ensures LockIsLive(ttls, y, k) {
      if k in x.base.locks { assert LockIsLive(ttls, x, k); }
    }
  }

  lemma TryLockKeepsExclusion(ttls: Ttls, x: Clocked, r: ReqId, o: Outcome)
    requires Exclusion(ttls, x) && ttls.lock > 0 && Enabled(x.base, TryLock(r, o))
    ensures Exclusion(ttls, ClockedTryLock(ttls, x, r, o))
  {
    var y := ClockedTryLock(ttls, x, r, o);
    if TakesLock(x.base, r, o) {
      TakingKeepsExclusion(ttls, x, y, r, y.base.pcs[r]);
    } else {
      CalmKeepsExclusion(ttls, x, y);
    }
  }

  lemma UnlockKeepsExclusion(ttls: Ttls, x: Clocked, r: ReqId, o: Outcome)
    requires Exclusion(ttls, x) && Enabled(x.base, Unlock(r, o))
    ensures Exclusion(ttls, x.(base := UnlockStep(x.base, r, o)))
  {
    var y := x.(base := UnlockStep(x.base, r, o));
    assert HoldsLock(ttls, x, r);
    forall q | q in y.base.pcs && Inside(y.base.pcs[q]) ensures HoldsLock(ttls, y, q) {
      assert HoldsLock(ttls, x, q);
    }
    forall k | k in y.base.locks ensures LockIsLive(ttls, y, k) {
      assert LockIsLive(ttls, x, k);
    }
  }

  /** Steps other than lock and unlock leave the locks alone and bring nobody inside. */
  lemma OthersEnterNothing(c: Config, s: State, a: Action)
    requires Enabled(s, a) && !a.TryLock? && !a.Unlock? && !a.DropLock?
    ensures Next(c, s, a).locks == s.locks
    ensures forall q :: q in Next(c, s, a).pcs && Inside(Next(c, s, a).pcs[q]) ==> q in s.pcs && Inside(s.pcs[q])
  {
  }

  lemma OtherStepsKeepExclusion(c: Config, ttls: Ttls, x: Clocked, a: Action, y: Clocked)
    requires Exclusion(ttls, x) && Inv(x.base) && ClockedEnabled(x, Step(a)) && !a.TryLock? && !a.Unlock?
    requires y.base == Next(c, x.base, a) && y.lockEnds == x.lockEnds && y.since == x.since && y.now == x.now
    ensures Exclusion(ttls, y)
  {
    StepKeepsInv(c, x.base, a);
    DataStepGrows(c, x.base, a);
    OthersEnterNothing(c, x.base, a);
    CalmKeepsExclusion(ttls, x, y);
  }

  lemma TickKeepsExclusion(ttls: Ttls, x: Clocked, seconds: nat)
    requires Exclusion(ttls, x) && Punctual(ttls, x, Tick(seconds))
    ensures Exclusion(ttls, TickStep(x, seconds))
  {
    var y := TickStep(x, seconds);
    forall q | q in y.base.pcs && Inside(y.base.pcs[q]) ensures HoldsLock(ttls, y, q) {
      assert HoldsLock(ttls, x, q);
    }
    forall k | k in y.base.locks ensures LockIsLive(ttls, y, k) {
      assert LockIsLive(ttls, x, k);
    }
  }

  /** A tick takes the lock of a request that is still inside exactly if it is not punctual. */
  lemma TickKeepsExclusionIffPunctual(ttls: Ttls, x: Clocked, seconds: nat)
    requires Exclusion(ttls, x)
    ensures Exclusion(ttls, TickStep(x, seconds)) <==> Punctual(ttls, x, Tick(seconds))
  {
    if Punctual(ttls, x, Tick(seconds)) {
      TickKeepsExclusion(ttls, x, seconds);
    } else {
      var r :| r in x.base.pcs && r in x.since && Inside(x.base.pcs[r]) && x.now + seconds >= x.since[r] + ttls.lock;
      var key := KeyOf(x.base.data.requests[r]);
      assert HoldsLock(ttls, x, r);
      assert key in ExpiredLocks(x, x.now + seconds);
      assert !HoldsLock(ttls, TickStep(x, seconds), r);
    }
  }

  lemma ClockedStepKeepsExclusion(c: Config, ttls: Ttls, x: Clocked, b: ClockedAction)
    requires Exclusion(ttls, x) && Inv(x.base) && ttls.lock > 0
    requires ClockedEnabled(x, b) && Punctual(ttls, x, b)
    ensures Exclusion(ttls, ClockedNext(c, ttls, x, b))
  {
    if b.Tick? {
      TickKeepsExclusion(ttls, x, b.seconds);
    } else if b.a.TryLock? {
      TryLockKeepsExclusion(ttls, x, b.a.r, b.a.o);
    } else if b.a.Unlock? {
      UnlockKeepsExclusion(ttls, x, b.a.r, b.a.o);
    } else {
      OtherStepsKeepExclusion(c, ttls, x, b.a, ClockedNext(c, ttls, x, b));
    }
  }

  // ---------- why a duplicate is found ----------

  /** A reply that was cached is in the cache until its TTL ends. */
  ghost predicate StoredOk(ttls: Ttls, x: Clocked, id: EventId)
    requires id in x.storedAt
  {
    && id in x.base.data.table
    && var key := x.base.data.table[id].key;
      && key in x.cacheEnds && x.cacheEnds[key] == x.storedAt[id] + ttls.cache
      && (x.now < x.storedAt[id] + ttls.cache ==> key in x.base.data.cache)
  }

  /** The cached reply of the row ran out, or its creator is gone and never cached one. */
  ghost predicate Stale(ttls: Ttls, x: Clocked, id: EventId) {
    if id in x.storedAt then x.storedAt[id] + ttls.cache <= x.now
    else
      && id in x.base.data.creator && x.base.data.creator[id] in x.base.pcs
      && !Live(x.base.pcs[x.base.data.creator[id]])
  }

  /** A request that has re-checked the cache under its lock can only meet stale rows. */
  ghost predicate MeetsOnlyStale(ttls: Ttls, x: Clocked, r: ReqId)
    requires r in x.base.data.requests
  {
    forall id :: id in x.base.data.table && x.base.data.table[id].key == KeyOf(x.base.data.requests[r]) ==>
      Stale(ttls, x, id)
  }

  predicate Rechecked(pc: Pc) {
    pc.Reading? || pc.Inserting?
  }

  ghost predicate Freshness(ttls: Ttls, x: Clocked) {
    && (forall id {:trigger StoredOk(ttls, x, id)} :: id in x.storedAt ==> StoredOk(ttls, x, id))
    && (forall r {:trigger MeetsOnlyStale(ttls, x, r)} ::
          r in x.base.pcs && r in x.base.data.requests && Rechecked(x.base.pcs[r]) ==> MeetsOnlyStale(ttls, x, r))
  }

  /** Two requests inside for one key are one. */
  lemma InsideMeansAlone(ttls: Ttls, x: Clocked, r: ReqId, q: ReqId)
    requires Exclusion(ttls, x)
    requires r in x.base.pcs && Inside(x.base.pcs[r]) && q in x.base.pcs && Inside(x.base.pcs[q])
    requires KeyOf(x.base.data.requests[r]) == KeyOf(x.base.data.requests[q])
    ensures r == q
  {
    assert HoldsLock(ttls, x, r) && HoldsLock(ttls, x, q);
  }

  // ---------- what every step keeps ----------

  /** The rows of the key `r` is after are the same, and nothing was cached for them. */
  ghost predicate SameRows(x: Clocked, y: Clocked, key: Key) {
    forall id :: id in y.base.data.table && y.base.data.table[id].key == key ==>
      && id in x.base.data.table && x.base.data.table[id].key == key
      && (id in y.storedAt <==> id in x.storedAt)
      && (id in x.storedAt ==> y.storedAt[id] == x.storedAt[id])
  }

  /** Requests that are over stay over, and rows keep their creator. */
  ghost predicate Onward(x: Clocked, y: Clocked) {
    && x.now <= y.now && Grown(x.base.data, y.base.data)
    && forall q :: q in x.base.pcs && !Live(x.base.pcs[q]) ==> q in y.base.pcs && !Live(y.base.pcs[q])
  }

  lemma StaleRowsStayStale(ttls: Ttls, x: Clocked, y: Clocked, r: ReqId)
    requires Onward(x, y) && r in x.base.data.requests && MeetsOnlyStale(ttls, x, r)
    requires SameRows(x, y, KeyOf(x.base.data.requests[r]))
    ensures r in y.base.data.requests && MeetsOnlyStale(ttls, y, r)
  {
  }

  lemma StoredStaysOk(ttls: Ttls, x: Clocked, y: Clocked, id: EventId)
    requires id in x.storedAt && StoredOk(ttls, x, id) && Onward(x, y)
    requires id in y.storedAt && y.storedAt[id] == x.storedAt[id]
    requires var key := x.base.data.table[id].key;
      && key in y.cacheEnds && y.cacheEnds[key] == x.cacheEnds[key]
      && (key in x.base.data.cache && y.now < y.cacheEnds[key] ==> key in y.base.data.cache)
    ensures StoredOk(ttls, y, id)
  {
  }

  /** The table, the cache and the history of the cache are as before, up to expiry. */
  lemma QuietStepKeepsFreshness(ttls: Ttls, x: Clocked, y: Clocked)
    requires Freshness(ttls, x) && Onward(x, y)
    requires y.storedAt == x.storedAt && y.cacheEnds == x.cacheEnds
    requires y.base.data.table.Keys == x.base.data.table.Keys
    requires forall key :: key in x.base.data.cache && key in x.cacheEnds && y.now < x.cacheEnds[key] ==>
      key in y.base.data.cache
    requires forall r :: r in y.base.pcs && r in y.base.data.requests && Rechecked(y.base.pcs[r]) ==>
      r in x.base.pcs && r in x.base.data.requests && (Rechecked(x.base.pcs[r]) || MeetsOnlyStale(ttls, x, r))
    ensures Freshness(ttls, y)
  {
    forall id | id in y.storedAt ensures StoredOk(ttls, y, id) {
      assert StoredOk(ttls, x, id);
      StoredStaysOk(ttls, x, y, id);
    }
    forall r | r in y.base.pcs && r in y.base.data.requests && Rechecked(y.base.pcs[r])
      ensures MeetsOnlyStale(ttls, y, r)
    {
      assert MeetsOnlyStale(ttls, x, r);
      forall id | id in y.base.data.table ensures y.base.data.table[id].key == x.base.data.table[id].key {
        assert SameIdentity(x.base.data.table[id], y.base.data.table[id]);
      }
      StaleRowsStayStale(ttls, x, y, r);
    }
  }

  /** A miss under the lock: whoever committed a row for the key is gone, or what it cached
      has run out. */
  lemma MissMeansStale(ttls: Ttls, x: Clocked, r: ReqId)
    requires Inv(x.base) && Exclusion(ttls, x) && Freshness(ttls, x)
    requires r in x.base.pcs && x.base.pcs[r].Rechecking?
    requires KeyOf(x.base.data.requests[r]) !in x.base.data.cache
    ensures MeetsOnlyStale(ttls, x, r)
  {
    var key := KeyOf(x.base.data.requests[r]);
    forall id | id in x.base.data.table && x.base.data.table[id].key == key ensures Stale(ttls, x, id) {
      if id in x.storedAt {
        assert StoredOk(ttls, x, id);
      } else {
        var q := x.base.data.creator[id];
        assert RowOk(x.base.data, id) && CreatorOk(x.base.data, x.base.pcs, id);
        if Inside(x.base.pcs[q]) {
          InsideMeansAlone(ttls, x, r, q);
        }
      }
    }
  }

  lemma OnwardByStep(c: Config, x: Clocked, a: Action, y: Clocked)
    requires Inv(x.base) && Enabled(x.base, a) && y.base == Next(c, x.base, a) && x.now == y.now
    ensures Onward(x, y)
  {
    StepIsLater(c, x.base, a);
    assert forall q :: q in x.base.pcs && !Live(x.base.pcs[q]) ==> y.base.pcs[q] == x.base.pcs[q];
  }

  lemma CacheGetKeepsFreshness(ttls: Ttls, x: Clocked, r: ReqId, ok: bool, y: Clocked)
    requires Inv(x.base) && Exclusion(ttls, x) && Freshness(ttls, x)
    requires Enabled(x.base, CacheGet(r, ok)) && y == x.(base := CacheGetStep(x.base, r, ok)) && Onward(x, y)
    ensures Freshness(ttls, y)
  {
    if Rechecked(y.base.pcs[r]) {
      MissMeansStale(ttls, x, r);
    }
    QuietStepKeepsFreshness(ttls, x, y);
  }

  /** Steps that neither commit a row nor touch the cache, nor follow a look into it. */
  lemma OthersRecheckNothing(c: Config, s: State, a: Action)
    requires Enabled(s, a) && !a.CacheGet? && !a.Insert? && !a.StoreReply? && !a.Forget?
    ensures Next(c, s, a).data.table.Keys == s.data.table.Keys
    ensures Next(c, s, a).data.cache == s.data.cache
    ensures forall r :: r in Next(c, s, a).pcs && Rechecked(Next(c, s, a).pcs[r]) ==>
      r in s.pcs && Rechecked(s.pcs[r])
  {
  }

  lemma OtherStepsKeepFreshness(c: Config, ttls: Ttls, x: Clocked, a: Action, y: Clocked)
    requires Inv(x.base) && Freshness(ttls, x) && ClockedEnabled(x, Step(a)) && Onward(x, y)
    requires !a.CacheGet? && !a.Insert? && !a.StoreReply?
    requires y.base == Next(c, x.base, a) && y.storedAt == x.storedAt && y.cacheEnds == x.cacheEnds
    ensures Freshness(ttls, y)
  {
    OthersRecheckNothing(c, x.base, a);
    QuietStepKeepsFreshness(ttls, x, y);
  }

  lemma TickKeepsFreshness(ttls: Ttls, x: Clocked, seconds: nat)
    requires Inv(x.base) && Freshness(ttls, x)
    ensures Freshness(ttls, TickStep(x, seconds))
  {
    QuietStepKeepsFreshness(ttls, x, TickStep(x, seconds));
  }

  lemma InsertKeepsFreshness(ttls: Ttls, x: Clocked, r: ReqId, id: EventId, o: Outcome, y: Clocked)
    requires Inv(x.base) && Exclusion(ttls, x) && Freshness(ttls, x)
    requires Enabled(x.base, Insert(r, id, o)) && y == x.(base := InsertStep(x.base, r, id, o)) && Onward(x, y)
    ensures Freshness(ttls, y)
  {
    forall i | i in y.storedAt ensures StoredOk(ttls, y, i) {
      assert StoredOk(ttls, x, i);
      StoredStaysOk(ttls, x, y, i);
    }
    forall q | q in y.base.pcs && q in y.base.data.requests && Rechecked(y.base.pcs[q])
      ensures MeetsOnlyStale(ttls, y, q)
    {
      assert MeetsOnlyStale(ttls, x, q);
      if KeyOf(x.base.data.requests[q]) == KeyOf(x.base.data.requests[r]) {
        InsideMeansAlone(ttls, x, r, q);
      }
      StaleRowsStayStale(ttls, x, y, q);
    }
  }

  /** A reply is cached for a key that nobody else is after. */
  lemma StoringKeepsFreshness(ttls: Ttls, x: Clocked, y: Clocked, key: Key, id: EventId)
    requires Freshness(ttls, x) && Onward(x, y) && KeysUnique(x.base.data.table)
    requires id in x.base.data.table && x.base.data.table[id].key == key
    requires y.now == x.now && y.base.data.table == x.base.data.table
    requires y.base.data.cache == x.base.data.cache[key := Encode(id)]
    requires y.cacheEnds == x.cacheEnds[key := x.now + ttls.cache] && y.storedAt == x.storedAt[id := x.now]
    requires forall q :: q in y.base.pcs && q in y.base.data.requests && Rechecked(y.base.pcs[q]) ==>
      && q in x.base.pcs && q in x.base.data.requests && Rechecked(x.base.pcs[q])
      && KeyOf(x.base.data.requests[q]) != key
    ensures Freshness(ttls, y)
  {
    forall i | i in y.storedAt ensures StoredOk(ttls, y, i) {
      if i != id {
        assert StoredOk(ttls, x, i);
        assert x.base.data.table[i].key != key;
        StoredStaysOk(ttls, x, y, i);
      }
    }
    forall q | q in y.base.pcs && q in y.base.data.requests && Rechecked(y.base.pcs[q])
      ensures MeetsOnlyStale(ttls, y, q)
    {
      assert MeetsOnlyStale(ttls, x, q);
      StaleRowsStayStale(ttls, x, y, q);
    }
  }

  lemma CachingMeansSettled(s: State, r: ReqId)
    requires Inv(s) && AtPc(s, r) && s.pcs[r].Caching?
    ensures Settled(s.data, KeyOf(s.data.requests[r]), s.pcs[r].id)
  {
    assert PcOk(s.data, r, s.pcs[r]);
  }

  /** While `r` is inside, whoever has re-checked the cache is after another key. */
  lemma OthersAreAfterOtherKeys(ttls: Ttls, x: Clocked, r: ReqId)
    requires Exclusion(ttls, x) && r in x.base.pcs && Inside(x.base.pcs[r]) && !Rechecked(x.base.pcs[r])
    ensures forall q :: q in x.base.pcs && Rechecked(x.base.pcs[q]) ==>
      KeyOf(x.base.data.requests[q]) != KeyOf(x.base.data.requests[r])
  {
    assert HoldsLock(ttls, x, r);
    forall q | q in x.base.pcs && Rechecked(x.base.pcs[q])
      ensures KeyOf(x.base.data.requests[q]) != KeyOf(x.base.data.requests[r])
    {
      assert HoldsLock(ttls, x, q);
    }
  }

  lemma AppliedStoreKeepsFreshness(ttls: Ttls, x: Clocked, r: ReqId, o: Outcome, y: Clocked)
    requires Freshness(ttls, x) && KeysUnique(x.base.data.table)
    requires Enabled(x.base, StoreReply(r, o)) && Settled(x.base.data, KeyOf(x.base.data.requests[r]), x.base.pcs[r].id)
    requires forall q :: q in x.base.pcs && Rechecked(x.base.pcs[q]) && q in x.base.data.requests ==>
      KeyOf(x.base.data.requests[q]) != KeyOf(x.base.data.requests[r])
    requires y == ClockedStore(ttls, x, r, o) && Applied(o) && Onward(x, y)
    ensures Freshness(ttls, y)
  {
    assert y.base.pcs == x.base.pcs[r := y.base.pcs[r]] && !Rechecked(y.base.pcs[r]);
    StoringKeepsFreshness(ttls, x, y, KeyOf(x.base.data.requests[r]), x.base.pcs[r].id);
  }

  lemma LostStoreKeepsFreshness(ttls: Ttls, x: Clocked, r: ReqId, o: Outcome, y: Clocked)
    requires Freshness(ttls, x) && Enabled(x.base, StoreReply(r, o))
    requires y == ClockedStore(ttls, x, r, o) && !Applied(o) && Onward(x, y)
    ensures Freshness(ttls, y)
  {
    assert y.base.pcs == x.base.pcs[r := y.base.pcs[r]] && !Rechecked(y.base.pcs[r]);
    QuietStepKeepsFreshness(ttls, x, y);
  }

  lemma StoreKeepsFreshness(ttls: Ttls, x: Clocked, r: ReqId, o: Outcome, y: Clocked)
    requires Inv(x.base) && Exclusion(ttls, x) && Freshness(ttls, x)
    requires Enabled(x.base, StoreReply(r, o)) && y == ClockedStore(ttls, x, r, o) && Onward(x, y)
    ensures Freshness(ttls, y)
  {
    if Applied(o) {
      CachingMeansSettled(x.base, r);
      OthersAreAfterOtherKeys(ttls, x, r);
      AppliedStoreKeepsFreshness(ttls, x, r, o, y);
    } else {
      LostStoreKeepsFreshness(ttls, x, r, o, y);
    }
  }

  lemma ClockedStepKeepsFreshness(c: Config, ttls: Ttls, x: Clocked, b: ClockedAction)
    requires Inv(x.base) && Exclusion(ttls, x) && Freshness(ttls, x) && ClockedEnabled(x, b)
    ensures Freshness(ttls, ClockedNext(c, ttls, x, b))
  {
    var y := ClockedNext(c, ttls, x, b);
    if b.Tick? {
      TickKeepsFreshness(ttls, x, b.seconds);
    } else {
      OnwardByStep(c, x, b.a, y);
      if b.a.CacheGet? {
        CacheGetKeepsFreshness(ttls, x, b.a.r, b.a.ok, y);
      } else if b.a.Insert? {
        InsertKeepsFreshness(ttls, x, b.a.r, b.a.id, b.a.o, y);
      } else if b.a.StoreReply? {
        StoreKeepsFreshness(ttls, x, b.a.r, b.a.o, y);
      } else {
        OtherStepsKeepFreshness(c, ttls, x, b.a, y);
      }
    }
  }

  ghost predicate ClockedInv(ttls: Ttls, x: Clocked) {
    Inv(x.base) && Exclusion(ttls, x) && Freshness(ttls, x)
  }

  lemma {:induction false} PunctualRunKeepsInv(c: Config, ttls: Ttls, x: Clocked, actions: seq<ClockedAction>)
    requires ClockedInv(ttls, x) && ttls.lock > 0 && PunctualRun(c, ttls, x, actions)
    ensures ClockedInv(ttls, ClockedRun(c, ttls, x, actions))
    ensures x.now <= ClockedRun(c, ttls, x, actions).now
    decreases |actions|
  {
    if actions != [] {
      var y := ClockedNext(c, ttls, x, actions[0]);
      ClockedStepKeepsBase(c, ttls, x, actions[0]);
      ClockedStepKeepsExclusion(c, ttls, x, actions[0]);
      ClockedStepKeepsFreshness(c, ttls, x, actions[0]);
      PunctualRunKeepsInv(c, ttls, y, actions[1..]);
    }
  }

  lemma ClockedStepKeepsBase(c: Config, ttls: Ttls, x: Clocked, b: ClockedAction)
    requires Inv(x.base) && ClockedEnabled(x, b)
    ensures Inv(ClockedNext(c, ttls, x, b).base)
  {
    ClockedStepIsAdversarial(c, ttls, x, b);
    var actions :| Legal(c, x.base, actions) && Run(c, x.base, actions) == ClockedNext(c, ttls, x, b).base;
    RunIsLater(c, x.base, actions);
  }

  lemma PunctuallyReachableHasInv(c: Config, ttls: Ttls, x: Clocked)
    requires PunctuallyReachable(c, ttls, x) && ttls.lock > 0
    ensures ClockedInv(ttls, x)
  {
    var actions :| PunctualRun(c, ttls, START, actions) && ClockedRun(c, ttls, START, actions) == x;
    PunctualRunKeepsInv(c, ttls, START, actions);
  }

  // ---------- what the clock adds ----------

  /** At most one request per key is between lock and unlock. */
  lemma AtMostOneInside(c: Config, ttls: Ttls, x: Clocked, r: ReqId, q: ReqId)
    requires PunctuallyReachable(c, ttls, x) && ttls.lock > 0
    requires AtPc(x.base, r) && Inside(x.base.pcs[r]) && AtPc(x.base, q) && Inside(x.base.pcs[q])
    requires KeyOf(x.base.data.requests[r]) == KeyOf(x.base.data.requests[q])
    ensures r == q
  {
    PunctuallyReachableHasInv(c, ttls, x);
    InsideMeansAlone(ttls, x, r, q);
  }

  /** Unlock only ever removes its caller's own lock. */
  lemma UnlockReleasesItsOwn(c: Config, ttls: Ttls, x: Clocked, r: ReqId)
    requires PunctuallyReachable(c, ttls, x) && ttls.lock > 0
    requires AtPc(x.base, r) && x.base.pcs[r].Unlocking?
    ensures KeyOf(x.base.data.requests[r]) in x.base.locks && x.base.locks[KeyOf(x.base.data.requests[r])] == r
  {
    PunctuallyReachableHasInv(c, ttls, x);
    assert HoldsLock(ttls, x, r);
  }

  /** The duplicate branch is reached only when the generated id is taken, or for a key whose
      cached reply has run out or whose row's creator is gone without having cached one. */
  lemma DuplicatesAreStale(c: Config, ttls: Ttls, x: Clocked, r: ReqId, id: EventId, o: Outcome)
    requires PunctuallyReachable(c, ttls, x) && ttls.lock > 0
    requires Enabled(x.base, Insert(r, id, o))
    requires Refused(x.base.data.table, id, KeyOf(x.base.data.requests[r]))
    ensures id in x.base.data.table ||
      exists other :: other in x.base.data.table
        && x.base.data.table[other].key == KeyOf(x.base.data.requests[r]) && Stale(ttls, x, other)
  {
    PunctuallyReachableHasInv(c, ttls, x);
    assert MeetsOnlyStale(ttls, x, r);
  }
}
