/** Runs that show what the lock does not promise. */
module IngestWitnesses {
  import opened Prelude
  import opened Ingest

  /** Two live requests for one key are between lock and unlock. */
  ghost predicate BothInside(s: State, r: ReqId, q: ReqId) {
    && r != q && AtPc(s, r) && AtPc(s, q) && InTry(s.pcs[r]) && InTry(s.pcs[q])
    && KeyOf(s.data.requests[r]) == KeyOf(s.data.requests[q])
  }

  /** Into the state after the lock has vanished and another request has come for the key. */
  lemma SecondComesInside(c: Config, s: State, r: ReqId, q: ReqId, req: Request) returns (t: State)
    requires s.pcs.Keys == s.data.requests.Keys
    requires AtPc(s, r) && InTry(s.pcs[r]) && q !in s.pcs
    requires KeyOf(req) == KeyOf(s.data.requests[r]) && KeyOf(req) != "" && KeyOf(req) !in s.data.cache
    ensures CanReach(c, s, t) && BothInside(t, r, q) && KeyOf(req) in t.locks && t.locks[KeyOf(req)] == q
    ensures t.pcs[r] == s.pcs[r] && t.data.requests == s.data.requests[q := req]
  {
    var key := KeyOf(req);
    var t1 := s.(locks := s.locks - {key});
    var t2 := ArriveStep(t1, q, req);
    var t3 := CacheGetStep(t2, q, true);
    t := TryLockStep(t3, q, Done);
    ReachNow(c, t);
    StepThenReach(c, t3, TryLock(q, Done), t);
    StepThenReach(c, t2, CacheGet(q, true), t);
    StepThenReach(c, t1, Arrive(q, req), t);
    StepThenReach(c, s, DropLock(key), t);
  }

  /** If the lock may vanish under a slow holder, then from every state in which a request is
      inside and nothing is cached, a second request for the key can get inside too. */
  lemma LockAloneDoesNotExclude(c: Config, s: State, r: ReqId, q: ReqId, req: Request)
    requires s.pcs.Keys == s.data.requests.Keys
    requires AtPc(s, r) && InTry(s.pcs[r]) && q !in s.pcs
    requires KeyOf(req) == KeyOf(s.data.requests[r]) && KeyOf(req) != "" && KeyOf(req) !in s.data.cache
    ensures exists t :: CanReach(c, s, t) && BothInside(t, r, q) && KeyOf(req) in t.locks && t.locks[KeyOf(req)] == q
  {
    var t := SecondComesInside(c, s, r, q, req);
  }

  /** The next await of a request inside, raising. */
  function Fault(s: State, r: ReqId): Action
    requires AtPc(s, r)
  {
    match s.pcs[r]
    case Reading => Read(r, false, 0.0)
    case Inserting(_) => Insert(r, "", Failed(false))
    case Refreshing(_, _) => Refresh(r, false)
    case Enqueueing(_, _) => EnqueueJob(r, Failed(false))
    case Caching(_) => StoreReply(r, Failed(false))
    case _ => CacheGet(r, false)
  }

  lemma FaultsLeadToTheUnlock(c: Config, s: State, r: ReqId)
    requires AtPc(s, r) && InTry(s.pcs[r])
    ensures Enabled(s, Fault(s, r)) && Next(c, s, Fault(s, r)) == Goto(s, r, Unlocking(Rejected(500)))
  {
  }

  /** From there the first request can leave and take the second one's lock with it: the
      second is still inside, and its key is free. */
  lemma UnlockTakesAnothersLock(c: Config, s: State, r: ReqId, q: ReqId, req: Request)
    requires s.pcs.Keys == s.data.requests.Keys
    requires AtPc(s, r) && InTry(s.pcs[r]) && q !in s.pcs
    requires KeyOf(req) == KeyOf(s.data.requests[r]) && KeyOf(req) != "" && KeyOf(req) !in s.data.cache
    ensures exists t, u :: CanReach(c, s, t) && LosesItsLock(c, t, u, r, q)
  {
    var t1 := SecondComesInside(c, s, r, q, req);
    var t2 := Next(c, t1, Fault(t1, r));
    FaultsLeadToTheUnlock(c, t1, r);
    ReachNow(c, t2);
    StepThenReach(c, t1, Fault(t1, r), t2);
    ReachTransitive(c, s, t1, t2);
    assert LosesItsLock(c, t2, UnlockStep(t2, r, Done), r, q);
  }

  /** The unlock of `r` leads from `t` to `u` and frees the lock `q` owns while inside. */
  ghost predicate LosesItsLock(c: Config, t: State, u: State, r: ReqId, q: ReqId) {
    && Enabled(t, Unlock(r, Done)) && u == Next(c, t, Unlock(r, Done))
    && r != q && AtPc(t, q) && InTry(t.pcs[q])
    && KeyOf(t.data.requests[q]) in t.locks && t.locks[KeyOf(t.data.requests[q])] == q
    && AtPc(u, q) && u.pcs[q] == t.pcs[q] && KeyOf(t.data.requests[q]) !in u.locks
  }
}
