/**
 The route handler itself (api/routes/webhooks.py), as the structured code it is: early
 returns, `try` with its `finally`, exceptions. Between any two of its awaits every other
 request, the worker and the environment may do whatever the protocol of module Ingest
 allows them, any number of times.

 The handler keeps to the protocol, so every theorem about reachable states is about it.
 */
module Webhooks {
  import opened Prelude
  import opened Schemas
  import opened Security
  import opened Events
  import opened Ingest
  import opened IngestInvariant
  import opened Idempotency

  /** How the awaits of one delivery end, and what else it is handed from outside. */
  datatype Fate = Fate(
    firstGet: bool, lock: Outcome, secondGet: bool, read: bool, now: real,
    id: EventId, commit: Outcome, refresh: bool, enqueue: Outcome, store: Outcome, unlock: Outcome)

  predicate OthersOnly(actions: seq<Action>, r: ReqId) {
    forall i :: 0 <= i < |actions| ==> Mover(actions[i]) != Some(r)
  }

  lemma OthersLeaveARequestAlone(c: Config, s: State, a: Action, r: ReqId)
    requires Enabled(s, a) && Mover(a) != Some(r) && AtPc(s, r)
    ensures var t := Next(c, s, a);
      AtPc(t, r) && t.pcs[r] == s.pcs[r] && t.data.requests[r] == s.data.requests[r]
  {
  }

  lemma {:induction false} RunsOfOthersLeaveARequestAlone(c: Config, s: State, actions: seq<Action>, r: ReqId)
    requires Legal(c, s, actions) && OthersOnly(actions, r) && AtPc(s, r)
    ensures var t := Run(c, s, actions);
      AtPc(t, r) && t.pcs[r] == s.pcs[r] && t.data.requests[r] == s.data.requests[r]
    decreases |actions|
  {
    if actions != [] {
      OthersLeaveARequestAlone(c, s, actions[0], r);
      RunsOfOthersLeaveARequestAlone(c, Next(c, s, actions[0]), actions[1..], r);
    }
  }

  predicate Moves(a: Action, r: ReqId) { Mover(a) == Some(r) }

  /** The steps of one request among those of a run. */
  function Own(actions: seq<Action>, r: ReqId): seq<Action>
    decreases |actions|
  {
    if actions == [] then []
    else if Moves(actions[0], r) then [actions[0]] + Own(actions[1..], r)
    else Own(actions[1..], r)
  }

  lemma {:induction false} OwnConcat(a: seq<Action>, b: seq<Action>, r: ReqId)
    ensures Own(a + b, r) == Own(a, r) + Own(b, r)
    decreases |a|
  {
    if a == [] {
      assert a + b == b;
    } else {
      assert (a + b)[0] == a[0] && (a + b)[1..] == a[1..] + b;
      OwnConcat(a[1..], b, r);
    }
  }

  lemma {:induction false} OthersHaveNoOwn(actions: seq<Action>, r: ReqId)
    requires OthersOnly(actions, r)
    ensures Own(actions, r) == []
    decreases |actions|
  {
    if actions != [] {
      assert !Moves(actions[0], r);
      OthersHaveNoOwn(actions[1..], r);
    }
  }

  /** Some run leads there in which the request's own steps are just these, in this order. */
  ghost predicate Reaches(c: Config, s: State, t: State, r: ReqId, own: seq<Action>) {
    exists actions :: Legal(c, s, actions) && Run(c, s, actions) == t && Own(actions, r) == own
  }

  lemma ReachesHere(c: Config, s: State, r: ReqId)
    ensures Reaches(c, s, s, r, [])
  {
    assert Legal(c, s, []) && Run(c, s, []) == s && Own([], r) == [];
  }

  lemma OwnOfOne(a: Action, r: ReqId)
    requires Mover(a) == Some(r)
    ensures Own([a], r) == [a]
  {
    var none: seq<Action> := [];
    assert Moves(a, r) && [a][1..] == none;
    assert Own([a], r) == [a] + Own(none, r);
  }

  lemma StepReaches(c: Config, s: State, a: Action, r: ReqId)
    requires Enabled(s, a) && Mover(a) == Some(r)
    ensures Reaches(c, s, Next(c, s, a), r, [a])
  {
    var t, none: seq<Action> := Next(c, s, a), [];
    assert [a][1..] == none && Legal(c, t, none) && Run(c, t, none) == t;
    assert Legal(c, s, [a]);
    assert Run(c, s, [a]) == Run(c, t, none);
    OwnOfOne(a, r);
  }

  lemma ReachesOn(c: Config, s: State, t: State, u: State, r: ReqId, first: seq<Action>, second: seq<Action>)
    requires Reaches(c, s, t, r, first) && Reaches(c, t, u, r, second)
    ensures Reaches(c, s, u, r, first + second)
  {
    var a :| Legal(c, s, a) && Run(c, s, a) == t && Own(a, r) == first;
    var b :| Legal(c, t, b) && Run(c, t, b) == u && Own(b, r) == second;
    RunAppend(c, s, a, b);
    OwnConcat(a, b, r);
  }

  /** Steps of others do not show. */
  lemma ReachesAlong(c: Config, s: State, t: State, u: State, r: ReqId, own: seq<Action>)
    requires Reaches(c, s, t, r, own) && Reaches(c, t, u, r, [])
    ensures Reaches(c, s, u, r, own)
  {
    ReachesOn(c, s, t, u, r, own, []);
    assert own + [] == own;
  }

  lemma ReachesAfter(c: Config, s: State, t: State, u: State, r: ReqId, own: seq<Action>)
    requires Reaches(c, s, t, r, []) && Reaches(c, t, u, r, own)
    ensures Reaches(c, s, u, r, own)
  {
    ReachesOn(c, s, t, u, r, [], own);
    assert [] + own == own;
  }

  lemma ReachesIsCanReach(c: Config, s: State, t: State, r: ReqId, own: seq<Action>)
    requires Reaches(c, s, t, r, own)
    ensures CanReach(c, s, t)
  {
  }

  /** The arq pool: a job whose id is taken is not queued again. */
  class ArqPool {
    var jobs: map<EventId, Job>

    constructor ()
      ensures jobs == map[]
    {
      jobs := map[];
    }

    method EnqueueJob(job: Job, o: Outcome) returns (raised: bool)
      modifies this
      ensures raised == o.Failed?
      ensures jobs == if Applied(o) && job.id !in old(jobs) then old(jobs)[job.id := job] else old(jobs)
    {
      if Applied(o) && job.id !in jobs {
        jobs := jobs[job.id := job];
      }
      raised := o.Failed?;
    }
  }

  /** What others have written to Redis, as far as it can be read back now. */
  method LeaveInRedis(redis: Redis, cache: map<Key, Response>, locks: set<Key>)
    modifies redis`entries
    ensures Decodable(redis.entries) && Answers(redis.entries, redis.now, cache, locks)
  {
    redis.entries := KeyspaceOf(cache, locks, redis.now);
  }

  /** The collaborators the handler awaits: store, repository and queue. `state` records where
      the protocol is; it decides nothing a method here returns. */
  class Servers {
    const config: Config
    const store: IdempotencyStore
    const events: EventRepository
    const arq: ArqPool
    var state: State

    constructor (config: Config, store: IdempotencyStore, events: EventRepository, arq: ArqPool)
      requires store.Valid() && store.defaultTtl > 0 && store.defaultLockTtl > 0
      requires store.redis.entries == map[] && events.table == map[] && arq.jobs == map[]
      ensures this.config == config && state == INITIAL && InStep()
    {
      this.config, this.store, this.events, this.arq := config, store, events, arq;
      state := INITIAL;
    }

    /** Store, tables and queue hold what the protocol says. */
    ghost predicate InStep()
      reads this, store.redis, events, arq
    {
      && store.Valid() && store.defaultTtl > 0 && store.defaultLockTtl > 0
      && events.table == state.data.table && arq.jobs == state.data.queue
      && Answers(store.redis.entries, store.redis.now, state.data.cache, state.locks.Keys)
    }

    /** What the others have written is there. */
    method CatchUp()
      requires store.Valid() && store.defaultTtl > 0 && store.defaultLockTtl > 0
      modifies store.redis, events, arq
      ensures InStep()
    {
      events.table := state.data.table;
      arq.jobs := state.data.queue;
      LeaveInRedis(store.redis, state.data.cache, state.locks.Keys);
    }

    /** While one request is suspended, the others go on. */
    method Suspend(r: ReqId)
      requires InStep() && AtPc(state, r)
      modifies this, store.redis, events, arq
      ensures InStep() && AtPc(state, r) && state.pcs[r] == old(state.pcs[r])
      ensures state.data.requests[r] == old(state.data.requests[r])
      ensures Reaches(config, old(state), state, r, [])
    {
      ghost var nobody: seq<Action> := [];
      assert OthersOnly(nobody, r) && Legal(config, state, nobody);
      var meanwhile: seq<Action> :| OthersOnly(meanwhile, r) && Legal(config, state, meanwhile);
      RunsOfOthersLeaveARequestAlone(config, state, meanwhile, r);
      OthersHaveNoOwn(meanwhile, r);
      state := Run(config, state, meanwhile);
      CatchUp();
    }

    method Accept(r: ReqId, req: Request)
      requires InStep() && r !in state.pcs
      modifies this
      ensures InStep() && state == ArriveStep(old(state), r, req)
      ensures Reaches(config, old(state), state, r, [Arrive(r, req)])
    {
      StepReaches(config, state, Arrive(r, req), r);
      state := ArriveStep(state, r, req);
    }

    method Get(r: ReqId, key: Key, ok: bool) returns (cached: Result<Option<Response>, ()>)
      requires InStep() && AtPc(state, r) && (state.pcs[r].Arrived? || state.pcs[r].Rechecking?)
      requires key == KeyOf(state.data.requests[r])
      modifies this
      ensures cached == if ok then Success(Find(old(state).data.cache, key)) else Failure(())
      ensures InStep() && state == CacheGetStep(old(state), r, ok)
      ensures Reaches(config, old(state), state, r, [CacheGet(r, ok)])
    {
      if ok {
        var found := store.Get(key);
        cached := Success(found);
      } else {
        cached := Failure(());
      }
      StepReaches(config, state, CacheGet(r, ok), r);
      state := CacheGetStep(state, r, ok);
    }

    method Lock(r: ReqId, key: Key, o: Outcome) returns (acquired: Result<bool, ()>)
      requires InStep() && AtPc(state, r) && state.pcs[r].Locking? && key == KeyOf(state.data.requests[r])
      modifies this, store.redis
      ensures acquired == if o.Failed? then Failure(()) else Success(key !in old(state).locks)
      ensures InStep() && state == TryLockStep(old(state), r, o)
      ensures Reaches(config, old(state), state, r, [TryLock(r, o)])
    {
      acquired := store.Lock(key, None, o);
      ghost var t := TryLockStep(state, r, o);
      if Applied(o) && key !in state.locks {
        AnswersAfterLocking(old(store.redis.entries), store.redis.entries, store.redis.now,
                            state.data.cache, state.locks.Keys, key, store.redis.now + store.defaultLockTtl);
        assert t.locks.Keys == state.locks.Keys + {key};
      }
      StepReaches(config, state, TryLock(r, o), r);
      state := TryLockStep(state, r, o);
    }

    method ReadBody(r: ReqId, ok: bool, now: real) returns (body: Result<Bytes, ()>)
      requires InStep() && AtPc(state, r) && state.pcs[r].Reading?
      modifies this
      ensures body == if ok then Success(old(state).data.requests[r].body) else Failure(())
      ensures InStep() && state == ReadStep(config, old(state), r, ok, now)
      ensures Reaches(config, old(state), state, r, [Read(r, ok, now)])
    {
      body := if ok then Success(state.data.requests[r].body) else Failure(());
      StepReaches(config, state, Read(r, ok, now), r);
      state := ReadStep(config, state, r, ok, now);
    }

    /** Failure(true) is the duplicate error. */
    method CommitRow(r: ReqId, source: Source, key: Key, payload: Payload, id: EventId, o: Outcome)
      returns (row: Result<EventId, bool>)
      requires InStep() && AtPc(state, r) && state.pcs[r] == Inserting(payload)
      requires source == state.data.requests[r].source && key == KeyOf(state.data.requests[r])
      modifies this, events
      ensures row == if o.Failed? then Failure(false)
                     else if Refused(old(state).data.table, id, key) then Failure(true)
                     else Success(id)
      ensures InStep() && state == InsertStep(old(state), r, id, o)
      ensures Reaches(config, old(state), state, r, [Insert(r, id, o)])
    {
      row := events.InsertReceived(source, key, payload, id, o);
      StepReaches(config, state, Insert(r, id, o), r);
      state := InsertStep(state, r, id, o);
    }

    method RefreshRow(r: ReqId, ok: bool) returns (raised: bool)
      requires InStep() && AtPc(state, r) && state.pcs[r].Refreshing?
      modifies this
      ensures raised == !ok
      ensures InStep() && state == RefreshStep(old(state), r, ok)
      ensures Reaches(config, old(state), state, r, [Refresh(r, ok)])
    {
      raised := !ok;
      StepReaches(config, state, Refresh(r, ok), r);
      state := RefreshStep(state, r, ok);
    }

    method Enqueue(r: ReqId, job: Job, o: Outcome) returns (raised: bool)
      requires InStep() && AtPc(state, r) && state.pcs[r].Enqueueing?
      requires job == JobFor(state.data.requests[r], state.pcs[r].id, state.pcs[r].payload)
      modifies this, arq
      ensures raised == o.Failed?
      ensures InStep() && state == EnqueueStep(old(state), r, o)
      ensures Reaches(config, old(state), state, r, [EnqueueJob(r, o)])
    {
      raised := arq.EnqueueJob(job, o);
      StepReaches(config, state, EnqueueJob(r, o), r);
      state := EnqueueStep(state, r, o);
    }

    method Set(r: ReqId, key: Key, response: Response, o: Outcome) returns (raised: bool)
      requires InStep() && AtPc(state, r) && state.pcs[r].Caching?
      requires key == KeyOf(state.data.requests[r]) && response == Encode(state.pcs[r].id)
      modifies this, store.redis
      ensures raised == o.Failed?
      ensures InStep() && state == StoreStep(old(state), r, o)
      ensures Reaches(config, old(state), state, r, [StoreReply(r, o)])
    {
      raised := store.Set(key, response, None, o);
      ghost var t := StoreStep(state, r, o);
      if Applied(o) {
        AnswersAfterCaching(old(store.redis.entries), store.redis.entries, store.redis.now,
                            state.data.cache, state.locks.Keys, key, response, store.redis.now + store.defaultTtl);
      }
      StepReaches(config, state, StoreReply(r, o), r);
      state := StoreStep(state, r, o);
    }

    method Release(r: ReqId, key: Key, o: Outcome) returns (raised: bool)
      requires InStep() && AtPc(state, r) && state.pcs[r].Unlocking? && key == KeyOf(state.data.requests[r])
      modifies this, store.redis
      ensures raised == o.Failed?
      ensures InStep() && state == UnlockStep(old(state), r, o)
      ensures Reaches(config, old(state), state, r, [Unlock(r, o)])
    {
      raised := store.Unlock(key, o);
      ghost var t := UnlockStep(state, r, o);
      if Applied(o) {
        AnswersAfterFreeing(old(store.redis.entries), store.redis.entries, store.redis.now,
                            state.data.cache, state.locks.Keys, key);
        assert t.locks.Keys == state.locks.Keys - {key};
      }
      StepReaches(config, state, Unlock(r, o), r);
      state := UnlockStep(state, r, o);
    }
  }

  /** What the handler can answer besides 202 once there is a key. */
  predicate IsErrorStatus(status: int) {
    status == 401 || status == 409 || status == 422 || status == 500
  }

  /** The synchronous middle of the handler: secret, signature, parse. */
  method Check(config: Config, req: Request, body: Bytes, now: real) returns (r: Result<Payload, int>)
    requires body == req.body
    ensures r == Examine(config, req, now) && Judged(config, req, now, r)
    ensures r.Failure? ==> IsErrorStatus(r.error)
  {
    ExaminedExactly(config, req, now);
    if config.secret == "" {
      return Failure(500);
    }
    var verdict := VerifyHmac(config.mac, config.secret, body, req.signature, req.timestamp, now);
    if verdict.SignatureInvalid? || verdict.TimestampExpired? {
      return Failure(401);
    }
    if verdict.Uncaught? {
      return Failure(500);
    }
    var parsed := config.parse(req.source, body);
    match parsed {
      case Malformed => return Failure(422);
      case ParseCrash => return Failure(500);
      case Parsed(payload) => return Success(payload);
    }
  }

  // ---------- what the fate of a delivery says ----------

  /** No await raises. */
  predicate Calm(fate: Fate) {
    && fate.firstGet && fate.lock.Done? && fate.secondGet && fate.read && fate.commit.Done? && fate.refresh
    && fate.enqueue.Done? && fate.store.Done? && fate.unlock.Done?
  }

  /** What the handler can answer to a keyed request: an error for which there is a reason, a
      409 because of another request or row, or a 202. */
  predicate Justified(config: Config, req: Request, fate: Fate, reply: Reply) {
    && (reply.Rejected? ==> IsErrorStatus(reply.status))
    && (Calm(fate) && reply.Rejected? && reply.status != 409 ==>
          Judged(config, req, fate.now, Failure(reply.status)))
  }

  /** The await raised. */
  predicate Raises(a: Action) {
    match a
    case CacheGet(_, ok) => !ok
    case TryLock(_, o) => o.Failed?
    case Read(_, ok, _) => !ok
    case Insert(_, _, o) => o.Failed?
    case Refresh(_, ok) => !ok
    case EnqueueJob(_, o) => o.Failed?
    case StoreReply(_, o) => o.Failed?
    case Unlock(_, o) => o.Failed?
    case _ => false
  }

  predicate NoneRaises(own: seq<Action>) {
    forall i :: 0 <= i < |own| ==> !Raises(own[i])
  }

  /** The reply that follows from the step at which the handler turns back: 500 if it raised;
      otherwise a 202 found in the cache or stored there, a 409 for a lock or a row that is
      taken, or the refusal of the checks. */
  predicate Follows(config: Config, req: Request, at: real, a: Action, reply: Reply) {
    if Raises(a) then reply == Rejected(500)
    else if reply.Accepted? then a.CacheGet? || a.StoreReply?
    else if a.TryLock? || a.Insert? then reply.status == 409
    else a.Read? && Judged(config, req, at, Failure(reply.status))
  }

  /** That step is the last of these, and none before it raised. */
  predicate LeavesWith(config: Config, req: Request, at: real, own: seq<Action>, reply: Reply) {
    own != [] && NoneRaises(own[..|own| - 1]) && Follows(config, req, at, own[|own| - 1], reply)
  }

  /** As above, if need be with the unlock of the `finally` after it. */
  ghost predicate RepliesWith(config: Config, req: Request, at: real, own: seq<Action>, reply: Reply) {
    && own != []
    && var init, last := own[..|own| - 1], own[|own| - 1];
       if last.Unlock? then
         exists inner :: LeavesWith(config, req, at, init, inner)
                         && reply == if Raises(last) then Rejected(500) else inner
       else LeavesWith(config, req, at, own, reply)
  }

  predicate HasInsert(own: seq<Action>) {
    exists i :: 0 <= i < |own| && own[i].Insert?
  }

  lemma StepThenNoneRaises(a: Action, more: seq<Action>)
    requires !Raises(a) && NoneRaises(more)
    ensures NoneRaises([a] + more)
  {
  }

  lemma StepThenLeaves(config: Config, req: Request, at: real, a: Action, more: seq<Action>, reply: Reply)
    requires !Raises(a) && LeavesWith(config, req, at, more, reply)
    ensures LeavesWith(config, req, at, [a] + more, reply)
  {
    var own := [a] + more;
    StepThenNoneRaises(a, more[..|more| - 1]);
    assert own[..|own| - 1] == [a] + more[..|more| - 1];
  }

  lemma StepThenReplies(config: Config, req: Request, at: real, a: Action, more: seq<Action>, reply: Reply)
    requires !Raises(a) && RepliesWith(config, req, at, more, reply)
    ensures RepliesWith(config, req, at, [a] + more, reply)
  {
    var own, last := [a] + more, more[|more| - 1];
    assert own[|own| - 1] == last && own[..|own| - 1] == [a] + more[..|more| - 1];
    if last.Unlock? {
      var inner :| LeavesWith(config, req, at, more[..|more| - 1], inner)
        && reply == if Raises(last) then Rejected(500) else inner;
      StepThenLeaves(config, req, at, a, more[..|more| - 1], inner);
    } else {
      StepThenLeaves(config, req, at, a, more, reply);
    }
  }

  lemma LeavesThenUnlocks(
      config: Config, req: Request, at: real, own: seq<Action>, inner: Reply, r: ReqId, o: Outcome, reply: Reply)
    requires LeavesWith(config, req, at, own, inner)
    requires reply == if o.Failed? then Rejected(500) else inner
    ensures RepliesWith(config, req, at, own + [Unlock(r, o)], reply)
  {
    var all := own + [Unlock(r, o)];
    assert all[..|all| - 1] == own && all[|all| - 1] == Unlock(r, o);
  }

  lemma StepThenInserts(a: Action, more: seq<Action>)
    ensures HasInsert([a] + more) ==> a.Insert? || HasInsert(more)
  {
    var own := [a] + more;
    if HasInsert(own) {
      var i :| 0 <= i < |own| && own[i].Insert?;
      assert i > 0 ==> more[i - 1].Insert?;
    }
  }

  /** The steps inside `try`, if nothing ends it early. */
  function TrySteps(r: ReqId, fate: Fate): seq<Action> {
    [CacheGet(r, fate.secondGet), Read(r, fate.read, fate.now), Insert(r, fate.id, fate.commit),
     Refresh(r, fate.refresh), EnqueueJob(r, fate.enqueue), StoreReply(r, fate.store)]
  }

  lemma PrefixGoesOn(a: Action, more: seq<Action>, steps: seq<Action>)
    requires steps != [] && steps[0] == a && more <= steps[1..]
    ensures [a] + more <= steps
  {
  }

  /** `try` ended at some point, and `finally`. */
  predicate HeldSteps(own: seq<Action>, r: ReqId, fate: Fate) {
    own != [] && own[|own| - 1] == Unlock(r, fate.unlock) && own[..|own| - 1] <= TrySteps(r, fate)
  }

  predicate MissedSteps(own: seq<Action>, r: ReqId, fate: Fate) {
    own != [] && own[0] == TryLock(r, fate.lock) && (own[1..] == [] || HeldSteps(own[1..], r, fate))
  }

  predicate KeyedSteps(own: seq<Action>, r: ReqId, fate: Fate) {
    own != [] && own[0] == CacheGet(r, fate.firstGet) && (own[1..] == [] || MissedSteps(own[1..], r, fate))
  }

  /** All the steps a delivery takes, with what its awaits come to. */
  predicate HandlerSteps(own: seq<Action>, r: ReqId, req: Request, fate: Fate) {
    own != [] && own[0] == Arrive(r, req) && (own[1..] == [] || KeyedSteps(own[1..], r, fate))
  }

  lemma LeavingIsJustified(config: Config, req: Request, at: real, own: seq<Action>, reply: Reply)
    requires LeavesWith(config, req, at, own, reply) && reply.Rejected?
    ensures IsErrorStatus(reply.status)
    ensures NoneRaises(own) ==> reply.status == 409 || Judged(config, req, at, Failure(reply.status))
  {
    assert !Raises(own[|own| - 1]) || !NoneRaises(own);
  }

  lemma CalmStepsDoNotRaise(own: seq<Action>, r: ReqId, fate: Fate)
    requires KeyedSteps(own, r, fate) && Calm(fate)
    ensures NoneRaises(own)
  {
    forall i | 0 <= i < |own| ensures !Raises(own[i]) {
      if i >= 2 && i < |own| - 1 {
        assert own[1..][1..][..|own| - 3] <= TrySteps(r, fate);
        assert own[i] == TrySteps(r, fate)[i - 2];
      }
    }
  }

  /** With no await raising, an error other than a conflict is the answer of the checks. */
  lemma AnswersAreJustified(config: Config, req: Request, r: ReqId, fate: Fate, own: seq<Action>, reply: Reply)
    requires KeyedSteps(own, r, fate) && RepliesWith(config, req, fate.now, own, reply)
    ensures Justified(config, req, fate, reply)
  {
    var init, last := own[..|own| - 1], own[|own| - 1];
    if Calm(fate) {
      CalmStepsDoNotRaise(own, r, fate);
    }
    if last.Unlock? {
      var inner :| LeavesWith(config, req, fate.now, init, inner)
        && reply == if Raises(last) then Rejected(500) else inner;
      if inner.Rejected? {
        LeavingIsJustified(config, req, fate.now, init, inner);
      }
    } else if reply.Rejected? {
      LeavingIsJustified(config, req, fate.now, own, reply);
    }
  }

  /** The steps of create_received and what they lead to. */
  predicate Creates(own: seq<Action>, r: ReqId, fate: Fate, row: Result<EventId, bool>) {
    || (own == [Insert(r, fate.id, fate.commit)] && row == Failure(fate.commit.Done?))
    || (own == [Insert(r, fate.id, fate.commit), Refresh(r, fate.refresh)] && fate.commit.Done?
        && row == if fate.refresh then Success(fate.id) else Failure(false))
  }

  lemma FailedCreationLeaves(
      config: Config, req: Request, own: seq<Action>, r: ReqId, fate: Fate, row: Result<EventId, bool>)
    requires Creates(own, r, fate, row) && row.Failure?
    ensures LeavesWith(config, req, fate.now, own, Rejected(if row.error then 409 else 500))
    ensures own <= TrySteps(r, fate)[2..]
  {
  }

  /** The steps from the enqueue on and what they lead to. */
  predicate Hands(own: seq<Action>, r: ReqId, fate: Fate, id: EventId, reply: Reply) {
    && own == (if fate.enqueue.Failed? then [EnqueueJob(r, fate.enqueue)]
               else [EnqueueJob(r, fate.enqueue), StoreReply(r, fate.store)])
    && reply == if fate.enqueue.Done? && fate.store.Done? then Accepted(Encode(id)) else Rejected(500)
  }

  lemma HandingLeaves(
      config: Config, req: Request, own: seq<Action>, more: seq<Action>, r: ReqId, fate: Fate,
      id: EventId, reply: Reply)
    requires Creates(own, r, fate, Success(id)) && Hands(more, r, fate, id, reply)
    ensures LeavesWith(config, req, fate.now, own + more, reply) && own + more <= TrySteps(r, fate)[2..]
    ensures id == fate.id
  {
  }

  // ---------- the handler ----------

  /** create_received: insert, commit, read back. */
  method CreateReceived(w: Servers, r: ReqId, req: Request, payload: Payload, fate: Fate)
    returns (row: Result<EventId, bool>, ghost own: seq<Action>)
    requires w.InStep() && AtPc(w.state, r) && w.state.pcs[r] == Inserting(payload) && w.state.data.requests[r] == req
    modifies w, w.store.redis, w.events, w.arq
    ensures w.InStep() && AtPc(w.state, r) && w.state.data.requests[r] == req
    ensures Reaches(w.config, old(w.state), w.state, r, own)
    ensures Creates(own, r, fate, row)
    ensures w.state.pcs[r] == match row
      case Success(id) => Enqueueing(id, payload)
      case Failure(duplicate) => Unlocking(Rejected(if duplicate then 409 else 500))
  {
    ghost var c, before := w.config, w.state;
    row := w.CommitRow(r, req.source, KeyOf(req), payload, fate.id, fate.commit);
    own := [Insert(r, fate.id, fate.commit)];
    if row.Failure? {
      return;
    }
    ghost var after := w.state;
    w.Suspend(r);
    ReachesAlong(c, before, after, w.state, r, own);
    after := w.state;
    var raised := w.RefreshRow(r, fate.refresh);
    ReachesOn(c, before, after, w.state, r, own, [Refresh(r, fate.refresh)]);
    own := own + [Refresh(r, fate.refresh)];
    if raised {
      row := Failure(false);
    }
  }

  /** The end of the `try` body: cache the reply and give it. */
  method Publish(w: Servers, r: ReqId, req: Request, id: EventId, fate: Fate)
    returns (reply: Reply, ghost own: seq<Action>)
    requires w.InStep() && AtPc(w.state, r) && w.state.pcs[r] == Caching(id) && w.state.data.requests[r] == req
    modifies w, w.store.redis, w.events, w.arq
    ensures w.InStep() && AtPc(w.state, r) && w.state.data.requests[r] == req
    ensures w.state.pcs[r] == Unlocking(reply)
    ensures own == [StoreReply(r, fate.store)] && Reaches(w.config, old(w.state), w.state, r, own)
    ensures reply == if fate.store.Done? then Accepted(Encode(id)) else Rejected(500)
  {
    ghost var c, before := w.config, w.state;
    w.Suspend(r);
    ghost var after := w.state;
    var response := Response(202, ApplicationJson, WebhookQueued(id));
    var raised := w.Set(r, KeyOf(req), response, fate.store);
    own := [StoreReply(r, fate.store)];
    ReachesAfter(c, before, after, w.state, r, own);
    reply := if raised then Rejected(500) else Accepted(response);
  }

  /** The second half of the `try` body: enqueue, cache, answer. */
  method Hand(w: Servers, r: ReqId, req: Request, id: EventId, payload: Payload, fate: Fate)
    returns (reply: Reply, ghost own: seq<Action>)
    requires w.InStep() && AtPc(w.state, r)
    requires w.state.pcs[r] == Enqueueing(id, payload) && w.state.data.requests[r] == req
    modifies w, w.store.redis, w.events, w.arq
    ensures w.InStep() && AtPc(w.state, r) && w.state.data.requests[r] == req
    ensures w.state.pcs[r] == Unlocking(reply)
    ensures Reaches(w.config, old(w.state), w.state, r, own)
    ensures Hands(own, r, fate, id, reply)
  {
    ghost var c, before := w.config, w.state;
    w.Suspend(r);
    ghost var after, more := w.state, [];
    var raised := w.Enqueue(r, Job(id, req.source, payload, KeyOf(req)), fate.enqueue);
    own := [EnqueueJob(r, fate.enqueue)];
    ReachesAfter(c, before, after, w.state, r, own);
    if raised {
      return Rejected(500), own;
    }
    after := w.state;
    reply, more := Publish(w, r, req, id, fate);
    ReachesOn(c, before, after, w.state, r, own, more);
    own := own + more;
  }

  /** The `try` body once its body has been read and checked. */
  method Checked(w: Servers, r: ReqId, req: Request, payload: Payload, fate: Fate)
    returns (reply: Reply, ghost own: seq<Action>)
    requires w.InStep() && AtPc(w.state, r) && w.state.pcs[r] == Inserting(payload) && w.state.data.requests[r] == req
    modifies w, w.store.redis, w.events, w.arq
    ensures w.InStep() && AtPc(w.state, r) && w.state.data.requests[r] == req
    ensures w.state.pcs[r] == Unlocking(reply)
    ensures Reaches(w.config, old(w.state), w.state, r, own) && own <= TrySteps(r, fate)[2..]
    ensures LeavesWith(w.config, req, fate.now, own, reply)
    ensures reply.Accepted? ==> reply.response == Encode(fate.id)
  {
    ghost var c, before := w.config, w.state;
    w.Suspend(r);
    ghost var after := w.state;
    ghost var more: seq<Action>;
    var row;
    row, own := CreateReceived(w, r, req, payload, fate);
    ReachesAfter(c, before, after, w.state, r, own);
    if row.Failure? {
      FailedCreationLeaves(c, req, own, r, fate, row);
      return Rejected(if row.error then 409 else 500), own;
    }
    after := w.state;
    reply, more := Hand(w, r, req, row.value, payload, fate);
    ReachesOn(c, before, after, w.state, r, own, more);
    HandingLeaves(c, req, own, more, r, fate, row.value, reply);
    own := own + more;
  }

  /** The body of `try`: what leaves it, normally or by an exception, is the reply. */
  method Guarded(w: Servers, r: ReqId, req: Request, fate: Fate) returns (reply: Reply, ghost own: seq<Action>)
    requires w.InStep() && AtPc(w.state, r) && w.state.pcs[r].Rechecking? && w.state.data.requests[r] == req
    modifies w, w.store.redis, w.events, w.arq
    ensures w.InStep() && AtPc(w.state, r) && w.state.data.requests[r] == req
    ensures w.state.pcs[r] == Unlocking(reply)
    ensures Reaches(w.config, old(w.state), w.state, r, own) && own <= TrySteps(r, fate)
    ensures LeavesWith(w.config, req, fate.now, own, reply)
    ensures HasInsert(own) ==> Passes(w.config, req, fate.now)
  {
    ghost var c, before := w.config, w.state;
    var cached := w.Get(r, KeyOf(req), fate.secondGet);
    own := [CacheGet(r, fate.secondGet)];
    if cached.Failure? {
      return Rejected(500), own;
    }
    if cached.value.Some? {
      return Accepted(cached.value.value), own;
    }
    ghost var after := w.state;
    w.Suspend(r);
    ReachesAlong(c, before, after, w.state, r, own);
    after := w.state;
    ghost var more;
    reply, more := Fetched(w, r, req, fate);
    ReachesOn(c, before, after, w.state, r, own, more);
    PrefixGoesOn(own[0], more, TrySteps(r, fate));
    StepThenLeaves(c, req, fate.now, own[0], more, reply);
    StepThenInserts(own[0], more);
    own := own + more;
  }

  /** Reading the request's body, and the checks that follow without another await. */
  method Fetch(w: Servers, r: ReqId, req: Request, fate: Fate) returns (checked: Result<Payload, int>)
    requires w.InStep() && AtPc(w.state, r) && w.state.pcs[r].Reading? && w.state.data.requests[r] == req
    modifies w
    ensures w.InStep() && AtPc(w.state, r) && w.state.data.requests[r] == req
    ensures Reaches(w.config, old(w.state), w.state, r, [Read(r, fate.read, fate.now)])
    ensures if fate.read then Judged(w.config, req, fate.now, checked) else checked == Failure(500)
    ensures checked.Failure? ==> IsErrorStatus(checked.error)
    ensures w.state.pcs[r] == match checked
      case Success(payload) => Inserting(payload)
      case Failure(status) => Unlocking(Rejected(status))
  {
    var body := w.ReadBody(r, fate.read, fate.now);
    if body.Failure? {
      return Failure(500);
    }
    checked := Check(w.config, req, body.value, fate.now);
  }

  /** The `try` body from reading the request's body on. */
  method Fetched(w: Servers, r: ReqId, req: Request, fate: Fate) returns (reply: Reply, ghost own: seq<Action>)
    requires w.InStep() && AtPc(w.state, r) && w.state.pcs[r].Reading? && w.state.data.requests[r] == req
    modifies w, w.store.redis, w.events, w.arq
    ensures w.InStep() && AtPc(w.state, r) && w.state.data.requests[r] == req
    ensures w.state.pcs[r] == Unlocking(reply)
    ensures Reaches(w.config, old(w.state), w.state, r, own) && own <= TrySteps(r, fate)[1..]
    ensures LeavesWith(w.config, req, fate.now, own, reply)
    ensures HasInsert(own) ==> Passes(w.config, req, fate.now)
  {
    ghost var c, before := w.config, w.state;
    var checked := Fetch(w, r, req, fate);
    own := [Read(r, fate.read, fate.now)];
    if checked.Failure? {
      return Rejected(checked.error), own;
    }
    ghost var after, more := w.state, [];
    reply, more := Checked(w, r, req, checked.value, fate);
    ReachesOn(c, before, after, w.state, r, own, more);
    PrefixGoesOn(own[0], more, TrySteps(r, fate)[1..]);
    StepThenLeaves(c, req, fate.now, own[0], more, reply);
    StepThenInserts(own[0], more);
    ExaminedExactly(c, req, fate.now);
    own := own + more;
  }

  /** `try` and its `finally`: an exception from the unlock replaces the reply. */
  method Held(w: Servers, r: ReqId, req: Request, fate: Fate) returns (reply: Reply, ghost own: seq<Action>)
    requires w.InStep() && AtPc(w.state, r) && w.state.pcs[r].Rechecking? && w.state.data.requests[r] == req
    modifies w, w.store.redis, w.events, w.arq
    ensures w.InStep() && AtPc(w.state, r) && w.state.data.requests[r] == req && w.state.pcs[r] == Replied(reply)
    ensures Reaches(w.config, old(w.state), w.state, r, own) && HeldSteps(own, r, fate)
    ensures RepliesWith(w.config, req, fate.now, own, reply)
    ensures HasInsert(own) ==> Passes(w.config, req, fate.now)
    ensures fate.unlock.Failed? ==> reply == Rejected(500)
  {
    ghost var c, before := w.config, w.state;
    reply, own := Guarded(w, r, req, fate);
    ghost var after := w.state;
    w.Suspend(r);
    ReachesAlong(c, before, after, w.state, r, own);
    after := w.state;
    var raised := w.Release(r, KeyOf(req), fate.unlock);
    ReachesOn(c, before, after, w.state, r, own, [Unlock(r, fate.unlock)]);
    LeavesThenUnlocks(c, req, fate.now, own, reply, r, fate.unlock, if raised then Rejected(500) else reply);
    own := own + [Unlock(r, fate.unlock)];
    if raised {
      reply := Rejected(500);
    }
  }

  /** The handler after the first look into the cache. */
  method Missed(w: Servers, r: ReqId, req: Request, fate: Fate) returns (reply: Reply, ghost own: seq<Action>)
    requires w.InStep() && AtPc(w.state, r) && w.state.pcs[r].Locking? && w.state.data.requests[r] == req
    modifies w, w.store.redis, w.events, w.arq
    ensures w.InStep() && AtPc(w.state, r) && w.state.data.requests[r] == req && w.state.pcs[r] == Replied(reply)
    ensures Reaches(w.config, old(w.state), w.state, r, own) && MissedSteps(own, r, fate)
    ensures RepliesWith(w.config, req, fate.now, own, reply)
    ensures HasInsert(own) ==> Passes(w.config, req, fate.now)
    ensures fate.lock.Failed? ==> reply == Rejected(500)
  {
    ghost var c, before := w.config, w.state;
    w.Suspend(r);
    ghost var after, more := w.state, [];
    var acquired := w.Lock(r, KeyOf(req), fate.lock);
    own := [TryLock(r, fate.lock)];
    ReachesAfter(c, before, after, w.state, r, own);
    if acquired.Failure? {
      return Rejected(500), own;
    }
    if !acquired.value {
      return Rejected(409), own;
    }
    after := w.state;
    w.Suspend(r);
    ReachesAlong(c, before, after, w.state, r, own);
    after := w.state;

    reply, more := Held(w, r, req, fate);
    ReachesOn(c, before, after, w.state, r, own, more);
    StepThenReplies(c, req, fate.now, own[0], more, reply);
    StepThenInserts(own[0], more);
    own := own + more;
    assert own[1..] == more;
  }

  /** The handler from its first await on. */
  method Keyed(w: Servers, r: ReqId, req: Request, fate: Fate) returns (reply: Reply, ghost own: seq<Action>)
    requires w.InStep() && AtPc(w.state, r) && w.state.pcs[r].Arrived? && w.state.data.requests[r] == req
    modifies w, w.store.redis, w.events, w.arq
    ensures w.InStep() && AtPc(w.state, r) && w.state.data.requests[r] == req && w.state.pcs[r] == Replied(reply)
    ensures Reaches(w.config, old(w.state), w.state, r, own) && KeyedSteps(own, r, fate)
    ensures RepliesWith(w.config, req, fate.now, own, reply)
    ensures HasInsert(own) ==> Passes(w.config, req, fate.now)
    ensures !fate.firstGet ==> reply == Rejected(500)
  {
    ghost var c, before := w.config, w.state;
    w.Suspend(r);
    ghost var after, more := w.state, [];
    var cached := w.Get(r, KeyOf(req), fate.firstGet);
    own := [CacheGet(r, fate.firstGet)];
    ReachesAfter(c, before, after, w.state, r, own);
    if cached.Failure? {
      return Rejected(500), own;
    }
    if cached.value.Some? {
      return Accepted(cached.value.value), own;
    }
    after := w.state;
    reply, more := Missed(w, r, req, fate);
    ReachesOn(c, before, after, w.state, r, own, more);
    StepThenReplies(c, req, fate.now, own[0], more, reply);
    StepThenInserts(own[0], more);
    own := own + more;
    assert own[1..] == more;
  }

  /** Whatever the awaits do and whatever happens in between, the handler's run is a run of the
      protocol in which its own steps are those of the handler, in order, each with what its
      await comes to; and the reply is the one the protocol gives to this request at the end of
      them. A 202 names the one row of its key, and that row's job has been queued. If no await
      raises, an error other than 409 is what the checks found at the time they were made. */
  method ReceiveWebhook(w: Servers, r: ReqId, req: Request, fate: Fate) returns (reply: Reply, ghost own: seq<Action>)
    requires w.InStep() && Reachable(w.config, w.state) && r !in w.state.pcs
    modifies w, w.store.redis, w.events, w.arq
    ensures Reachable(w.config, w.state)
    ensures Reaches(w.config, old(w.state), w.state, r, own) && HandlerSteps(own, r, req, fate)
    ensures w.InStep() && AtPc(w.state, r) && w.state.data.requests[r] == req && w.state.pcs[r] == Replied(reply)
    ensures reply == Rejected(400) <==> req.key == None || req.key == Some("")
    ensures reply != Rejected(400) ==>
      RepliesWith(w.config, req, fate.now, own, reply) && Justified(w.config, req, fate, reply)
    ensures HasInsert(own) ==> Passes(w.config, req, fate.now)
    ensures reply.Accepted? ==> req.key.Some? && exists id ::
      Settled(w.state.data, req.key.value, id) && reply.response == Response(202, ApplicationJson, WebhookQueued(id))
  {
    ghost var c, before := w.config, w.state;
    w.Accept(r, req);
    own := [Arrive(r, req)];
    if req.key.None? || req.key.value == "" {
      reply := Rejected(400);
    } else {
      ghost var after, more := w.state, [];
      reply, more := Keyed(w, r, req, fate);
      ReachesOn(c, before, after, w.state, r, own, more);
      AnswersAreJustified(c, req, r, fate, more, reply);
      StepThenReplies(c, req, fate.now, own[0], more, reply);
      StepThenInserts(own[0], more);
      own := own + more;
      assert own[1..] == more;
    }
    ReachesIsCanReach(c, before, w.state, r, own);
    ReachedFromReachable(c, before, w.state);
    AcceptedMeansQueued(c, w.state, r);
  }

  lemma AcceptedMeansQueued(c: Config, s: State, r: ReqId)
    requires Reachable(c, s) && AtPc(s, r) && s.pcs[r].Replied?
    ensures s.pcs[r].reply.Accepted? ==>
      exists id :: Settled(s.data, KeyOf(s.data.requests[r]), id) && s.pcs[r].reply.response == Encode(id)
  {
    ReachableHasInv(c, s);
    assert PcOk(s.data, r, s.pcs[r]);
  }

  lemma ReachedFromReachable(c: Config, s: State, t: State)
    requires Reachable(c, s) && CanReach(c, s, t)
    ensures Reachable(c, t)
  {
    assert CanReach(c, INITIAL, s);
    ReachTransitive(c, INITIAL, s, t);
  }
}
