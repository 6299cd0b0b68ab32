/** What every step of the ingest protocol keeps, in the adversarial environment. */
module IngestInvariant {
  import opened Prelude
  import opened Schemas
  import opened Events
  import opened Ingest

  // Every invariant is a named fact about one row, job, cache entry or request, and the
  // quantifiers are instantiated by that name only: the facts chain from a row to its creator,
  // from there to a reply, and from there to a row again.

  // ---------- the shared data ----------

  ghost predicate KeysUnique(table: Table) {
    forall a, b {:trigger table[a], table[b]} :: a in table && b in table && table[a].key == table[b].key ==> a == b
  }

  /** The job the route queues for a row. */
  function JobOf(id: EventId, row: Row): Job {
    Job(id, row.source, row.payload, row.key)
  }

  ghost predicate JobOk(d: Data, id: EventId)
    requires id in d.queue
  {
    id in d.table && d.queue[id] == JobOf(id, d.table[id])
  }

  /** The request passed the checks, and its body parsed to `payload`. */
  ghost predicate Cleared(d: Data, r: ReqId, payload: Payload) {
    r in d.verified && d.verified[r].payload == payload
  }

  /** The row is what a request that passed the checks asked for. */
  ghost predicate RowOk(d: Data, id: EventId)
    requires id in d.table && id in d.creator
  {
    && d.creator[id] in d.requests
    && d.table[id].source == d.requests[d.creator[id]].source
    && d.table[id].key == KeyOf(d.requests[d.creator[id]])
    && Cleared(d, d.creator[id], d.table[id].payload)
  }

  /** `id` is the key's row, and it has been queued. */
  ghost predicate Settled(d: Data, key: Key, id: EventId) {
    id in d.table && d.table[id].key == key && id in d.queue
  }

  /** The response is the 202 of the key's row, and that row has been queued. */
  ghost predicate Acknowledges(d: Data, key: Key, response: Response) {
    response == Encode(response.body.eventId) && Settled(d, key, response.body.eventId)
  }

  ghost predicate DataInv(d: Data) {
    && KeysUnique(d.table)
    && d.creator.Keys == d.table.Keys
    && d.verified.Keys <= d.requests.Keys
    && (forall id {:trigger JobOk(d, id)} :: id in d.queue ==> JobOk(d, id))
    && (forall id {:trigger RowOk(d, id)} :: id in d.table ==> RowOk(d, id))
    && (forall key {:trigger Acknowledges(d, key, d.cache[key])} ::
          key in d.cache ==> Acknowledges(d, key, d.cache[key]))
  }

  // ---------- the requests ----------

  ghost predicate Owns(d: Data, r: ReqId, id: EventId, payload: Payload) {
    id in d.table && id in d.creator && d.creator[id] == r && d.table[id].payload == payload
  }

  ghost predicate ReplyOk(d: Data, key: Key, reply: Reply) {
    reply.Accepted? ==> Acknowledges(d, key, reply.response)
  }

  ghost predicate PcOk(d: Data, r: ReqId, pc: Pc) {
    && r in d.requests
    && match pc
       case Arrived => r !in d.verified
       case Locking => r !in d.verified
       case Rechecking => r !in d.verified
       case Reading => r !in d.verified
       case Inserting(payload) => Cleared(d, r, payload)
       case Refreshing(id, payload) => Owns(d, r, id, payload) && id !in d.queue
       case Enqueueing(id, payload) => Owns(d, r, id, payload) && id !in d.queue
       case Caching(id) => Settled(d, KeyOf(d.requests[r]), id)
       case Unlocking(reply) => ReplyOk(d, KeyOf(d.requests[r]), reply)
       case Replied(reply) => ReplyOk(d, KeyOf(d.requests[r]), reply)
       case Dead => true
  }

  /** Where the request that committed row `id` can be. */
  predicate PastCommit(pc: Pc, id: EventId) {
    match pc
    case Refreshing(i, _) => i == id
    case Enqueueing(i, _) => i == id
    case Caching(i) => i == id
    case Unlocking(_) => true
    case Replied(_) => true
    case Dead => true
    case _ => false
  }

  ghost predicate CreatorOk(d: Data, pcs: map<ReqId, Pc>, id: EventId)
    requires id in d.creator
  {
    d.creator[id] in pcs && PastCommit(pcs[d.creator[id]], id)
  }

  ghost predicate Inv(s: State) {
    && s.pcs.Keys == s.data.requests.Keys
    && DataInv(s.data)
    && (forall id {:trigger CreatorOk(s.data, s.pcs, id)} :: id in s.data.creator ==> CreatorOk(s.data, s.pcs, id))
    && (forall r {:trigger PcOk(s.data, r, s.pcs[r])} :: r in s.pcs ==> PcOk(s.data, r, s.pcs[r]))
  }

  // ---------- data that has only grown ----------

  ghost predicate Grown(d: Data, d': Data) {
    && d.table.Keys <= d'.table.Keys
    && d.creator.Keys <= d'.creator.Keys
    && d.requests.Keys <= d'.requests.Keys
    && d.verified.Keys <= d'.verified.Keys
    && d.queue.Keys <= d'.queue.Keys
    && (forall id {:trigger d'.table[id]} :: id in d.table ==> SameIdentity(d.table[id], d'.table[id]))
    && (forall id {:trigger d'.creator[id]} :: id in d.creator ==> d'.creator[id] == d.creator[id])
    && (forall r {:trigger d'.requests[r]} :: r in d.requests ==> d'.requests[r] == d.requests[r])
    && (forall r {:trigger d'.verified[r]} :: r in d.verified ==> d'.verified[r] == d.verified[r])
  }

  lemma SettledGrows(d: Data, d': Data, key: Key, id: EventId)
    requires Grown(d, d') && Settled(d, key, id)
    ensures Settled(d', key, id)
  {
  }

  lemma RowGrows(d: Data, d': Data, id: EventId)
    requires Grown(d, d') && id in d.table && id in d.creator && RowOk(d, id)
    ensures id in d'.table && id in d'.creator && RowOk(d', id)
  {
  }

  /** Data that has grown without a new row, job or cache entry keeps its invariant. */
  lemma DataGrows(d: Data, d': Data)
    requires DataInv(d) && Grown(d, d')
    requires d'.table.Keys == d.table.Keys && d'.creator == d.creator && d'.queue == d.queue
    requires d'.verified.Keys <= d'.requests.Keys
    requires forall key :: key in d'.cache ==> key in d.cache && d'.cache[key] == d.cache[key]
    ensures DataInv(d')
  {
    forall key | key in d'.cache ensures Acknowledges(d', key, d'.cache[key]) {
      assert Acknowledges(d, key, d.cache[key]);
      SettledGrows(d, d', key, d.cache[key].body.eventId);
    }
    forall id | id in d'.table ensures RowOk(d', id) {
      assert RowOk(d, id);
      RowGrows(d, d', id);
    }
    forall id | id in d'.queue ensures JobOk(d', id) {
      assert JobOk(d, id);
      assert SameIdentity(d.table[id], d'.table[id]);
    }
    forall a, b | a in d'.table && b in d'.table && d'.table[a].key == d'.table[b].key ensures a == b {
      assert SameIdentity(d.table[a], d'.table[a]) && SameIdentity(d.table[b], d'.table[b]);
    }
  }

  /** A request that has not moved is as well off as before. */
  lemma PcOkGrows(d: Data, d': Data, r: ReqId, pc: Pc)
    requires Grown(d, d') && PcOk(d, r, pc)
    requires r !in d.verified ==> r !in d'.verified
    requires pc.Refreshing? || pc.Enqueueing? ==> pc.id !in d'.queue
    ensures PcOk(d', r, pc)
  {
  }

  // ---------- the two shapes of a step ----------

  /** A step that only moves a request, and perhaps its lock. */
  lemma MoveKeepsInv(s: State, s': State, r: ReqId, pc: Pc)
    requires Inv(s) && r in s.pcs
    requires s'.data == s.data && s'.pcs == s.pcs[r := pc]
    requires PcOk(s.data, r, pc)
    requires forall id :: PastCommit(s.pcs[r], id) ==> PastCommit(pc, id)
    ensures Inv(s')
  {
    forall id | id in s'.data.creator ensures CreatorOk(s'.data, s'.pcs, id) {
      assert CreatorOk(s.data, s.pcs, id);
    }
    forall q | q in s'.pcs ensures PcOk(s'.data, q, s'.pcs[q]) {
      if q != r { assert PcOk(s.data, q, s.pcs[q]); }
    }
  }

  /** A step that moves a request, or brings a new one, while the data grows. */
  lemma GrowthKeepsInv(s: State, s': State, r: ReqId, pc: Pc)
    requires Inv(s)
    requires Grown(s.data, s'.data) && DataInv(s'.data)
    requires s'.pcs == s.pcs[r := pc] && s'.pcs.Keys == s'.data.requests.Keys
    requires PcOk(s'.data, r, pc)
    requires forall id :: id in s'.data.creator ==>
      id in s.data.creator || (s'.data.creator[id] == r && PastCommit(pc, id))
    requires r in s.pcs ==> forall id :: PastCommit(s.pcs[r], id) ==> PastCommit(pc, id)
    requires forall q :: q in s'.data.verified ==> q in s.data.verified || q == r
    requires forall id :: id in s'.data.queue ==>
      id in s.data.queue || (id in s.data.creator && s.data.creator[id] == r)
    ensures Inv(s')
  {
    forall id | id in s'.data.creator ensures CreatorOk(s'.data, s'.pcs, id) {
      if id in s.data.creator {
        assert CreatorOk(s.data, s.pcs, id);
        assert s'.data.creator[id] == s.data.creator[id];
      }
    }
    forall q | q in s'.pcs ensures PcOk(s'.data, q, s'.pcs[q]) {
      if q != r {
        assert PcOk(s.data, q, s.pcs[q]);
        PcOkGrows(s.data, s'.data, q, s.pcs[q]);
      }
    }
  }

  // ---------- steps that only move a request ----------

  lemma CacheGetKeepsInv(s: State, r: ReqId, ok: bool)
    requires Inv(s) && Enabled(s, CacheGet(r, ok))
    ensures Inv(CacheGetStep(s, r, ok))
  {
    var s' := CacheGetStep(s, r, ok);
    assert PcOk(s.data, r, s.pcs[r]);
    var key := KeyOf(s.data.requests[r]);
    assert key in s.data.cache ==> Acknowledges(s.data, key, s.data.cache[key]);
    MoveKeepsInv(s, s', r, s'.pcs[r]);
  }

  lemma TryLockKeepsInv(s: State, r: ReqId, o: Outcome)
    requires Inv(s) && Enabled(s, TryLock(r, o))
    ensures Inv(TryLockStep(s, r, o))
  {
    var s' := TryLockStep(s, r, o);
    assert PcOk(s.data, r, s.pcs[r]);
    MoveKeepsInv(s, s', r, s'.pcs[r]);
  }

  lemma RefreshKeepsInv(s: State, r: ReqId, ok: bool)
    requires Inv(s) && Enabled(s, Refresh(r, ok))
    ensures Inv(RefreshStep(s, r, ok))
  {
    var s' := RefreshStep(s, r, ok);
    assert PcOk(s.data, r, s.pcs[r]);
    MoveKeepsInv(s, s', r, s'.pcs[r]);
  }

  lemma UnlockKeepsInv(s: State, r: ReqId, o: Outcome)
    requires Inv(s) && Enabled(s, Unlock(r, o))
    ensures Inv(UnlockStep(s, r, o))
  {
    var s' := UnlockStep(s, r, o);
    assert PcOk(s.data, r, s.pcs[r]);
    MoveKeepsInv(s, s', r, s'.pcs[r]);
  }

  lemma DieKeepsInv(s: State, r: ReqId)
    requires Inv(s) && Enabled(s, Die(r))
    ensures Inv(Goto(s, r, Dead))
  {
    assert PcOk(s.data, r, s.pcs[r]);
    MoveKeepsInv(s, Goto(s, r, Dead), r, Dead);
  }

  // ---------- steps that change the data ----------

  lemma ArriveKeepsInv(s: State, r: ReqId, req: Request)
    requires Inv(s) && Enabled(s, Arrive(r, req))
    ensures Inv(ArriveStep(s, r, req))
  {
    var s' := ArriveStep(s, r, req);
    assert r !in s.data.requests && r !in s.data.verified;
    DataGrows(s.data, s'.data);
    GrowthKeepsInv(s, s', r, s'.pcs[r]);
  }

  lemma ClearingKeepsInv(s: State, s': State, r: ReqId, v: Verified)
    requires Inv(s) && r in s.pcs && s.pcs[r].Reading?
    requires s' == Goto(s, r, Inserting(v.payload)).(data := s.data.(verified := s.data.verified[r := v]))
    ensures Inv(s')
  {
    assert PcOk(s.data, r, s.pcs[r]);
    DataGrows(s.data, s'.data);
    GrowthKeepsInv(s, s', r, s'.pcs[r]);
  }

  lemma ReadKeepsInv(c: Config, s: State, r: ReqId, ok: bool, now: real)
    requires Inv(s) && Enabled(s, Read(r, ok, now))
    ensures Inv(ReadStep(c, s, r, ok, now))
  {
    var s' := ReadStep(c, s, r, ok, now);
    if s'.pcs[r].Inserting? {
      ClearingKeepsInv(s, s', r, Verified(now, s'.pcs[r].payload));
    } else {
      assert PcOk(s.data, r, s.pcs[r]);
      MoveKeepsInv(s, s', r, s'.pcs[r]);
    }
  }

  /** A step that moves no request: a cache entry is gone, or the worker wrote to a row. */
  lemma EnvironmentKeepsInv(s: State, d': Data)
    requires Inv(s) && Grown(s.data, d') && DataInv(d')
    requires d'.requests == s.data.requests && d'.verified == s.data.verified
    requires d'.creator == s.data.creator && d'.queue == s.data.queue
    ensures Inv(s.(data := d'))
  {
    forall id | id in d'.creator ensures CreatorOk(d', s.pcs, id) {
      assert CreatorOk(s.data, s.pcs, id);
    }
    forall q | q in s.pcs ensures PcOk(d', q, s.pcs[q]) {
      assert PcOk(s.data, q, s.pcs[q]);
      PcOkGrows(s.data, d', q, s.pcs[q]);
    }
  }

  lemma ForgetKeepsInv(s: State, key: Key)
    requires Inv(s)
    ensures Inv(s.(data := s.data.(cache := s.data.cache - {key})))
  {
    var d' := s.data.(cache := s.data.cache - {key});
    DataGrows(s.data, d');
    EnvironmentKeepsInv(s, d');
  }

  lemma TouchKeepsInv(s: State, id: EventId, row: Row)
    requires Inv(s) && Enabled(s, Touch(id, row))
    ensures Inv(s.(data := s.data.(table := s.data.table[id := row])))
  {
    var d' := s.data.(table := s.data.table[id := row]);
    DataGrows(s.data, d');
    EnvironmentKeepsInv(s, d');
  }

  lemma StoreKeepsDataInv(d: Data, d': Data, key: Key, id: EventId)
    requires DataInv(d) && Settled(d, key, id)
    requires d' == d.(cache := d.cache[key := Encode(id)])
    ensures DataInv(d') && Grown(d, d') && Acknowledges(d', key, Encode(id))
  {
    forall k | k in d'.cache ensures Acknowledges(d', k, d'.cache[k]) {
      if k != key { assert Acknowledges(d, k, d.cache[k]); }
    }
    forall i | i in d'.table ensures RowOk(d', i) {
      assert RowOk(d, i);
    }
    forall i | i in d'.queue ensures JobOk(d', i) {
      assert JobOk(d, i);
    }
  }

  lemma StoreReplyKeepsInv(s: State, r: ReqId, o: Outcome)
    requires Inv(s) && Enabled(s, StoreReply(r, o))
    ensures Inv(StoreStep(s, r, o))
  {
    var s' := StoreStep(s, r, o);
    assert PcOk(s.data, r, s.pcs[r]);
    if Applied(o) {
      StoreKeepsDataInv(s.data, s'.data, KeyOf(s.data.requests[r]), s.pcs[r].id);
      GrowthKeepsInv(s, s', r, s'.pcs[r]);
    } else {
      MoveKeepsInv(s, s', r, s'.pcs[r]);
    }
  }

  lemma CommitKeepsKeysUnique(table: Table, table': Table, id: EventId)
    requires KeysUnique(table) && id in table' && !Refused(table, id, table'[id].key)
    requires table' == table[id := table'[id]]
    ensures KeysUnique(table')
  {
  }

  lemma CommitGrows(d: Data, r: ReqId, id: EventId, payload: Payload)
    requires r in d.requests && id !in d.table && d.creator.Keys == d.table.Keys
    ensures Grown(d, Commit(d, r, id, payload))
  {
  }

  lemma CommitKeepsDataInv(d: Data, d': Data, r: ReqId, id: EventId, payload: Payload)
    requires DataInv(d) && r in d.requests && Cleared(d, r, payload)
    requires !Refused(d.table, id, KeyOf(d.requests[r]))
    requires d' == Commit(d, r, id, payload)
    ensures DataInv(d') && Grown(d, d') && id !in d'.queue
  {
    CommitKeepsKeysUnique(d.table, d'.table, id);
    CommitGrows(d, r, id, payload);
    forall k | k in d'.cache ensures Acknowledges(d', k, d'.cache[k]) {
      assert Acknowledges(d, k, d.cache[k]);
    }
    forall i | i in d'.table ensures RowOk(d', i) {
      if i != id { assert RowOk(d, i); }
    }
    forall i | i in d'.queue ensures JobOk(d', i) {
      assert JobOk(d, i);
    }
    assert id in d.queue ==> JobOk(d, id);
  }

  lemma InsertKeepsInv(s: State, r: ReqId, id: EventId, o: Outcome)
    requires Inv(s) && Enabled(s, Insert(r, id, o))
    ensures Inv(InsertStep(s, r, id, o))
  {
    var s' := InsertStep(s, r, id, o);
    assert PcOk(s.data, r, s.pcs[r]);
    if Refused(s.data.table, id, KeyOf(s.data.requests[r])) || !Applied(o) {
      MoveKeepsInv(s, s', r, s'.pcs[r]);
    } else {
      CommitKeepsDataInv(s.data, s'.data, r, id, s.pcs[r].payload);
      GrowthKeepsInv(s, s', r, s'.pcs[r]);
    }
  }

  lemma PushKeepsDataInv(d: Data, d': Data, id: EventId)
    requires DataInv(d) && id in d.table && id !in d.queue
    requires d' == d.(queue := Push(d.queue, JobOf(id, d.table[id])))
    ensures DataInv(d') && Grown(d, d')
  {
    forall k | k in d'.cache ensures Acknowledges(d', k, d'.cache[k]) {
      assert Acknowledges(d, k, d.cache[k]);
    }
    forall i | i in d'.table ensures RowOk(d', i) {
      assert RowOk(d, i);
    }
    forall i | i in d'.queue ensures JobOk(d', i) {
      if i != id { assert JobOk(d, i); }
    }
  }

  lemma EnqueueJobKeepsInv(s: State, r: ReqId, o: Outcome)
    requires Inv(s) && Enabled(s, EnqueueJob(r, o))
    ensures Inv(EnqueueStep(s, r, o))
  {
    var s' := EnqueueStep(s, r, o);
    var id := s.pcs[r].id;
    assert PcOk(s.data, r, s.pcs[r]);
    if Applied(o) {
      assert RowOk(s.data, id);
      PushKeepsDataInv(s.data, s'.data, id);
      GrowthKeepsInv(s, s', r, s'.pcs[r]);
    } else {
      MoveKeepsInv(s, s', r, s'.pcs[r]);
    }
  }

  // ---------- every step, every run ----------

  lemma StepKeepsInv(c: Config, s: State, a: Action)
    requires Inv(s) && Enabled(s, a)
    ensures Inv(Next(c, s, a))
  {
    match a
    case Arrive(r, req) => ArriveKeepsInv(s, r, req);
    case CacheGet(r, ok) => CacheGetKeepsInv(s, r, ok);
    case TryLock(r, o) => TryLockKeepsInv(s, r, o);
    case Read(r, ok, now) => ReadKeepsInv(c, s, r, ok, now);
    case Insert(r, id, o) => InsertKeepsInv(s, r, id, o);
    case Refresh(r, ok) => RefreshKeepsInv(s, r, ok);
    case EnqueueJob(r, o) => EnqueueJobKeepsInv(s, r, o);
    case StoreReply(r, o) => StoreReplyKeepsInv(s, r, o);
    case Unlock(r, o) => UnlockKeepsInv(s, r, o);
    case Die(r) => DieKeepsInv(s, r);
    case Forget(key) => ForgetKeepsInv(s, key);
    case DropLock(key) =>
    case Touch(id, row) => TouchKeepsInv(s, id, row);
  }

  /** A request on record as having passed was authentic then, and its body parses to what is
      on record. */
  ghost predicate Honest(c: Config, d: Data, r: ReqId)
    requires r in d.verified
  {
    && r in d.requests && Authentic(c, d.requests[r], d.verified[r].at)
    && c.parse(d.requests[r].source, d.requests[r].body) == Parsed(d.verified[r].payload)
  }

  ghost predicate AllHonest(c: Config, d: Data) {
    forall r {:trigger Honest(c, d, r)} :: r in d.verified ==> Honest(c, d, r)
  }

  lemma ReadKeepsHonesty(c: Config, s: State, r: ReqId, ok: bool, now: real)
    requires AllHonest(c, s.data) && Enabled(s, Read(r, ok, now))
    ensures AllHonest(c, ReadStep(c, s, r, ok, now).data)
  {
    var d' := ReadStep(c, s, r, ok, now).data;
    ExaminedExactly(c, s.data.requests[r], now);
    forall q | q in d'.verified ensures Honest(c, d', q) {
      if q != r || d' == s.data { assert Honest(c, s.data, q); }
    }
  }

  /** Only arriving and being read change what is known about requests. */
  lemma OthersLeaveRequestsAlone(c: Config, s: State, a: Action)
    requires Enabled(s, a) && !a.Arrive? && !a.Read?
    ensures Next(c, s, a).data.requests == s.data.requests
    ensures Next(c, s, a).data.verified == s.data.verified
  {
  }

  lemma StepKeepsHonesty(c: Config, s: State, a: Action)
    requires AllHonest(c, s.data) && Enabled(s, a) && s.pcs.Keys == s.data.requests.Keys
    ensures AllHonest(c, Next(c, s, a).data)
  {
    match a
    case Arrive(r, req) => HonestyGrows(c, s.data, ArriveStep(s, r, req).data);
    case Read(r, ok, now) => ReadKeepsHonesty(c, s, r, ok, now);
    case _ =>
      OthersLeaveRequestsAlone(c, s, a);
      HonestyStays(c, s.data, Next(c, s, a).data);
  }

  lemma HonestyStays(c: Config, d: Data, d': Data)
    requires AllHonest(c, d)
    requires d'.verified == d.verified && d'.requests == d.requests
    ensures AllHonest(c, d')
  {
    HonestyGrows(c, d, d');
  }

  lemma HonestyGrows(c: Config, d: Data, d': Data)
    requires AllHonest(c, d)
    requires d'.verified == d.verified
    requires forall r :: r in d.requests ==> r in d'.requests && d'.requests[r] == d.requests[r]
    ensures AllHonest(c, d')
  {
    forall q | q in d'.verified ensures Honest(c, d', q) {
      assert Honest(c, d, q);
    }
  }

  lemma {:induction false} RunKeepsInv(c: Config, s: State, actions: seq<Action>)
    requires Inv(s) && AllHonest(c, s.data) && Legal(c, s, actions)
    ensures Inv(Run(c, s, actions)) && AllHonest(c, Run(c, s, actions).data)
    decreases |actions|
  {
    if actions != [] {
      StepKeepsInv(c, s, actions[0]);
      StepKeepsHonesty(c, s, actions[0]);
      RunKeepsInv(c, Next(c, s, actions[0]), actions[1..]);
    }
  }

  lemma ReachableHasInv(c: Config, s: State)
    requires Reachable(c, s)
    ensures Inv(s) && AllHonest(c, s.data)
  {
    var actions :| Legal(c, INITIAL, actions) && Run(c, INITIAL, actions) == s;
    RunKeepsInv(c, INITIAL, actions);
  }
}
