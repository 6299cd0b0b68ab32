/** What holds of every reachable state and every run of the ingest protocol, with no help
    from the lock. */
module IngestTheorems {
  import opened Prelude
  import opened Schemas
  import opened Security
  import opened Events
  import opened Ingest
  import opened IngestInvariant

  // ---------- one row, one job, one reply per key ----------

  lemma OneRowAndOneJobPerKey(c: Config, s: State)
    requires Reachable(c, s)
    ensures forall a, b ::
      a in s.data.table && b in s.data.table && s.data.table[a].key == s.data.table[b].key ==> a == b
    ensures forall a, b ::
      a in s.data.queue && b in s.data.queue && s.data.queue[a].key == s.data.queue[b].key ==> a == b
    ensures forall id :: id in s.data.queue ==>
      && id in s.data.table
      && s.data.queue[id] == Job(id, s.data.table[id].source, s.data.table[id].payload, s.data.table[id].key)
  {
    ReachableHasInv(c, s);
    forall id | id in s.data.queue ensures id in s.data.table && s.data.queue[id] == JobOf(id, s.data.table[id]) {
      assert JobOk(s.data, id);
    }
  }

  /** A request about to queue a job is the first to do so for that id and for that key: the
      queue's own deduplication never has anything to do. */
  lemma DeduplicationIsNeverNeeded(c: Config, s: State, r: ReqId)
    requires Reachable(c, s) && r in s.pcs && s.pcs[r].Enqueueing?
    ensures r in s.data.requests && s.pcs[r].id !in s.data.queue
    ensures forall id :: id in s.data.queue ==> s.data.queue[id].key != KeyOf(s.data.requests[r])
  {
    ReachableHasInv(c, s);
    assert PcOk(s.data, r, s.pcs[r]);
    assert RowOk(s.data, s.pcs[r].id);
    forall id | id in s.data.queue ensures s.data.queue[id].key != KeyOf(s.data.requests[r]) {
      assert JobOk(s.data, id);
    }
  }

  /** Every 202 for a key, fresh or cached, is the 202 of the key's only row. */
  lemma AcceptedRepliesAgree(c: Config, s: State, r: ReqId, q: ReqId)
    requires Reachable(c, s)
    requires r in s.pcs && s.pcs[r].Replied? && s.pcs[r].reply.Accepted?
    requires q in s.pcs && s.pcs[q].Replied? && s.pcs[q].reply.Accepted?
    requires r in s.data.requests && q in s.data.requests
    requires KeyOf(s.data.requests[r]) == KeyOf(s.data.requests[q])
    ensures s.pcs[r].reply.response == s.pcs[q].reply.response
    ensures exists id :: id in s.data.table && s.data.table[id].key == KeyOf(s.data.requests[r])
                         && s.pcs[r].reply.response == Response(202, ApplicationJson, WebhookQueued(id))
  {
    ReachableHasInv(c, s);
    assert PcOk(s.data, r, s.pcs[r]) && PcOk(s.data, q, s.pcs[q]);
  }

  lemma CacheHoldsTheReplyOfTheRow(c: Config, s: State, key: Key)
    requires Reachable(c, s) && key in s.data.cache
    ensures exists id :: id in s.data.table && s.data.table[id].key == key
                         && s.data.cache[key] == Response(202, ApplicationJson, WebhookQueued(id))
  {
    ReachableHasInv(c, s);
    assert Acknowledges(s.data, key, s.data.cache[key]);
  }

  // ---------- what time does not undo ----------

  /** Rows keep their identity, jobs stay queued, replies stay given. */
  ghost predicate Later(s: State, s': State) {
    && Grown(s.data, s'.data)
    && forall r :: r in s.pcs && !Live(s.pcs[r]) ==> r in s'.pcs && s'.pcs[r] == s.pcs[r]
  }

  lemma InsertGrows(s: State, r: ReqId, id: EventId, o: Outcome)
    requires Inv(s) && Enabled(s, Insert(r, id, o))
    ensures Grown(s.data, InsertStep(s, r, id, o).data)
  {
    if id !in s.data.table {
      CommitGrows(s.data, r, id, s.pcs[r].payload);
    }
  }

  lemma EnqueueGrows(s: State, r: ReqId, o: Outcome)
    requires Inv(s) && Enabled(s, EnqueueJob(r, o))
    ensures Grown(s.data, EnqueueStep(s, r, o).data)
  {
  }

  lemma ReadGrows(c: Config, s: State, r: ReqId, ok: bool, now: real)
    requires Inv(s) && Enabled(s, Read(r, ok, now))
    ensures Grown(s.data, ReadStep(c, s, r, ok, now).data)
  {
    assert PcOk(s.data, r, s.pcs[r]);
  }

  lemma ArriveGrows(s: State, r: ReqId, req: Request)
    requires Inv(s) && Enabled(s, Arrive(r, req))
    ensures Grown(s.data, ArriveStep(s, r, req).data)
  {
  }

  lemma OthersTouchOnlyTheCache(c: Config, s: State, a: Action)
    requires Enabled(s, a)
    requires !a.Arrive? && !a.Read? && !a.Insert? && !a.EnqueueJob? && !a.Touch?
    ensures Next(c, s, a).data == s.data.(cache := Next(c, s, a).data.cache)
  {
  }

  lemma DataStepGrows(c: Config, s: State, a: Action)
    requires Inv(s) && Enabled(s, a)
    ensures Grown(s.data, Next(c, s, a).data)
  {
    match a
    case Arrive(r, req) => ArriveGrows(s, r, req);
    case Read(r, ok, now) => ReadGrows(c, s, r, ok, now);
    case Insert(r, id, o) => InsertGrows(s, r, id, o);
    case EnqueueJob(r, o) => EnqueueGrows(s, r, o);
    case Touch(id, row) =>
    case _ => OthersTouchOnlyTheCache(c, s, a);
  }

  /** Only a request that is still there moves. */
  lemma OnlyLiveRequestsMove(c: Config, s: State, a: Action, r: ReqId)
    requires Enabled(s, a) && r in s.pcs && !Live(s.pcs[r])
    ensures r in Next(c, s, a).pcs && Next(c, s, a).pcs[r] == s.pcs[r]
  {
  }

  lemma StepIsLater(c: Config, s: State, a: Action)
    requires Inv(s) && Enabled(s, a)
    ensures Later(s, Next(c, s, a))
  {
    DataStepGrows(c, s, a);
    forall r | r in s.pcs && !Live(s.pcs[r]) ensures r in Next(c, s, a).pcs && Next(c, s, a).pcs[r] == s.pcs[r] {
      OnlyLiveRequestsMove(c, s, a, r);
    }
  }

  lemma LaterIsTransitive(s: State, t: State, u: State)
    requires Later(s, t) && Later(t, u)
    ensures Later(s, u)
  {
  }

  lemma {:induction false} RunIsLater(c: Config, s: State, actions: seq<Action>)
    requires Inv(s) && Legal(c, s, actions)
    ensures Inv(Run(c, s, actions)) && Later(s, Run(c, s, actions))
    decreases |actions|
  {
    if actions != [] {
      var t := Next(c, s, actions[0]);
      StepKeepsInv(c, s, actions[0]);
      StepIsLater(c, s, actions[0]);
      RunIsLater(c, t, actions[1..]);
      LaterIsTransitive(s, t, Run(c, s, actions));
    }
  }

  /** A key that was once answered with a 202 is answered with no other, ever. */
  lemma AnswersNeverChange(c: Config, s: State, actions: seq<Action>, r: ReqId, q: ReqId)
    requires Inv(s) && Legal(c, s, actions)
    requires r in s.pcs && s.pcs[r].Replied? && s.pcs[r].reply.Accepted?
    requires var t := Run(c, s, actions);
      q in t.pcs && t.pcs[q].Replied? && t.pcs[q].reply.Accepted? && q in t.data.requests
      && KeyOf(t.data.requests[q]) == KeyOf(s.data.requests[r])
    ensures Run(c, s, actions).pcs[q].reply == s.pcs[r].reply
  {
    var t := Run(c, s, actions);
    RunIsLater(c, s, actions);
    assert t.pcs[r] == s.pcs[r] && t.data.requests[r] == s.data.requests[r];
    assert PcOk(t.data, r, t.pcs[r]) && PcOk(t.data, q, t.pcs[q]);
  }

  // ---------- rows without a job ----------

  ghost predicate Orphan(d: Data, id: EventId) {
    id in d.table && id !in d.queue
  }

  /** Gone, or on the way out with an error. */
  predicate Stopped(pc: Pc) {
    pc.Dead? || ((pc.Unlocking? || pc.Replied?) && pc.reply.Rejected?)
  }

  ghost predicate CreatorStopped(s: State, id: EventId) {
    id in s.data.creator && s.data.creator[id] in s.pcs && Stopped(s.pcs[s.data.creator[id]])
  }

  /** A row has no job only while its creator is between commit and enqueue, or stopped. */
  lemma OrphansHaveAReason(c: Config, s: State, id: EventId)
    requires Reachable(c, s) && Orphan(s.data, id)
    ensures id in s.data.creator && s.data.creator[id] in s.pcs
    ensures var pc := s.pcs[s.data.creator[id]];
      Stopped(pc) || ((pc.Refreshing? || pc.Enqueueing?) && pc.id == id)
  {
    ReachableHasInv(c, s);
    OrphansHaveAReasonInv(s, id);
  }

  lemma OrphansHaveAReasonInv(s: State, id: EventId)
    requires Inv(s) && Orphan(s.data, id)
    ensures id in s.data.creator && s.data.creator[id] in s.pcs
    ensures var pc := s.pcs[s.data.creator[id]];
      Stopped(pc) || ((pc.Refreshing? || pc.Enqueueing?) && pc.id == id)
  {
    var r := s.data.creator[id];
    assert CreatorOk(s.data, s.pcs, id) && RowOk(s.data, id);
    assert PcOk(s.data, r, s.pcs[r]);
  }

  /** Only the insert brings rows and only the enqueue brings jobs. */
  lemma OthersBringNoRowAndNoJob(c: Config, s: State, a: Action)
    requires Enabled(s, a) && !a.Insert? && !a.EnqueueJob?
    ensures Next(c, s, a).data.table.Keys == s.data.table.Keys
    ensures Next(c, s, a).data.queue == s.data.queue
  {
  }

  lemma EnqueueSettlesItsOwn(s: State, r: ReqId, o: Outcome, id: EventId)
    requires Inv(s) && Enabled(s, EnqueueJob(r, o))
    ensures Orphan(EnqueueStep(s, r, o).data, id) <==> Orphan(s.data, id) && !(Applied(o) && s.pcs[r].id == id)
  {
  }

  lemma InsertOrphansItsOwn(s: State, r: ReqId, newId: EventId, o: Outcome, id: EventId)
    requires Inv(s) && Enabled(s, Insert(r, newId, o))
    ensures Orphan(InsertStep(s, r, newId, o).data, id) <==>
      Orphan(s.data, id) || (id !in s.data.table && id in InsertStep(s, r, newId, o).data.table)
  {
    assert id in s.data.queue ==> JobOk(s.data, id);
  }

  /** A row becomes an orphan exactly when it is committed, and stops being one exactly when
      its creator's enqueue takes effect. */
  lemma OrphanTransitions(c: Config, s: State, a: Action, id: EventId)
    requires Inv(s) && Enabled(s, a)
    ensures Orphan(Next(c, s, a).data, id) <==>
      || (Orphan(s.data, id) && !(a.EnqueueJob? && Applied(a.o) && s.pcs[a.r].id == id))
      || (id !in s.data.table && id in Next(c, s, a).data.table)
  {
    match a
    case Insert(r, newId, o) => InsertOrphansItsOwn(s, r, newId, o, id);
    case EnqueueJob(r, o) => EnqueueSettlesItsOwn(s, r, o, id);
    case _ => OthersBringNoRowAndNoJob(c, s, a);
  }

  lemma StoppedStaysStopped(c: Config, s: State, a: Action, r: ReqId)
    requires Enabled(s, a) && r in s.pcs && Stopped(s.pcs[r])
    ensures r in Next(c, s, a).pcs && Stopped(Next(c, s, a).pcs[r])
  {
  }

  lemma StoppedOrphanStep(c: Config, s: State, a: Action, id: EventId)
    requires Inv(s) && Enabled(s, a) && Orphan(s.data, id) && CreatorStopped(s, id)
    ensures Orphan(Next(c, s, a).data, id) && CreatorStopped(Next(c, s, a), id)
  {
    var r := s.data.creator[id];
    OrphanTransitions(c, s, a, id);
    DataStepGrows(c, s, a);
    assert Next(c, s, a).data.creator[id] == r;
    if a.EnqueueJob? {
      assert PcOk(s.data, a.r, s.pcs[a.r]);
    }
    StoppedStaysStopped(c, s, a, r);
  }

  /** Once the creator of a row without a job has stopped, that is final: whatever happens
      later, the key is never queued and no request for it is ever answered with a 202. */
  lemma {:induction false} StoppedOrphansStay(c: Config, s: State, actions: seq<Action>, id: EventId)
    requires Inv(s) && Legal(c, s, actions)
    requires Orphan(s.data, id) && CreatorStopped(s, id)
    ensures var t := Run(c, s, actions); var key := s.data.table[id].key;
      && Orphan(t.data, id) && t.data.table[id].key == key
      && (forall i :: i in t.data.queue ==> t.data.queue[i].key != key)
      && key !in t.data.cache
      && (forall r :: r in t.pcs && r in t.data.requests && t.pcs[r].Replied? && KeyOf(t.data.requests[r]) == key ==>
            t.pcs[r].reply.Rejected?)
    decreases |actions|
  {
    var key := s.data.table[id].key;
    if actions == [] {
      forall i | i in s.data.queue ensures s.data.queue[i].key != key {
        assert JobOk(s.data, i);
      }
      assert key in s.data.cache ==> Acknowledges(s.data, key, s.data.cache[key]);
      forall r | r in s.pcs && r in s.data.requests && s.pcs[r].Replied? && KeyOf(s.data.requests[r]) == key
        ensures s.pcs[r].reply.Rejected?
      {
        assert PcOk(s.data, r, s.pcs[r]);
      }
    } else {
      var t := Next(c, s, actions[0]);
      StepKeepsInv(c, s, actions[0]);
      StepIsLater(c, s, actions[0]);
      StoppedOrphanStep(c, s, actions[0], id);
      assert SameIdentity(s.data.table[id], t.data.table[id]);
      StoppedOrphansStay(c, t, actions[1..], id);
    }
  }

  /** An enqueue that raises without effect strands the key in just this way. */
  lemma FailedEnqueueStrandsTheKey(s: State, r: ReqId)
    requires Inv(s) && Enabled(s, EnqueueJob(r, Failed(false)))
    ensures var t, id := EnqueueStep(s, r, Failed(false)), s.pcs[r].id;
      Orphan(t.data, id) && CreatorStopped(t, id)
  {
    assert PcOk(s.data, r, s.pcs[r]);
  }

  /** Once a key has a row, every insert for the key in any later state is refused, changes
      nothing and leads out of the handler: no retry ever reaches the enqueue. */
  lemma RetriesAreRefused(
      c: Config, s: State, actions: seq<Action>, id: EventId, r: ReqId, newId: EventId, o: Outcome)
    requires Inv(s) && Legal(c, s, actions) && id in s.data.table
    requires Enabled(Run(c, s, actions), Insert(r, newId, o))
    requires KeyOf(Run(c, s, actions).data.requests[r]) == s.data.table[id].key
    ensures var t := Run(c, s, actions); var u := InsertStep(t, r, newId, o);
      u.data == t.data && u.pcs[r] == Unlocking(Rejected(if o.Done? then 409 else 500))
  {
    RunIsLater(c, s, actions);
    assert SameIdentity(s.data.table[id], Run(c, s, actions).data.table[id]);
  }

  // ---------- where a row's payload comes from ----------

  /** Requests that are under way or got through the checks have a key. */
  ghost predicate KeysPresent(s: State) {
    && (forall r :: r in s.pcs && r in s.data.requests && Live(s.pcs[r]) ==> KeyOf(s.data.requests[r]) != "")
    && (forall r :: r in s.data.verified && r in s.data.requests ==> KeyOf(s.data.requests[r]) != "")
  }

  lemma OthersStartNothing(c: Config, s: State, a: Action, r: ReqId)
    requires Enabled(s, a) && !a.Arrive? && r in Next(c, s, a).pcs && Live(Next(c, s, a).pcs[r])
    ensures r in s.pcs && Live(s.pcs[r]) && Next(c, s, a).data.requests == s.data.requests
  {
  }

  lemma OnlyLiveRequestsAreVerified(c: Config, s: State, a: Action, r: ReqId)
    requires Enabled(s, a) && r in Next(c, s, a).data.verified
    ensures r in s.data.verified || (AtPc(s, r) && Live(s.pcs[r]) && Next(c, s, a).data.requests == s.data.requests)
  {
  }

  lemma StepKeepsKeysPresent(c: Config, s: State, a: Action)
    requires Inv(s) && KeysPresent(s) && Enabled(s, a)
    ensures KeysPresent(Next(c, s, a))
  {
    var t := Next(c, s, a);
    DataStepGrows(c, s, a);
    forall r | r in t.pcs && r in t.data.requests && Live(t.pcs[r]) ensures KeyOf(t.data.requests[r]) != "" {
      if !a.Arrive? {
        OthersStartNothing(c, s, a, r);
      } else if r != a.r {
        assert t.data.requests[r] == s.data.requests[r];
      }
    }
    forall r | r in t.data.verified && r in t.data.requests ensures KeyOf(t.data.requests[r]) != "" {
      OnlyLiveRequestsAreVerified(c, s, a, r);
    }
  }

  lemma {:induction false} RunKeepsKeysPresent(c: Config, s: State, actions: seq<Action>)
    requires Inv(s) && KeysPresent(s) && Legal(c, s, actions)
    ensures KeysPresent(Run(c, s, actions))
    decreases |actions|
  {
    if actions != [] {
      StepKeepsInv(c, s, actions[0]);
      StepKeepsKeysPresent(c, s, actions[0]);
      RunKeepsKeysPresent(c, Next(c, s, actions[0]), actions[1..]);
    }
  }

  /** Every row holds the parse of a body whose signature was the MAC, under the secret, of
      that body and a timestamp inside the window, at the time it was read, for the source and
      the Idempotency-Key header of its request. */
  lemma RowsAreAuthentic(c: Config, s: State, id: EventId)
    requires Reachable(c, s) && id in s.data.table
    ensures id in s.data.creator
    ensures var r, row := s.data.creator[id], s.data.table[id];
      && r in s.data.requests && r in s.data.verified
      && var req := s.data.requests[r];
         && req.key == Some(row.key) && row.key != "" && row.source == req.source
         && c.parse(req.source, req.body) == Parsed(row.payload)
         && Authentic(c, req, s.data.verified[r].at)
  {
    var actions :| Legal(c, INITIAL, actions) && Run(c, INITIAL, actions) == s;
    RunKeepsKeysPresent(c, INITIAL, actions);
    ReachableHasInv(c, s);
    assert RowOk(s.data, id);
    assert Honest(c, s.data, s.data.creator[id]);
  }
}
