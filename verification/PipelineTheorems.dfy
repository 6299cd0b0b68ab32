/** What holds end to end, from a signed request to the targets and the dead letter table. */
module PipelineTheorems {
  import opened Prelude
  import opened Schemas
  import opened Events
  import opened Worker
  import opened WorkerInvariant
  import opened WorkerTheorems
  import opened WorkerHistory
  import opened Pipeline
  import Ingest
  import IngestInvariant
  import IngestTheorems

  /** In every interleaving each (Idempotency-Key, target position) is acknowledged at most
      once over all requests, attempts and inner retries, unless for the key an attempt was
      cut off or a mark_dispatched raised after an acknowledgement. */
  lemma OneAcknowledgementPerKeyAndTarget(
    c: Ingest.Config, st: Settings, s: State, a: EventId, b: EventId, j: nat, k: nat, i: nat)
    requires Reachable(c, st, s) && a in s.front.data.queue && b in s.front.data.queue
    requires s.front.data.queue[a].key == s.front.data.queue[b].key
    requires CellOf(s, a).intact && CellOf(s, b).intact
    requires j < |CellOf(s, a).receipts| && IsAck(CellOf(s, a).receipts[j], i)
    requires k < |CellOf(s, b).receipts| && IsAck(CellOf(s, b).receipts[k], i)
    ensures a == b && j == k
  {
    ReachableHasInv(c, st, s);
    IngestTheorems.OneRowAndOneJobPerKey(c, s.front);
    assert EventOk(st, s, a);
    assert AckOk(CellOf(s, a), i);
  }

  /** And that can only happen so: in every step of the pipeline the flag of an event falls
      exactly if the step cuts an attempt of that event off, or its mark_dispatched raises,
      after a target acknowledged it. */
  lemma IntactFallsExactlySo(c: Ingest.Config, st: Settings, s: State, a: Action, id: EventId)
    requires Inv(st, s) && Enabled(st, s, a) && CellOf(s, id).intact
    ensures !CellOf(Next(c, st, s, a), id).intact <==>
      a.Back? && a.id == id && LosesOutcome(a.w) && AnyAck(CellOf(s, id).receipts)
  {
    if a.Back? && a.id == id {
      IntactIsLostOnlyWithAnOutcome(s.front.data.queue[a.id], st, CellOf(s, a.id), a.w);
    }
  }

  /** Whatever is sent to a target for an event carries the id and the payload of the event's
      row, and that payload is the parse of the body that the row's creator sent with the
      row's key, under a signature that was the MAC of that body and of a timestamp inside the
      window when it was read. */
  lemma DeliveriesAreAuthentic(c: Ingest.Config, st: Settings, s: State, id: EventId, k: nat)
    requires Reachable(c, st, s) && id in s.front.data.queue && k < |CellOf(s, id).sent|
    ensures id in s.front.data.table
    ensures var body, row := CellOf(s, id).sent[k].body, s.front.data.table[id];
      && body.eventId == id && body.source == row.source && body.data == row.payload
      && id in s.front.data.creator
      && var r := s.front.data.creator[id];
         && r in s.front.data.requests && r in s.front.data.verified
         && var req := s.front.data.requests[r];
            && req.key == Some(row.key) && c.parse(req.source, req.body) == Ingest.Parsed(body.data)
            && Ingest.Authentic(c, req, s.front.data.verified[r].at)
  {
    ReachableHasInv(c, st, s);
    assert EventOk(st, s, id) && IngestInvariant.JobOk(s.front.data, id);
    assert FromJob(s.front.data.queue[id], st, CellOf(s, id).sent[k]);
    IngestTheorems.RowsAreAuthentic(c, s.front, id);
  }

  /** However early the worker starts, its first update finds the row. */
  lemma TheWorkerFindsItsRow(c: Ingest.Config, st: Settings, s: State, id: EventId)
    requires Reachable(c, st, s) && Enabled(st, s, Back(id, MarkProcessing(Done)))
    ensures id in s.front.data.table && Belongs(s.front.data.queue[id], s.front.data.table[id])
    ensures Next(c, st, s, Back(id, MarkProcessing(Done))).front.data.table ==
            Update(s.front.data.table, id, Processing)
    ensures Next(c, st, s, Back(id, MarkProcessing(Done))).front.data.table[id].status == PROCESSING
  {
    ReachableHasInv(c, st, s);
    assert EventOk(st, s, id);
  }

  /** A request answered with a 202 names an event that is queued, and once process_webhook
      has returned for that event, however its attempts before ended, the tables say so in one
      of exactly two ways. */
  lemma AcceptedEventsSettle(c: Ingest.Config, st: Settings, s: State, r: Ingest.ReqId)
    requires Reachable(c, st, s)
    requires r in s.front.pcs && s.front.pcs[r].Replied? && s.front.pcs[r].reply.Accepted?
    ensures var id := s.front.pcs[r].reply.response.body.eventId;
      && id in s.front.data.queue && id in s.front.data.table
      && var row := s.front.data.table[id];
         CellOf(s, id).run.Finished? ==>
           || (row.status == DISPATCHED && row.enrichment.Some? && row.lastError.None? && id !in s.dead)
           || (row.status == FAILED && row.lastError.Some? && row.dispatchAttempts == 5
               && id in s.dead && s.dead[id] == DeadLetter(row.lastError.value, 5))
  {
    ReachableHasInv(c, st, s);
    var id := s.front.pcs[r].reply.response.body.eventId;
    assert IngestInvariant.PcOk(s.front.data, r, s.front.pcs[r]);
    assert EventOk(st, s, id);
  }

  /** A row whose job was never queued stays as it was received: nothing is sent for it and
      it never gets a dead letter. */
  lemma StrandedRowsStayReceived(c: Ingest.Config, st: Settings, s: State, id: EventId)
    requires Reachable(c, st, s) && IngestTheorems.Orphan(s.front.data, id)
    ensures AsReceived(s.front.data.table[id]) && id !in s.dead && CellOf(s, id).sent == []
    ensures CellOf(s, id).run == Waiting(0) && forall w :: !Enabled(st, s, Back(id, w))
  {
    ReachableHasInv(c, st, s);
  }

  // ---------- one event at a time ----------

  /** What has happened to a queued event is a run of its own. */
  ghost predicate HasOwnRun(st: Settings, s: State, id: EventId)
    requires id in s.front.data.queue
  {
    exists works :: RunOf(s.front.data.queue[id], st, works, CellOf(s, id))
  }

  ghost predicate AllHaveOwnRuns(st: Settings, s: State) {
    forall id {:trigger HasOwnRun(st, s, id)} :: id in s.front.data.queue ==> HasOwnRun(st, s, id)
  }

  lemma BackKeepsOwnRuns(st: Settings, s: State, id: EventId, w: Work)
    requires Inv(st, s) && AllHaveOwnRuns(st, s) && Enabled(st, s, Back(id, w))
    ensures AllHaveOwnRuns(st, BackStep(st, s, id, w))
  {
    var job := s.front.data.queue[id];
    var cell := After(job, st, CellOf(s, id), w);
    var t := BackStep(st, s, id, w);
    BackIsATouch(st, s, id, w);
    if id in s.dead {
      LettersStay(job, st, CellOf(s, id), w);
    }
    forall other | other in t.front.data.queue ensures HasOwnRun(st, t, other) {
      PutChangesOneEvent(s, id, cell, other);
      assert HasOwnRun(st, s, other);
      var works :| RunOf(s.front.data.queue[other], st, works, CellOf(s, other));
      if other == id {
        WorkAppend(job, st, Queued(NewRow(job.source, job.key, job.payload)), works, w);
        assert RunOf(job, st, works + [w], cell);
      } else {
        assert RunOf(t.front.data.queue[other], st, works, CellOf(t, other));
      }
    }
  }

  lemma AddingKeepsOwnRuns(st: Settings, s: State, t: State)
    requires Inv(st, s) && AllHaveOwnRuns(st, s) && IngestInvariant.Inv(t.front)
    requires Adds(s.front.data, t.front.data) && t.dead == s.dead && t.cells == s.cells
    ensures AllHaveOwnRuns(st, t)
  {
    var d, d' := s.front.data, t.front.data;
    forall id | id in d'.queue ensures HasOwnRun(st, t, id) {
      assert IngestInvariant.JobOk(d', id);
      if id in d.queue {
        assert HasOwnRun(st, s, id) && IngestInvariant.JobOk(d, id);
        assert CellOf(t, id) == CellOf(s, id);
      } else {
        assert AsReceived(d.table[id]) && CellOf(t, id) == Queued(d.table[id]);
        assert RunOf(d'.queue[id], st, [], CellOf(t, id));
      }
    }
  }

  lemma {:induction false} RunKeepsOwnRuns(c: Ingest.Config, st: Settings, s: State, actions: seq<Action>)
    requires Inv(st, s) && AllHaveOwnRuns(st, s) && Legal(c, st, s, actions)
    ensures AllHaveOwnRuns(st, Run(c, st, s, actions))
    decreases |actions|
  {
    if actions != [] {
      var a := actions[0];
      StepKeepsInv(c, st, s, a);
      if a.Front? {
        FrontAdds(c, s.front, a.a);
        AddingKeepsOwnRuns(st, s, Next(c, st, s, a));
      } else {
        BackKeepsOwnRuns(st, s, a.id, a.w);
      }
      RunKeepsOwnRuns(c, st, Next(c, st, s, a), actions[1..]);
    }
  }

  /** In every interleaving each event fares as it would alone: what its row, its dead letter
      and its targets have seen is a run of the worker from the row as received. Everything
      proved of such runs therefore holds of every event of the pipeline. */
  lemma EveryEventFaresAsAlone(c: Ingest.Config, st: Settings, s: State, id: EventId)
    requires Reachable(c, st, s) && id in s.front.data.queue
    ensures exists works :: RunOf(s.front.data.queue[id], st, works, CellOf(s, id))
  {
    var actions :| Legal(c, st, INITIAL, actions) && Run(c, st, INITIAL, actions) == s;
    RunKeepsOwnRuns(c, st, INITIAL, actions);
    assert HasOwnRun(st, s, id);
  }

  /** So the status history of every handled event is in the lifecycle language, and no event
      ever costs more than four model calls per attempt. */
  lemma EveryEventKeepsToItsLifecycle(c: Ingest.Config, st: Settings, s: State, id: EventId)
    requires Reachable(c, st, s) && id in s.front.data.queue
    ensures CellOf(s, id).calls <= 20
    ensures CellOf(s, id).handled ==>
      && (exists n: nat :: n < MAX_TRIES && InLanguage(CellOf(s, id).trail, n))
      && id in s.front.data.table && s.front.data.table[id].dispatchAttempts == Verdicts(CellOf(s, id).trail)
  {
    EveryEventFaresAsAlone(c, st, s, id);
    var works :| RunOf(s.front.data.queue[id], st, works, CellOf(s, id));
    ModelCallsAreBounded(s.front.data.queue[id], st, works, CellOf(s, id));
    if CellOf(s, id).handled {
      LifecycleLanguage(s.front.data.queue[id], st, works, CellOf(s, id));
    }
  }

  /** The requests sent for an event are those of its run, each with the category, confidence
      and reason the model gave last before it; and a DISPATCHED row holds the last of these. */
  lemma DeliveriesCarryTheClassification(c: Ingest.Config, st: Settings, s: State, id: EventId)
    requires Reachable(c, st, s) && id in s.front.data.queue
    ensures exists works :: (
      && RunOf(s.front.data.queue[id], st, works, CellOf(s, id))
      && CellOf(s, id).sent == SentLog(s.front.data.queue[id], works)
      && (id in s.front.data.table && s.front.data.table[id].status == DISPATCHED ==>
            s.front.data.table[id].enrichment.Some?
            && Current(works) == Some(s.front.data.table[id].enrichment.value.classification)))
  {
    EveryEventFaresAsAlone(c, st, s, id);
    var works :| RunOf(s.front.data.queue[id], st, works, CellOf(s, id));
    HistoryIsThatOfTheRun(s.front.data.queue[id], st, works, CellOf(s, id));
  }

  // ---------- what the tables mean ----------

  /** A row says DISPATCHED only if its event was delivered: every result stored in it as a
      success has an acknowledgement on record, and unless there are no targets there is at
      least one. */
  lemma DispatchedRowsWereDelivered(c: Ingest.Config, st: Settings, s: State, id: EventId)
    requires Reachable(c, st, s) && id in s.front.data.table && s.front.data.table[id].status == DISPATCHED
    ensures id in s.front.data.queue && s.front.data.table[id].enrichment.Some?
    ensures var results := s.front.data.table[id].enrichment.value.results;
      |results| == |st.targets| && Vouched(results, CellOf(s, id).receipts)
    ensures st.targets != [] ==> exists i: nat :: i < |st.targets| && Acked(CellOf(s, id).receipts, i)
  {
    ReachableHasInv(c, st, s);
    EveryEventFaresAsAlone(c, st, s, id);
    var works :| RunOf(s.front.data.queue[id], st, works, CellOf(s, id));
    DispatchedMeansDelivered(s.front.data.queue[id], st, works, CellOf(s, id));
  }

  /** The event of a dead letter was acknowledged by no target, unless an outcome was lost. */
  lemma DeadEventsWereNotDelivered(c: Ingest.Config, st: Settings, s: State, id: EventId)
    requires Reachable(c, st, s) && id in s.dead && CellOf(s, id).intact
    ensures id in s.front.data.queue && !AnyAck(CellOf(s, id).receipts)
  {
    ReachableHasInv(c, st, s);
    EveryEventFaresAsAlone(c, st, s, id);
    var works :| RunOf(s.front.data.queue[id], st, works, CellOf(s, id));
    DeadLettersWereNotDelivered(s.front.data.queue[id], st, works, CellOf(s, id));
  }

  // ---------- getting to an end ----------

  function BackSteps(id: EventId, works: seq<Work>): (actions: seq<Action>)
    ensures |actions| == |works|
  {
    if works == [] then [] else [Back(id, works[0])] + BackSteps(id, works[1..])
  }

  /** What a worker can do for its event alone it can do in the pipeline. */
  lemma {:induction false} OwnRunsAreRuns(c: Ingest.Config, st: Settings, s: State, id: EventId, works: seq<Work>)
    requires Inv(st, s) && id in s.front.data.queue
    requires CanWorkAll(s.front.data.queue[id], st, CellOf(s, id), works)
    ensures Legal(c, st, s, BackSteps(id, works))
    ensures CellOf(Run(c, st, s, BackSteps(id, works)), id)
         == AfterAll(s.front.data.queue[id], st, CellOf(s, id), works)
    decreases |works|
  {
    if works != [] {
      var a, t := Back(id, works[0]), BackStep(st, s, id, works[0]);
      BackIsATouch(st, s, id, works[0]);
      if id in s.dead {
        LettersStay(s.front.data.queue[id], st, CellOf(s, id), works[0]);
      }
      PutChangesOneEvent(s, id, After(s.front.data.queue[id], st, CellOf(s, id), works[0]), id);
      StepKeepsInv(c, st, s, a);
      OwnRunsAreRuns(c, st, t, id, works[1..]);
      assert BackSteps(id, works)[1..] == BackSteps(id, works[1..]);
    }
  }

  lemma StuckEventsStay(c: Ingest.Config, st: Settings, s: State, a: Action, id: EventId)
    requires Inv(st, s) && Enabled(st, s, a) && CellOf(s, id).run == Waiting(MAX_TRIES)
    ensures CellOf(Next(c, st, s, a), id).run == Waiting(MAX_TRIES)
  {
    if a.Back? {
      assert a.id != id;
      BackIsATouch(st, s, a.id, a.w);
    }
  }

  lemma {:induction false} StuckForGood(c: Ingest.Config, st: Settings, s: State, actions: seq<Action>, id: EventId)
    requires Inv(st, s) && Legal(c, st, s, actions) && CellOf(s, id).run == Waiting(MAX_TRIES)
    ensures CellOf(Run(c, st, s, actions), id).run == Waiting(MAX_TRIES)
    decreases |actions|
  {
    if actions != [] {
      StuckEventsStay(c, st, s, actions[0], id);
      StepKeepsInv(c, st, s, actions[0]);
      StuckForGood(c, st, Next(c, st, s, actions[0]), actions[1..], id);
    }
  }

  ghost predicate CanFinish(c: Ingest.Config, st: Settings, s: State, id: EventId) {
    exists actions :: Legal(c, st, s, actions) && CellOf(Run(c, st, s, actions), id).run.Finished?
  }

  /** Whatever requests, workers and outages have done so far, some run of the pipeline gets an
      accepted event processed to its end if and only if its tries are not used up; and they
      are not, unless an attempt failed in an unforeseen way. */
  lemma AcceptedEventsCanFinish(c: Ingest.Config, st: Settings, s: State, r: Ingest.ReqId)
    requires Reachable(c, st, s)
    requires r in s.front.pcs && s.front.pcs[r].Replied? && s.front.pcs[r].reply.Accepted?
    ensures var id := s.front.pcs[r].reply.response.body.eventId;
      && (CanFinish(c, st, s, id) <==> CellOf(s, id).run != Waiting(MAX_TRIES))
      && (CellOf(s, id).handled ==> CanFinish(c, st, s, id))
  {
    ReachableHasInv(c, st, s);
    var id := s.front.pcs[r].reply.response.body.eventId;
    assert IngestInvariant.PcOk(s.front.data, r, s.front.pcs[r]);
    assert EventOk(st, s, id);
    var job, cell := s.front.data.queue[id], CellOf(s, id);
    EveryEventCanFinishUnlessOutOfTries(job, st, cell);
    if cell.run != Waiting(MAX_TRIES) {
      var works :| CanWorkAll(job, st, cell, works) && AfterAll(job, st, cell, works).run.Finished?;
      OwnRunsAreRuns(c, st, s, id, works);
      assert CanFinish(c, st, s, id);
    } else {
      forall actions | Legal(c, st, s, actions) ensures !CellOf(Run(c, st, s, actions), id).run.Finished? {
        StuckForGood(c, st, s, actions, id);
      }
    }
  }
}
