/**
 process_webhook as it is written (workers/tasks.py): the body of one attempt, over the repository,
 the model client and the fan-out. Each run of it is a run of the state machine of module
 Worker, so what is proved there of all runs holds of the code.
 */
module Tasks {
  import opened Prelude
  import opened Schemas
  import opened Events
  import opened RetryLoop
  import opened FanOut
  import opened Worker
  import opened WorkerTheorems
  import Llm

  datatype Summary = Summary(eventId: EventId, category: Option<Category>, dispatchCount: nat, succeeded: nat)

  datatype TaskEnd = Returned(summary: Summary) | Threw

  /** How the statements of one attempt end. */
  datatype Fate = Fate(processing: Outcome, failed: Outcome, buried: Outcome, dispatched: Outcome)

  /** The tables hold what the machine says about the event. */
  ghost predicate Mirrors(events: EventRepository, id: EventId, cell: Cell)
    reads events
  {
    cell.row == Find(events.table, id) && cell.letter == Find(events.dead, id)
  }

  /** Nothing else in the tables has changed. */
  ghost predicate OthersAlone(
      before: Table, after: Table, lettersBefore: DeadLetters, lettersAfter: DeadLetters, id: EventId)
  {
    && (forall other :: other != id ==> Find(after, other) == Find(before, other))
    && (forall other :: other != id ==> Find(lettersAfter, other) == Find(lettersBefore, other))
  }

  /** The steps of _handle_failure: the dead letter follows only on the last attempt, and only
      if marking the row did not raise. */
  function FailureWorks(fate: Fate, jobTry: nat): seq<Work> {
    [MarkFailed(fate.failed)] + if fate.failed.Done? && jobTry >= MAX_TRIES then [Bury(fate.buried)] else []
  }

  /** When _handle_failure raises. */
  predicate FailureRaises(fate: Fate, jobTry: nat, cell: Cell) {
    || fate.failed.Failed?
    || (jobTry >= MAX_TRIES && (cell.letter.Some? || cell.row.None? || fate.buried.Failed?))
  }

  /** What _handle_failure leaves of row and dead letter, column by column. */
  ghost predicate FailureLeaves(before: Cell, after: Cell, fate: Fate, jobTry: nat, error: string) {
    && (before.row.Some? && Applied(fate.failed) ==>
          var row := before.row.value;
          after.row == Some(Row(row.source, row.key, row.payload, FAILED, row.enrichment, jobTry, Some(error))))
    && (before.row.None? || !Applied(fate.failed) ==> after.row == before.row)
    && after.letter ==
         if fate.failed.Done? && jobTry >= 5 && before.letter.None? && before.row.Some? && Applied(fate.buried)
         then Some(DeadLetter(error, jobTry)) else before.letter
  }

  /** Marks the event failed and, on the last attempt, writes its dead letter. */
  method HandleFailure(
      events: EventRepository, job: Job, error: string, jobTry: nat, fate: Fate, ghost st: Settings, ghost cell: Cell)
    returns (raised: bool, ghost works: seq<Work>)
    requires Mirrors(events, job.id, cell) && cell.run == Trying(jobTry, Failing(error))
    modifies events
    ensures OthersAlone(old(events.table), events.table, old(events.dead), events.dead, job.id)
    ensures events.table == if Applied(fate.failed)
      then Update(old(events.table), job.id, row => FailedRow(row, error, jobTry)) else old(events.table)
    ensures jobTry < MAX_TRIES ==> events.dead == old(events.dead)
    ensures !raised && jobTry >= MAX_TRIES ==>
      job.id !in old(events.dead) && events.dead == old(events.dead)[job.id := DeadLetter(error, jobTry)]
    ensures raised <==> FailureRaises(fate, jobTry, cell)
    ensures works == FailureWorks(fate, jobTry) && CanWorkAll(job, st, cell, works)
    ensures var end := AfterAll(job, st, cell, works);
      && Mirrors(events, job.id, end)
      && end.run == (if raised || jobTry < MAX_TRIES then Waiting(jobTry) else Trying(jobTry, Returning(false)))
      && (end.handled <==> cell.handled && !raised)
      && FailureLeaves(cell, end, fate, jobTry, error) && end.sent == cell.sent
  {
    works := [];
    ghost var now := cell;
    raised := events.MarkFailed(job.id, error, jobTry, fate.failed);
    WorkAppend(job, st, cell, works, MarkFailed(fate.failed));
    works, now := works + [MarkFailed(fate.failed)], After(job, st, now, MarkFailed(fate.failed));
    if raised {
      return;
    }
    if jobTry >= MAX_TRIES {
      raised := events.InsertDeadLetter(job.id, error, jobTry, fate.buried);
      WorkAppend(job, st, cell, works, Bury(fate.buried));
      works, now := works + [Bury(fate.buried)], After(job, st, now, Bury(fate.buried));
    }
  }

  // ---------- the fan-out ----------

  /** The machine's event in the middle of a fan-out. */
  function Amid(cell: Cell, e: Enrichment, slots: seq<Slot>, sent: seq<Delivery>, receipts: seq<Receipt>): Cell
    requires cell.run.Trying?
  {
    cell.(run := Trying(cell.run.attempt, Fanning(e, slots)), sent := sent, receipts := receipts)
  }

  predicate AllIdle(slots: seq<Slot>) {
    forall i :: 0 <= i < |slots| ==> !slots[i].out
  }

  /** A request and its reply take one coroutine one step along its script. */
  lemma RequestIsARun(job: Job, st: Settings, cell: Cell, e: Enrichment, slots: seq<Slot>, sent: seq<Delivery>,
                      receipts: seq<Receipt>, i: nat, p: Probe)
    requires cell.run.Trying? && i < |slots| && slots[i].loop.Running? && !slots[i].out
    ensures var works := [Send(i), Receive(i, p)];
      && CanWorkAll(job, st, Amid(cell, e, slots, sent, receipts), works)
      && AfterAll(job, st, Amid(cell, e, slots, sent, receipts), works)
         == Amid(cell, e, slots[i := Slot(Advance(slots[i].loop, st.budget, p), false)],
                 sent + [Delivery(i, Enrich(job, e))], receipts + [Receipt(i, p.reply)])
  {
    var c0 := Amid(cell, e, slots, sent, receipts);
    var c1 := After(job, st, c0, Send(i));
    WorkThenWorks(job, st, c1, Receive(i, p), []);
    WorkThenWorks(job, st, c0, Send(i), [Receive(i, p)]);
    assert slots[i := slots[i].(out := true)][i := Slot(Advance(slots[i].loop, st.budget, p), false)]
        == slots[i := Slot(Advance(slots[i].loop, st.budget, p), false)];
  }

  lemma RequestThenRest(job: Job, st: Settings, cell: Cell, i: nat, p: Probe, rest: seq<Work>)
    returns (works: seq<Work>)
    requires CanWorkAll(job, st, cell, [Send(i), Receive(i, p)]) && OnlyRequests(rest)
    requires CanWorkAll(job, st, AfterAll(job, st, cell, [Send(i), Receive(i, p)]), rest)
    ensures CanWorkAll(job, st, cell, works) && OnlyRequests(works)
    ensures AfterAll(job, st, cell, works) == AfterAll(job, st, AfterAll(job, st, cell, [Send(i), Receive(i, p)]), rest)
  {
    works := [Send(i), Receive(i, p)] + rest;
    WorksAppend(job, st, cell, [Send(i), Receive(i, p)], rest);
  }

  /** How many of the requests go to a target. */
  function RequestsTo(sent: seq<Delivery>, i: nat): nat {
    if sent == [] then 0
    else RequestsTo(sent[..|sent| - 1], i) + if sent[|sent| - 1].target == i then 1 else 0
  }

  lemma OneMoreRequest(sent: seq<Delivery>, d: Delivery, i: nat)
    ensures RequestsTo(sent + [d], i) == RequestsTo(sent, i) + if d.target == i then 1 else 0
  {
    assert (sent + [d])[..|sent|] == sent;
  }

  /** All that has been sent since carries this body. */
  ghost predicate CarriesSince(before: seq<Delivery>, after: seq<Delivery>, body: Outgoing) {
    before <= after && forall k {:trigger after[k]} :: |before| <= k < |after| ==> after[k].body == body
  }

  /** To each target have been sent as many requests since as its coroutine made. */
  ghost predicate SendsEachItsRequests(
      before: seq<Delivery>, after: seq<Delivery>, from: seq<Loop>, to: seq<Loop>)
  {
    |from| == |to| && forall i: nat {:trigger RequestsTo(after, i)} :: i < |to| ==>
      RequestsTo(after, i) - RequestsTo(before, i) == to[i].sent - from[i].sent
  }

  lemma SendingGoesOn(
      before: seq<Delivery>, now: seq<Delivery>, after: seq<Delivery>, body: Outgoing,
      from: seq<Loop>, via: seq<Loop>, to: seq<Loop>)
    requires CarriesSince(before, now, body) && CarriesSince(now, after, body)
    requires SendsEachItsRequests(before, now, from, via) && SendsEachItsRequests(now, after, via, to)
    ensures CarriesSince(before, after, body) && SendsEachItsRequests(before, after, from, to)
  {
    forall k | |before| <= k < |after| ensures after[k].body == body {
      if k < |now| { assert now[k] == after[k]; }
    }
    forall i: nat | i < |to| ensures RequestsTo(after, i) - RequestsTo(before, i) == to[i].sent - from[i].sent {
      assert RequestsTo(now, i) - RequestsTo(before, i) == via[i].sent - from[i].sent;
    }
  }

  lemma RequestIsOneOfItsOwn(st: Settings, scripts: seq<Script>, slots: seq<Slot>, sent: seq<Delivery>, d: Delivery)
    requires |scripts| == |slots| && d.target < |slots| && slots[d.target].loop.Running?
    ensures SendsEachItsRequests(sent, sent + [d], Loops(slots), Loops(AfterAnswer(st, scripts, slots, d.target)))
  {
    forall i: nat | i < |slots|
      ensures RequestsTo(sent + [d], i) - RequestsTo(sent, i)
           == AfterAnswer(st, scripts, slots, d.target)[i].loop.sent - slots[i].loop.sent
    {
      OneMoreRequest(sent, d, i);
    }
  }

  lemma EndedLoopsAreConclusions(st: Settings, scripts: seq<Script>, slots: seq<Slot>)
    requires AllOnTrack(scripts, st.budget, Loops(slots)) && AllEnded(slots)
    ensures Loops(slots) == Conclusions(scripts, st.budget)
  {
    forall i | 0 <= i < |slots| ensures Loops(slots)[i] == Conclusion(scripts[i], st.budget) {
      EndedMeetsSpecification(scripts[i], st.budget, Loops(slots)[i]);
    }
  }

  /** The slots after one coroutine's next request and reply. */
  function AfterAnswer(st: Settings, scripts: seq<Script>, slots: seq<Slot>, i: nat): seq<Slot>
    requires |scripts| == |slots| && i < |slots| && slots[i].loop.Running?
  {
    slots[i := Slot(Advance(slots[i].loop, st.budget, scripts[i](slots[i].loop.sent)), false)]
  }

  lemma AnsweringKeepsTrack(st: Settings, scripts: seq<Script>, slots: seq<Slot>, i: nat)
    requires AllOnTrack(scripts, st.budget, Loops(slots)) && AllIdle(slots)
    requires i < |slots| && slots[i].loop.Running?
    ensures var next := AfterAnswer(st, scripts, slots, i);
      AllOnTrack(scripts, st.budget, Loops(next)) && AllIdle(next) && FanOutRank(st, next) < FanOutRank(st, slots)
  {
    var next := AfterAnswer(st, scripts, slots, i);
    assert OnTrack(scripts[i], st.budget, Loops(slots)[i]);
    AdvanceStaysOnTrack(scripts[i], st.budget, slots[i].loop);
    ReceivingShrinks(st, slots, i, scripts[i](slots[i].loop.sent));
    assert Loops(next) == Loops(slots)[i := next[i].loop];
  }

  /** Sending until all is sent takes the loops to the conclusions of their scripts. */
  lemma {:induction false} FanOutIsARun(
      job: Job, st: Settings, scripts: seq<Script>, cell: Cell, e: Enrichment, slots: seq<Slot>,
      sent: seq<Delivery>, receipts: seq<Receipt>)
    returns (works: seq<Work>, slotsAfter: seq<Slot>, sentAfter: seq<Delivery>, receiptsAfter: seq<Receipt>)
    requires cell.run.Trying? && AllOnTrack(scripts, st.budget, Loops(slots)) && AllIdle(slots)
    ensures CanWorkAll(job, st, Amid(cell, e, slots, sent, receipts), works)
    ensures AfterAll(job, st, Amid(cell, e, slots, sent, receipts), works)
         == Amid(cell, e, slotsAfter, sentAfter, receiptsAfter)
    ensures Loops(slotsAfter) == Conclusions(scripts, st.budget) && OnlyRequests(works)
    ensures CarriesSince(sent, sentAfter, Enrich(job, e))
    ensures SendsEachItsRequests(sent, sentAfter, Loops(slots), Loops(slotsAfter))
    decreases FanOutRank(st, slots)
  {
    if AllEnded(slots) {
      EndedLoopsAreConclusions(st, scripts, slots);
      works, slotsAfter, sentAfter, receiptsAfter := [], slots, sent, receipts;
    } else {
      var i: nat :| i < |slots| && slots[i].loop.Running?;
      var p := scripts[i](slots[i].loop.sent);
      AnsweringKeepsTrack(st, scripts, slots, i);
      RequestIsARun(job, st, cell, e, slots, sent, receipts, i, p);
      var once, next := sent + [Delivery(i, Enrich(job, e))], AfterAnswer(st, scripts, slots, i);
      RequestIsOneOfItsOwn(st, scripts, slots, sent, Delivery(i, Enrich(job, e)));
      var rest;
      rest, slotsAfter, sentAfter, receiptsAfter :=
        FanOutIsARun(job, st, scripts, cell, e, next, once, receipts + [Receipt(i, p.reply)]);
      SendingGoesOn(sent, once, sentAfter, Enrich(job, e), Loops(slots), Loops(next), Loops(slotsAfter));
      works := RequestThenRest(job, st, Amid(cell, e, slots, sent, receipts), i, p, rest);
    }
  }

  /** What dispatch() returns: one report per target, each as if that target were alone. */
  ghost function Reports(st: Settings, scripts: seq<Script>): seq<DispatchResult>
    requires |scripts| == |st.targets|
  {
    Results(st.targets, Conclusions(scripts, st.budget))
  }

  lemma ReportsAreEntries(st: Settings, scripts: seq<Script>)
    requires |scripts| == |st.targets|
    ensures |Reports(st, scripts)| == |st.targets|
    ensures forall i :: 0 <= i < |st.targets| ==>
      EntryOf(st.targets[i].url, scripts[i], st.budget, Reports(st, scripts)[i])
  {
    forall i | 0 <= i < |st.targets|
      ensures EntryOf(st.targets[i].url, scripts[i], st.budget, Reports(st, scripts)[i])
    {
      ReportsExactly(st.targets[i].url, scripts[i], st.budget, Reports(st, scripts)[i]);
    }
  }

  predicate OnlyRequests(works: seq<Work>) {
    forall i :: 0 <= i < |works| ==> works[i].Send? || works[i].Receive?
  }

  /** Requests and their replies, and then the merge. */
  predicate IsFanOut(works: seq<Work>) {
    works != [] && works[|works| - 1] == Merge && OnlyRequests(works[..|works| - 1])
  }

  /** Each target has been sent all its requests, and nothing but this body. */
  ghost predicate SentAll(before: Cell, after: Cell, body: Outgoing, st: Settings, scripts: seq<Script>) {
    && CarriesSince(before.sent, after.sent, body)
    && forall i: nat {:trigger RequestsTo(after.sent, i)} :: i < |scripts| ==>
         RequestsTo(after.sent, i) - RequestsTo(before.sent, i) == StopIndex(scripts[i], st.budget) + 1
  }

  /** dispatch() returns what the machine merges. */
  method FanOutOnce(
      ghost job: Job, ghost e: Enrichment, body: Outgoing, st: Settings, scripts: seq<Script>,
      metrics: AttemptMetric, ghost cell: Cell)
    returns (results: seq<DispatchResult>, ghost works: seq<Work>)
    requires |scripts| == |st.targets| && body == Enrich(job, e)
    requires cell.run.Trying? && cell.run.phase == Fanning(e, FreshSlots(st))
    modifies metrics
    ensures results == Reports(st, scripts)
    ensures forall i :: 0 <= i < |results| ==> EntryOf(st.targets[i].url, scripts[i], st.budget, results[i])
    ensures Tallied(old(metrics.counts), metrics.counts, st.targets, scripts, Conclusions(scripts, st.budget))
    ensures IsFanOut(works) && CanWorkAll(job, st, cell, works)
    ensures var end := AfterAll(job, st, cell, works);
      end == cell.(
        sent := end.sent, receipts := end.receipts,
        run := Trying(cell.run.attempt,
                      if results != [] && Successes(results) == 0 then Failing(DispatchText(results))
                      else Storing(e, results)))
      && SentAll(cell, end, body, st, scripts)
  {
    results := Dispatch(st.targets, scripts, st.budget, metrics);
    ghost var sends, slots, sent, receipts :=
      FanOutIsARun(job, st, scripts, cell, e, FreshSlots(st), cell.sent, cell.receipts);
    assert Amid(cell, e, FreshSlots(st), cell.sent, cell.receipts) == cell;
    forall i | 0 <= i < |slots| ensures slots[i].loop.Ended? {
      assert slots[i].loop == Loops(slots)[i] == Conclusion(scripts[i], st.budget);
    }
    assert results == Results(st.targets, Loops(slots));
    WorkAppend(job, st, cell, sends, Merge);
    works := sends + [Merge];
    assert works[..|works| - 1] == sends;
  }

  // ---------- _do_process ----------

  /** The attempt that has just been started ends as the machine says. */
  ghost predicate EndsAs(end: TaskEnd, run: Progress, jobTry: nat) {
    match end
    case Threw => run == Waiting(jobTry)
    case Returned(_) => run.Trying? && run.attempt == jobTry && run.phase.Returning?
  }

  /** What an attempt returns, if it returns. */
  ghost predicate SummaryOk(end: TaskEnd, job: Job, reply: Llm.Reply, st: Settings, scripts: seq<Script>)
    requires |scripts| == |st.targets|
  {
    end.Returned? ==>
      match reply
      case Raised(_) => false
      case Unclassifiable(_) => end.summary == Summary(job.id, None, 0, 0)
      case Enriched(e) =>
        end.summary == Summary(job.id, Some(e.category), |st.targets|, |Winners(Reports(st, scripts))|)
  }

  /** The attempt has failed in a way the worker handles: no classification, or targets none
      of which was reached. */
  predicate Fails(reply: Llm.Reply, reports: seq<DispatchResult>) {
    reply.Unclassifiable? || (reply.Enriched? && NoneReached(reports))
  }

  predicate NoneReached(reports: seq<DispatchResult>) {
    reports != [] && forall i :: 0 <= i < |reports| ==> !reports[i].success
  }

  /** What is then stored as the error. */
  function FailureText(reply: Llm.Reply, reports: seq<DispatchResult>): string {
    if reply.Unclassifiable? then ClassificationText(reply.message) else DispatchText(reports)
  }

  /** What an attempt leaves of row and dead letter from the model's outcome on, column by
      column. */
  ghost predicate TablesSay(
      before: Cell, after: Cell, fate: Fate, jobTry: nat, reply: Llm.Reply, reports: seq<DispatchResult>)
  {
    if Fails(reply, reports) then FailureLeaves(before, after, fate, jobTry, FailureText(reply, reports))
    else
      && after.letter == before.letter
      && (before.row.Some? && reply.Enriched? && Applied(fate.dispatched) ==>
            var row := before.row.value;
            var stored := StoredEnrichment(reply.enrichment, reports, |reports|, |Winners(reports)|);
            after.row == Some(Row(row.source, row.key, row.payload, DISPATCHED, Some(stored), jobTry, None)))
      && (before.row.None? || !reply.Enriched? || !Applied(fate.dispatched) ==> after.row == before.row)
  }

  /** What an attempt sends: if the model gave a classification, to each target its requests,
      all with that classification; nothing otherwise. */
  ghost predicate SendsWhat(
      before: Cell, after: Cell, job: Job, reply: Llm.Reply, st: Settings, scripts: seq<Script>)
  {
    match reply
    case Enriched(e) =>
      SentAll(before, after,
              Outgoing(job.id, job.source, e.category, e.confidence, e.reason, job.payload), st, scripts)
    case _ => after.sent == before.sent
  }

  /** From the model's outcome on, something raises that the worker does not handle. */
  predicate Unforeseen(fate: Fate, jobTry: nat, reply: Llm.Reply, reports: seq<DispatchResult>, cell: Cell) {
    || reply.Raised?
    || (if Fails(reply, reports) then FailureRaises(fate, jobTry, cell) else fate.dispatched.Failed?)
  }

  /** It throws exactly if something unforeseen happens or it is to be tried again, and only
      the first is on record as unhandled. */
  ghost predicate ThrowsWhen(end: TaskEnd, cell: Cell, after: Cell, unforeseen: bool, retried: bool) {
    && (end.Threw? <==> unforeseen || retried)
    && (after.handled <==> cell.handled && !unforeseen)
  }

  /** The steps of an attempt after the model's outcome, in order. */
  ghost predicate Steps(works: seq<Work>, fate: Fate, jobTry: nat, reply: Llm.Reply, reports: seq<DispatchResult>) {
    match reply
    case Raised(_) => works == []
    case Unclassifiable(_) => works == FailureWorks(fate, jobTry)
    case Enriched(_) =>
      exists sends :: IsFanOut(sends)
        && works == sends + MergedWorks(fate, jobTry, reports)
  }

  /** What an attempt returns, stores and sends follows from what the model said and what the
      targets' scripts lead to. */
  ghost predicate OutcomeOk(
      end: TaskEnd, before: Cell, after: Cell, fate: Fate, jobTry: nat,
      job: Job, reply: Llm.Reply, st: Settings, scripts: seq<Script>)
    requires |scripts| == |st.targets|
  {
    && SummaryOk(end, job, reply, st, scripts)
    && TablesSay(before, after, fate, jobTry, reply, Reports(st, scripts))
    && SendsWhat(before, after, job, reply, st, scripts)
  }

  /** The steps after the merge. */
  function MergedWorks(fate: Fate, jobTry: nat, results: seq<DispatchResult>): seq<Work> {
    if NoneReached(results) then FailureWorks(fate, jobTry) else [MarkDispatched(fate.dispatched)]
  }

  /** _do_process from the return of dispatch() on. */
  method DoMerged(
      events: EventRepository, job: Job, e: Enrichment, results: seq<DispatchResult>,
      jobTry: nat, fate: Fate, ghost st: Settings, ghost cell: Cell)
    returns (end: TaskEnd, ghost works: seq<Work>)
    requires Mirrors(events, job.id, cell)
    requires cell.run == Trying(jobTry, if results != [] && Successes(results) == 0
                                        then Failing(DispatchText(results)) else Storing(e, results))
    modifies events
    ensures OthersAlone(old(events.table), events.table, old(events.dead), events.dead, job.id)
    ensures works == MergedWorks(fate, jobTry, results) && CanWorkAll(job, st, cell, works)
    ensures var after := AfterAll(job, st, cell, works);
      && Mirrors(events, job.id, after) && EndsAs(end, after.run, jobTry)
      && ThrowsWhen(end, cell, after, Unforeseen(fate, jobTry, Llm.Enriched(e), results, cell),
                    Fails(Llm.Enriched(e), results) && jobTry < MAX_TRIES)
      && TablesSay(cell, after, fate, jobTry, Llm.Enriched(e), results) && after.sent == cell.sent
    ensures end.Returned? ==> end.summary == Summary(job.id, Some(e.category), |results|, |Winners(results)|)
  {
    SuccessesCountWinners(results);
    var succeeded := Successes(results);
    if results != [] && succeeded == 0 {
      var raised;
      raised, works := HandleFailure(events, job, DispatchText(results), jobTry, fate, st, cell);
      if raised || jobTry < MAX_TRIES {
        return Threw, works;
      }
      return Returned(Summary(job.id, Some(e.category), |results|, succeeded)), works;
    }

    var raised := events.MarkDispatched(job.id, e, results, jobTry, fate.dispatched);
    works := [MarkDispatched(fate.dispatched)];
    WorkThenWorks(job, st, cell, MarkDispatched(fate.dispatched), []);
    if raised {
      return Threw, works;
    }
    return Returned(Summary(job.id, Some(e.category), |results|, succeeded)), works;
  }

  /** The second half of _do_process, from the call to dispatch() on. */
  method DoDispatch(
      events: EventRepository, job: Job, e: Enrichment, st: Settings, scripts: seq<Script>,
      metrics: AttemptMetric, jobTry: nat, fate: Fate, ghost cell: Cell)
    returns (end: TaskEnd, ghost works: seq<Work>)
    requires |scripts| == |st.targets|
    requires Mirrors(events, job.id, cell) && cell.run == Trying(jobTry, Fanning(e, FreshSlots(st)))
    modifies events, metrics
    ensures OthersAlone(old(events.table), events.table, old(events.dead), events.dead, job.id)
    ensures Tallied(old(metrics.counts), metrics.counts, st.targets, scripts, Conclusions(scripts, st.budget))
    ensures Steps(works, fate, jobTry, Llm.Enriched(e), Reports(st, scripts)) && CanWorkAll(job, st, cell, works)
    ensures var after := AfterAll(job, st, cell, works);
      && Mirrors(events, job.id, after) && EndsAs(end, after.run, jobTry)
      && OutcomeOk(end, cell, after, fate, jobTry, job, Llm.Enriched(e), st, scripts)
      && ThrowsWhen(end, cell, after, Unforeseen(fate, jobTry, Llm.Enriched(e), Reports(st, scripts), cell),
                    Fails(Llm.Enriched(e), Reports(st, scripts)) && jobTry < MAX_TRIES)
  {
    var results;
    ghost var sends, more;
    var body := Outgoing(job.id, job.source, e.category, e.confidence, e.reason, job.payload);
    results, sends := FanOutOnce(job, e, body, st, scripts, metrics, cell);
    end, more := DoMerged(events, job, e, results, jobTry, fate, st, AfterAll(job, st, cell, sends));
    WorksAppend(job, st, cell, sends, more);
    works := sends + more;
  }

  /** _do_process from the outcome of classify_lead on. */
  method DoClassified(
      events: EventRepository, job: Job, reply: Llm.Reply, st: Settings, scripts: seq<Script>,
      metrics: AttemptMetric, jobTry: nat, fate: Fate, ghost cell: Cell)
    returns (end: TaskEnd, ghost works: seq<Work>)
    requires |scripts| == |st.targets|
    requires Mirrors(events, job.id, cell)
    requires cell.run == match reply
      case Raised(_) => Waiting(jobTry)
      case Unclassifiable(message) => Trying(jobTry, Failing(ClassificationText(message)))
      case Enriched(e) => Trying(jobTry, Fanning(e, FreshSlots(st)))
    requires reply.Raised? ==> !cell.handled
    modifies events, metrics
    ensures OthersAlone(old(events.table), events.table, old(events.dead), events.dead, job.id)
    ensures if reply.Enriched?
      then Tallied(old(metrics.counts), metrics.counts, st.targets, scripts, Conclusions(scripts, st.budget))
      else metrics.counts == old(metrics.counts)
    ensures Steps(works, fate, jobTry, reply, Reports(st, scripts)) && CanWorkAll(job, st, cell, works)
    ensures var after := AfterAll(job, st, cell, works);
      && Mirrors(events, job.id, after) && EndsAs(end, after.run, jobTry)
      && OutcomeOk(end, cell, after, fate, jobTry, job, reply, st, scripts)
    ensures ThrowsWhen(end, cell, AfterAll(job, st, cell, works),
                       Unforeseen(fate, jobTry, reply, Reports(st, scripts), cell),
                       Fails(reply, Reports(st, scripts)) && jobTry < MAX_TRIES)
  {
    match reply {
      case Raised(_) =>
        return Threw, [];
      case Unclassifiable(message) =>
        var raised;
        raised, works := HandleFailure(events, job, ClassificationText(message), jobTry, fate, st, cell);
        if raised || jobTry < MAX_TRIES {
          return Threw, works;
        }
        return Returned(Summary(job.id, None, 0, 0)), works;
      case Enriched(e) =>
        end, works := DoDispatch(events, job, e, st, scripts, metrics, jobTry, fate, cell);
    }
  }

  /** The steps of an attempt from the call to the model on. */
  ghost predicate MarkedSteps(
      works: seq<Work>, fate: Fate, jobTry: nat, calls: nat, reply: Llm.Reply, reports: seq<DispatchResult>)
  {
    works != [] && works[0] == Classify(calls, reply) && Steps(works[1..], fate, jobTry, reply, reports)
  }

  /** _do_process from the call to the model on. */
  method DoMarked(
      events: EventRepository, job: Job, provider: Llm.Provider, model: Llm.Script,
      st: Settings, scripts: seq<Script>, metrics: AttemptMetric, jobTry: nat, fate: Fate, ghost cell: Cell)
    returns (end: TaskEnd, ghost works: seq<Work>)
    requires |scripts| == |st.targets|
    requires Mirrors(events, job.id, cell) && cell.run == Trying(jobTry, Classifying)
    modifies events, metrics
    ensures OthersAlone(old(events.table), events.table, old(events.dead), events.dead, job.id)
    ensures if Llm.LastReply(provider, model).Enriched?
      then Tallied(old(metrics.counts), metrics.counts, st.targets, scripts, Conclusions(scripts, st.budget))
      else metrics.counts == old(metrics.counts)
    ensures var reply, reports := Llm.LastReply(provider, model), Reports(st, scripts);
      && MarkedSteps(works, fate, jobTry, Llm.CallsMade(provider, model), reply, reports)
      && CanWorkAll(job, st, cell, works)
    ensures var reply, reports := Llm.LastReply(provider, model), Reports(st, scripts);
      var after := AfterAll(job, st, cell, works);
      && Mirrors(events, job.id, after) && EndsAs(end, after.run, jobTry)
      && OutcomeOk(end, cell, after, fate, jobTry, job, reply, st, scripts)
      && ThrowsWhen(end, cell, after, Unforeseen(fate, jobTry, reply, reports, cell),
                    Fails(reply, reports) && jobTry < MAX_TRIES)
  {
    var reply, calls, _ := Llm.ClassifyLead(provider, model);
    ghost var classify := Classify(calls, reply);
    ghost var more;
    end, more := DoClassified(events, job, reply, st, scripts, metrics, jobTry, fate, After(job, st, cell, classify));
    WorkThenWorks(job, st, cell, classify, more);
    works := [classify] + more;
    assert works[1..] == more;
  }

  /** The steps of a whole attempt. */
  ghost predicate AttemptSteps(
      works: seq<Work>, fate: Fate, jobTry: nat, calls: nat, reply: Llm.Reply, reports: seq<DispatchResult>)
  {
    && works != [] && works[0] == MarkProcessing(fate.processing)
    && if fate.processing.Failed? then works[1..] == []
       else MarkedSteps(works[1..], fate, jobTry, calls, reply, reports)
  }

  /** The row once it has been marked as being processed, if it was. */
  function Marked(row: Option<Row>, o: Outcome): Option<Row> {
    if row.Some? && Applied(o) then Some(row.value.(status := PROCESSING)) else row
  }

  /** Nothing has happened but that. */
  ghost predicate TouchedOnly(before: Cell, after: Cell, o: Outcome) {
    after.row == Marked(before.row, o) && after.letter == before.letter && after.sent == before.sent
  }

  /** The step that marks it, if it does not raise. */
  lemma MarkingStep(job: Job, st: Settings, cell: Cell, jobTry: nat)
    requires cell.run == Trying(jobTry, Started)
    ensures CanWork(st, cell, MarkProcessing(Done))
    ensures var marked := After(job, st, cell, MarkProcessing(Done));
      && marked.run == Trying(jobTry, Classifying) && marked.row == Marked(cell.row, Done)
      && marked.letter == cell.letter && marked.sent == cell.sent && marked.handled == cell.handled
  {
  }

  /** An outcome is about row, dead letter and requests before. */
  lemma SameOutcome(
      end: TaskEnd, a: Cell, b: Cell, after: Cell, fate: Fate, jobTry: nat,
      job: Job, reply: Llm.Reply, st: Settings, scripts: seq<Script>)
    requires |scripts| == |st.targets| && a.row == b.row && a.letter == b.letter && a.sent == b.sent
    requires OutcomeOk(end, a, after, fate, jobTry, job, reply, st, scripts)
    ensures OutcomeOk(end, b, after, fate, jobTry, job, reply, st, scripts)
  {
  }

  /** One attempt is a run of the machine: these steps in this order, with what the statements,
      the model and the targets come to. It throws, stores and returns what follows from them. */
  method DoProcess(
      events: EventRepository, job: Job, provider: Llm.Provider, model: Llm.Script,
      st: Settings, scripts: seq<Script>, metrics: AttemptMetric, jobTry: nat, fate: Fate, ghost cell: Cell)
    returns (end: TaskEnd, ghost works: seq<Work>)
    requires |scripts| == |st.targets|
    requires Mirrors(events, job.id, cell) && cell.run == Trying(jobTry, Started)
    modifies events, metrics
    ensures OthersAlone(old(events.table), events.table, old(events.dead), events.dead, job.id)
    ensures if fate.processing.Done? && Llm.LastReply(provider, model).Enriched?
      then Tallied(old(metrics.counts), metrics.counts, st.targets, scripts, Conclusions(scripts, st.budget))
      else metrics.counts == old(metrics.counts)
    ensures var reply, reports := Llm.LastReply(provider, model), Reports(st, scripts);
      && AttemptSteps(works, fate, jobTry, Llm.CallsMade(provider, model), reply, reports)
      && CanWorkAll(job, st, cell, works)
    ensures var reply, reports := Llm.LastReply(provider, model), Reports(st, scripts);
      var after := AfterAll(job, st, cell, works);
      && Mirrors(events, job.id, after) && EndsAs(end, after.run, jobTry)
      && (if fate.processing.Failed? then TouchedOnly(cell, after, fate.processing)
          else OutcomeOk(end, cell.(row := Marked(cell.row, Done)), after, fate, jobTry, job, reply, st, scripts))
      && ThrowsWhen(end, cell, after, fate.processing.Failed? || Unforeseen(fate, jobTry, reply, reports, cell),
                    Fails(reply, reports) && jobTry < MAX_TRIES)
  {
    ghost var mark := MarkProcessing(fate.processing);
    ghost var more: seq<Work> := [];
    var raised := events.MarkProcessing(job.id, fate.processing);
    if raised {
      end := Threw;
    } else {
      ghost var marked := After(job, st, cell, mark);
      MarkingStep(job, st, cell, jobTry);
      end, more := DoMarked(events, job, provider, model, st, scripts, metrics, jobTry, fate, marked);
      SameOutcome(end, marked, cell.(row := Marked(cell.row, Done)), AfterAll(job, st, marked, more),
                  fate, jobTry, job, Llm.LastReply(provider, model), st, scripts);
    }
    WorkThenWorks(job, st, cell, mark, more);
    works := [mark] + more;
    assert works[1..] == more;
  }
}
