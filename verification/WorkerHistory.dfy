/**
 The records of a worker's run are those of its steps: what was sent, what came back, how often
 the model was called, and which classification a delivered event was stored with.
 */
module WorkerHistory {
  import opened Prelude
  import opened Schemas
  import opened Events
  import opened Worker
  import opened WorkerInvariant
  import opened WorkerTheorems
  import Llm

  /** The last classification the model gave. */
  function Current(works: seq<Work>): Option<Enrichment>
    decreases |works|
  {
    if works == [] then None
    else
      var last := works[|works| - 1];
      if last.Classify? && last.reply.Enriched? then Some(last.reply.enrichment)
      else Current(works[..|works| - 1])
  }

  /** A request carries the event and the classification given before it. */
  function SentAt(job: Job, current: Option<Enrichment>, w: Work): seq<Delivery> {
    if w.Send? && current.Some? then
      var e := current.value;
      [Delivery(w.i, Outgoing(job.id, job.source, e.category, e.confidence, e.reason, job.payload))]
    else []
  }

  /** One request for every send. */
  function SentLog(job: Job, works: seq<Work>): seq<Delivery>
    decreases |works|
  {
    if works == [] then []
    else
      var init, last := works[..|works| - 1], works[|works| - 1];
      SentLog(job, init) + SentAt(job, Current(init), last)
  }

  function ReceiptLog(works: seq<Work>): seq<Receipt>
    decreases |works|
  {
    if works == [] then []
    else
      var last := works[|works| - 1];
      ReceiptLog(works[..|works| - 1]) + if last.Receive? then [Receipt(last.i, last.probe.reply)] else []
  }

  /** The model calls made, those of attempts that were cut off included. */
  function CallLog(works: seq<Work>): nat
    decreases |works|
  {
    if works == [] then 0
    else
      var last := works[|works| - 1];
      CallLog(works[..|works| - 1]) + if last.Classify? || last.Cut? then last.calls else 0
  }

  ghost predicate Recorded(job: Job, works: seq<Work>, cell: Cell) {
    cell.sent == SentLog(job, works) && cell.receipts == ReceiptLog(works) && cell.calls == CallLog(works)
  }

  /** The classification in use, and the one stored with a delivered event, is the last given. */
  ghost predicate Uses(current: Option<Enrichment>, cell: Cell) {
    && (cell.run.Trying? && cell.run.phase.Fanning? ==> current == Some(cell.run.phase.enrichment))
    && (cell.run.Trying? && cell.run.phase.Storing? ==> current == Some(cell.run.phase.stored))
    && (cell.row.Some? && cell.row.value.status == DISPATCHED ==>
          cell.row.value.enrichment.Some? && current == Some(cell.row.value.enrichment.value.classification))
  }

  lemma LogsGrow(job: Job, works: seq<Work>, w: Work)
    ensures SentLog(job, works + [w]) == SentLog(job, works) + SentAt(job, Current(works), w)
    ensures ReceiptLog(works + [w]) == ReceiptLog(works) + if w.Receive? then [Receipt(w.i, w.probe.reply)] else []
    ensures CallLog(works + [w]) == CallLog(works) + if w.Classify? || w.Cut? then w.calls else 0
  {
    assert (works + [w])[..|works|] == works;
  }

  lemma RequestsAndRepliesAreLogged(job: Job, st: Settings, cell: Cell, w: Work, e: Enrichment, next: Cell)
    requires CanWork(st, cell, w) && (w.Send? || w.Receive?) && next == After(job, st, cell, w)
    requires cell.run.phase.enrichment == e
    ensures next.sent == cell.sent + SentAt(job, Some(e), w) && next.calls == cell.calls
    ensures next.receipts == cell.receipts + if w.Receive? then [Receipt(w.i, w.probe.reply)] else []
  {
  }

  lemma OtherWorkIsLogged(job: Job, st: Settings, cell: Cell, w: Work, next: Cell)
    requires CanWork(st, cell, w) && !w.Send? && !w.Receive? && next == After(job, st, cell, w)
    ensures next.sent == cell.sent && next.receipts == cell.receipts
    ensures next.calls == cell.calls + if w.Classify? || w.Cut? then w.calls else 0
  {
  }

  lemma StepIsRecorded(job: Job, st: Settings, works: seq<Work>, cell: Cell, w: Work)
    requires Recorded(job, works, cell) && Uses(Current(works), cell) && CanWork(st, cell, w)
    ensures Recorded(job, works + [w], After(job, st, cell, w))
  {
    LogsGrow(job, works, w);
    if w.Send? || w.Receive? {
      RequestsAndRepliesAreLogged(job, st, cell, w, cell.run.phase.enrichment, After(job, st, cell, w));
    } else {
      OtherWorkIsLogged(job, st, cell, w, After(job, st, cell, w));
    }
  }

  lemma ClassifyUsesCurrent(
      job: Job, st: Settings, cell: Cell, calls: nat, reply: Llm.Reply, before: Option<Enrichment>)
    requires CellInv(job, st, cell) && Uses(before, cell) && CanWork(st, cell, Classify(calls, reply))
    ensures Uses(if reply.Enriched? then Some(reply.enrichment) else before, ClassifyStep(st, cell, calls, reply))
  {
    assert cell.row.value.status == PROCESSING;
  }

  lemma FanOutUsesCurrent(job: Job, st: Settings, cell: Cell, w: Work, current: Option<Enrichment>, next: Cell)
    requires Uses(current, cell) && CanWork(st, cell, w) && (w.Send? || w.Receive? || w.Merge?)
    requires next == After(job, st, cell, w)
    ensures Uses(current, next)
  {
  }

  lemma MarkDispatchedUsesCurrent(cell: Cell, o: Outcome, current: Option<Enrichment>)
    requires cell.run.Trying? && cell.run.phase.Storing? && Uses(current, cell)
    ensures Uses(current, MarkDispatchedStep(cell, o))
  {
  }

  lemma MarkFailedUsesCurrent(cell: Cell, o: Outcome, current: Option<Enrichment>)
    requires cell.run.Trying? && cell.run.phase.Failing? && Uses(current, cell)
    ensures Uses(current, MarkFailedStep(cell, o))
  {
  }

  lemma MarkProcessingUsesCurrent(cell: Cell, o: Outcome, current: Option<Enrichment>)
    requires cell.run.Trying? && cell.run.phase.Started? && Uses(current, cell)
    ensures Uses(current, MarkProcessingStep(cell, o))
  {
  }

  lemma OtherWorkUsesCurrent(job: Job, st: Settings, cell: Cell, w: Work, current: Option<Enrichment>, next: Cell)
    requires Uses(current, cell) && CanWork(st, cell, w)
    requires (w.Start? || w.Bury? || w.Finish? || w.Cut?) && next == After(job, st, cell, w)
    ensures Uses(current, next)
  {
  }

  lemma StepUsesCurrent(job: Job, st: Settings, works: seq<Work>, cell: Cell, w: Work)
    requires CellInv(job, st, cell) && Uses(Current(works), cell) && CanWork(st, cell, w)
    ensures Uses(Current(works + [w]), After(job, st, cell, w))
  {
    assert (works + [w])[..|works|] == works;
    if w.Classify? {
      ClassifyUsesCurrent(job, st, cell, w.calls, w.reply, Current(works));
    } else if w.Send? || w.Receive? || w.Merge? {
      FanOutUsesCurrent(job, st, cell, w, Current(works), After(job, st, cell, w));
    } else if w.MarkProcessing? {
      MarkProcessingUsesCurrent(cell, w.o, Current(works));
    } else if w.MarkFailed? {
      MarkFailedUsesCurrent(cell, w.o, Current(works));
    } else if w.MarkDispatched? {
      MarkDispatchedUsesCurrent(cell, w.o, Current(works));
    } else {
      OtherWorkUsesCurrent(job, st, cell, w, Current(works), After(job, st, cell, w));
    }
  }

  /** After every run the record of requests is that of its sends, each with the event's id,
      source and data and the category, confidence and reason the model gave last before it;
      replies and model calls are recorded likewise; and a DISPATCHED row holds the last
      classification given. */
  lemma {:induction false} HistoryIsThatOfTheRun(job: Job, st: Settings, works: seq<Work>, cell: Cell)
    requires RunOf(job, st, works, cell)
    ensures cell.sent == SentLog(job, works) && cell.receipts == ReceiptLog(works) && cell.calls == CallLog(works)
    ensures Uses(Current(works), cell)
    decreases |works|
  {
    if works != [] {
      var init, last := works[..|works| - 1], works[|works| - 1];
      LastWork(job, st, Queued(NewRow(job.source, job.key, job.payload)), works);
      var before := AfterAll(job, st, Queued(NewRow(job.source, job.key, job.payload)), init);
      assert RunOf(job, st, init, before);
      HistoryIsThatOfTheRun(job, st, init, before);
      RunHasInv(job, st, init, before);
      assert works == init + [last];
      StepIsRecorded(job, st, init, before, last);
      StepUsesCurrent(job, st, init, before, last);
    }
  }
}
