/** What every step of a worker's run keeps, for one event. */
module WorkerInvariant {
  import opened Prelude
  import opened Schemas
  import opened Events
  import opened RetryLoop
  import opened Worker
  import Llm

  // ---------- where things come from ----------

  predicate Belongs(job: Job, row: Row) {
    row.source == job.source && row.key == job.key && row.payload == job.payload
  }

  predicate FromJob(job: Job, st: Settings, d: Delivery) {
    && d.target < |st.targets|
    && d.body.eventId == job.id && d.body.source == job.source && d.body.data == job.payload
  }

  /** At most four model calls per attempt, none before the attempt reaches the model. */
  function CallBound(run: Progress): int {
    match run
    case Waiting(t) => Llm.MAX_CALLS * t
    case Trying(t, phase) => Llm.MAX_CALLS * (if phase.Started? || phase.Classifying? then t - 1 else t)
    case Finished(t, _) => Llm.MAX_CALLS * t
  }

  predicate PhaseOk(st: Settings, attempt: nat, phase: Phase) {
    match phase
    case Fanning(_, slots) =>
      |slots| == |st.targets| && forall i :: 0 <= i < |slots| && slots[i].out ==> slots[i].loop.Running?
    case Burying(_) => attempt == MAX_TRIES
    case _ => true
  }

  /** Attempts begun so far. */
  function Tries(run: Progress): nat {
    match run
    case Waiting(t) => t
    case Trying(t, _) => t
    case Finished(t, _) => t
  }

  predicate RunOk(st: Settings, run: Progress) {
    match run
    case Waiting(t) => t <= MAX_TRIES
    case Trying(t, phase) => 1 <= t <= MAX_TRIES && PhaseOk(st, t, phase)
    case Finished(t, _) => 1 <= t <= MAX_TRIES
  }

  ghost predicate Sound(job: Job, st: Settings, cell: Cell) {
    && cell.row.Some? && Belongs(job, cell.row.value)
    && RunOk(st, cell.run)
    && cell.row.value.dispatchAttempts <= Tries(cell.run)
    && cell.calls <= CallBound(cell.run)
    && forall k {:trigger cell.sent[k]} :: 0 <= k < |cell.sent| ==> FromJob(job, st, cell.sent[k])
  }

  // ---------- acknowledgements ----------

  ghost predicate AckedOnce(receipts: seq<Receipt>, i: nat) {
    forall j, k ::
      0 <= j < |receipts| && 0 <= k < |receipts| && IsAck(receipts[j], i) && IsAck(receipts[k], i) ==> j == k
  }

  ghost predicate Acked(receipts: seq<Receipt>, i: nat) {
    exists k :: 0 <= k < |receipts| && IsAck(receipts[k], i)
  }

  predicate Delivered(loop: Loop) {
    loop.Ended? && loop.verdict.Answered? && Is2xx(loop.verdict.code)
  }

  /** A target may have acknowledged only in an attempt that will not be followed by another. */
  predicate MayBeAcked(run: Progress, i: nat) {
    match run
    case Waiting(_) => false
    case Trying(_, Fanning(_, slots)) => i < |slots| && Delivered(slots[i].loop)
    case Trying(_, phase) => phase.Storing? || phase == Returning(true)
    case Finished(_, delivered) => delivered
  }

  ghost predicate AckOk(cell: Cell, i: nat) {
    AckedOnce(cell.receipts, i) && (Acked(cell.receipts, i) ==> MayBeAcked(cell.run, i))
  }

  ghost predicate AcksOk(cell: Cell) {
    forall i: nat {:trigger AckOk(cell, i)} :: AckOk(cell, i)
  }

  // ---------- verdicts ----------

  /** The two ways an event is settled. */
  predicate Settled(row: Row, letter: Option<DeadLetter>, attempts: nat, delivered: bool) {
    && row.dispatchAttempts == attempts
    && if delivered then
         row.status == DISPATCHED && row.enrichment.Some? && row.lastError.None? && letter.None?
       else
         && row.status == FAILED && attempts == MAX_TRIES
         && row.lastError.Some? && letter == Some(DeadLetter(row.lastError.value, attempts))
  }

  /** What row and dead letter say, however earlier attempts ended. */
  predicate VerdictOk(cell: Cell)
    requires cell.row.Some?
  {
    var row := cell.row.value;
    match cell.run
    case Waiting(t) => cell.letter.Some? ==> t == MAX_TRIES
    case Finished(t, delivered) => Settled(row, cell.letter, t, delivered)
    case Trying(t, phase) =>
      if phase.Returning? then Settled(row, cell.letter, t, phase.delivered)
      else
        && cell.letter.None?
        && (phase.Burying? ==>
              row.status == FAILED && row.dispatchAttempts == t && row.lastError == Some(phase.error))
        && (!phase.Burying? && !phase.Started? ==> row.status == PROCESSING)
        && (!phase.Burying? ==> row.dispatchAttempts < t)
  }

  // ---------- what was delivered ----------

  /** Every target reported as a success has acknowledged. */
  ghost predicate Vouched(results: seq<DispatchResult>, receipts: seq<Receipt>) {
    forall i {:trigger results[i]} :: 0 <= i < |results| && results[i].success ==> Acked(receipts, i)
  }

  ghost predicate LoopsVouched(slots: seq<Slot>, receipts: seq<Receipt>) {
    forall i {:trigger slots[i]} :: 0 <= i < |slots| && Delivered(slots[i].loop) ==> Acked(receipts, i)
  }

  /** One report per target, at least one of them a success unless there are no targets. */
  predicate WorthStoring(st: Settings, results: seq<DispatchResult>) {
    |results| == |st.targets| && (results == [] || Successes(results) > 0)
  }

  ghost predicate DeliveryOk(st: Settings, cell: Cell)
    requires cell.row.Some?
  {
    var row := cell.row.value;
    && (row.status == DISPATCHED ==> row.enrichment.Some?)
    && (row.enrichment.Some? ==>
          WorthStoring(st, row.enrichment.value.results) && Vouched(row.enrichment.value.results, cell.receipts))
    && (cell.run.Trying? && cell.run.phase.Fanning? ==> LoopsVouched(cell.run.phase.slots, cell.receipts))
    && (cell.run.Trying? && cell.run.phase.Storing? ==>
          WorthStoring(st, cell.run.phase.results) && Vouched(cell.run.phase.results, cell.receipts))
  }

  // ---------- the course of a handled event ----------

  /** RECEIVED (PROCESSING FAILED)^n */
  function Rounds(n: nat): seq<Status> {
    if n == 0 then [RECEIVED] else Rounds(n - 1) + [PROCESSING, FAILED]
  }

  /** Between attempts, after `n` that failed. */
  predicate Rested(row: Row, n: nat) {
    && row.status == (if n == 0 then RECEIVED else FAILED)
    && row.enrichment.None? && row.dispatchAttempts == n && (row.lastError.Some? <==> n > 0)
  }

  /** In the midst of an attempt, after `n` that failed. */
  predicate Busy(row: Row, n: nat) {
    && row.status == PROCESSING
    && row.enrichment.None? && row.dispatchAttempts == n && (row.lastError.Some? <==> n > 0)
  }

  /** The two ways a handled event is settled. */
  predicate Concluded(row: Row, letter: Option<DeadLetter>, trail: seq<Status>, attempts: nat, delivered: bool) {
    && Settled(row, letter, attempts, delivered)
    && if delivered then attempts >= 1 && trail == Rounds(attempts - 1) + [PROCESSING, DISPATCHED]
       else row.enrichment.None? && trail == Rounds(MAX_TRIES)
  }

  predicate OnCourse(cell: Cell)
    requires cell.row.Some?
  {
    var row := cell.row.value;
    match cell.run
    case Waiting(t) => t < MAX_TRIES && Rested(row, t) && cell.trail == Rounds(t) && cell.letter.None?
    case Finished(t, delivered) => Concluded(row, cell.letter, cell.trail, t, delivered)
    case Trying(t, phase) =>
      if t == 0 then false
      else if phase.Returning? then Concluded(row, cell.letter, cell.trail, t, phase.delivered)
      else if phase.Started? then Rested(row, t - 1) && cell.trail == Rounds(t - 1) && cell.letter.None?
      else if phase.Burying? then
        Rested(row, t) && row.lastError == Some(phase.error) && cell.trail == Rounds(t) && cell.letter.None?
      else Busy(row, t - 1) && cell.trail == Rounds(t - 1) + [PROCESSING] && cell.letter.None?
  }

  ghost predicate CellInv(job: Job, st: Settings, cell: Cell) {
    && Sound(job, st, cell) && VerdictOk(cell) && DeliveryOk(st, cell)
    && (cell.intact ==> AcksOk(cell))
    && (cell.handled ==> cell.intact && OnCourse(cell))
  }

  lemma QueuedHasInv(job: Job, st: Settings, row: Row)
    requires Belongs(job, row) && row == NewRow(row.source, row.key, row.payload)
    ensures CellInv(job, st, Queued(row))
  {
  }

  // ---------- soundness ----------

  lemma SendStaysSound(job: Job, st: Settings, cell: Cell, i: nat)
    requires Sound(job, st, cell) && CanWork(st, cell, Send(i))
    ensures Sound(job, st, SendStep(job, cell, i))
  {
  }

  lemma ReceiveStaysSound(job: Job, st: Settings, cell: Cell, i: nat, p: Probe)
    requires Sound(job, st, cell) && CanWork(st, cell, Receive(i, p))
    ensures Sound(job, st, ReceiveStep(st, cell, i, p))
  {
  }

  lemma MergeStaysSound(job: Job, st: Settings, cell: Cell)
    requires Sound(job, st, cell) && CanWork(st, cell, Merge)
    ensures Sound(job, st, MergeStep(st, cell))
  {
  }

  /** Nothing is sent and the row keeps its identity. */
  lemma QuietWorkStaysSound(job: Job, st: Settings, cell: Cell, next: Cell)
    requires Sound(job, st, cell) && next.sent == cell.sent
    requires next.row.Some? && SameIdentity(next.row.value, cell.row.value)
    requires RunOk(st, next.run) && next.row.value.dispatchAttempts <= Tries(next.run)
    requires next.calls - cell.calls <= CallBound(next.run) - CallBound(cell.run)
    ensures Sound(job, st, next)
  {
  }

  lemma MarkProcessingStaysSound(job: Job, st: Settings, cell: Cell, o: Outcome)
    requires Sound(job, st, cell) && CanWork(st, cell, MarkProcessing(o))
    ensures Sound(job, st, MarkProcessingStep(cell, o))
  {
  }

  lemma MarkFailedStaysSound(job: Job, st: Settings, cell: Cell, o: Outcome)
    requires Sound(job, st, cell) && CanWork(st, cell, MarkFailed(o))
    ensures Sound(job, st, MarkFailedStep(cell, o))
  {
  }

  lemma MarkDispatchedStaysSound(job: Job, st: Settings, cell: Cell, o: Outcome)
    requires Sound(job, st, cell) && CanWork(st, cell, MarkDispatched(o))
    ensures Sound(job, st, MarkDispatchedStep(cell, o))
  {
  }

  lemma ClassifyStaysSound(job: Job, st: Settings, cell: Cell, calls: nat, reply: Llm.Reply)
    requires Sound(job, st, cell) && CanWork(st, cell, Classify(calls, reply))
    ensures Sound(job, st, ClassifyStep(st, cell, calls, reply))
  {
    QuietWorkStaysSound(job, st, cell, ClassifyStep(st, cell, calls, reply));
  }

  lemma OtherWorkStaysSound(job: Job, st: Settings, cell: Cell, w: Work)
    requires Sound(job, st, cell) && CanWork(st, cell, w)
    requires w.Start? || w.Bury? || w.Finish? || w.Cut?
    ensures Sound(job, st, After(job, st, cell, w))
  {
    QuietWorkStaysSound(job, st, cell, After(job, st, cell, w));
  }

  lemma WorkStaysSound(job: Job, st: Settings, cell: Cell, w: Work)
    requires Sound(job, st, cell) && CanWork(st, cell, w)
    ensures Sound(job, st, After(job, st, cell, w))
  {
    if w.Send? {
      SendStaysSound(job, st, cell, w.i);
    } else if w.Receive? {
      ReceiveStaysSound(job, st, cell, w.i, w.probe);
    } else if w.Merge? {
      MergeStaysSound(job, st, cell);
    } else if w.MarkProcessing? {
      MarkProcessingStaysSound(job, st, cell, w.o);
    } else if w.MarkFailed? {
      MarkFailedStaysSound(job, st, cell, w.o);
    } else if w.MarkDispatched? {
      MarkDispatchedStaysSound(job, st, cell, w.o);
    } else if w.Classify? {
      ClassifyStaysSound(job, st, cell, w.calls, w.reply);
    } else {
      OtherWorkStaysSound(job, st, cell, w);
    }
  }

  // ---------- acknowledgements ----------

  /** Nothing is received, and the run goes where acknowledgements are allowed as before. */
  lemma QuietWorkKeepsAcks(cell: Cell, next: Cell)
    requires AcksOk(cell) && next.receipts == cell.receipts
    requires forall i: nat :: MayBeAcked(cell.run, i) ==> MayBeAcked(next.run, i)
    ensures AcksOk(next)
  {
    forall i: nat ensures AckOk(next, i) {
      assert AckOk(cell, i);
    }
  }

  lemma NoAcksAreOk(next: Cell)
    requires !AnyAck(next.receipts)
    ensures AcksOk(next)
  {
    forall i: nat ensures AckOk(next, i) {
      assert forall k :: 0 <= k < |next.receipts| && IsAck(next.receipts[k], i) ==>
        IsAck(next.receipts[k], next.receipts[k].target);
    }
  }

  lemma AppendKeepsAckedOnce(receipts: seq<Receipt>, r: Receipt, i: nat)
    requires AckedOnce(receipts, i) && (IsAck(r, i) ==> !Acked(receipts, i))
    ensures AckedOnce(receipts + [r], i)
    ensures Acked(receipts + [r], i) <==> Acked(receipts, i) || IsAck(r, i)
  {
    var longer := receipts + [r];
    assert longer[|receipts|] == r;
    if Acked(receipts, i) {
      var k :| 0 <= k < |receipts| && IsAck(receipts[k], i);
      assert longer[k] == receipts[k];
    }
  }

  lemma ReceiveKeepsAcks(st: Settings, cell: Cell, i: nat, p: Probe)
    requires AcksOk(cell) && CanWork(st, cell, Receive(i, p))
    ensures AcksOk(ReceiveStep(st, cell, i, p))
  {
    var next := ReceiveStep(st, cell, i, p);
    forall t: nat ensures AckOk(next, t) {
      assert AckOk(cell, t);
      AppendKeepsAckedOnce(cell.receipts, Receipt(i, p.reply), t);
    }
  }

  /** If no target counts as a success, none has acknowledged. */
  lemma NoSuccessMeansNoAck(st: Settings, cell: Cell)
    requires AcksOk(cell) && CanWork(st, cell, Merge)
    requires Successes(Results(st.targets, Loops(cell.run.phase.slots))) == 0
    ensures forall i: nat :: !Acked(cell.receipts, i)
  {
    var results := Results(st.targets, Loops(cell.run.phase.slots));
    forall i: nat ensures !Acked(cell.receipts, i) {
      assert AckOk(cell, i);
      if i < |results| {
        assert !results[i].success;
      }
    }
  }

  lemma MergeKeepsAcks(st: Settings, cell: Cell)
    requires AcksOk(cell) && CanWork(st, cell, Merge)
    ensures AcksOk(MergeStep(st, cell))
  {
    var next := MergeStep(st, cell);
    if next.run.phase.Failing? {
      NoSuccessMeansNoAck(st, cell);
      forall i: nat ensures AckOk(next, i) {
        assert !Acked(cell.receipts, i) && AckOk(cell, i);
      }
    } else {
      QuietWorkKeepsAcks(cell, next);
    }
  }

  /** The two ways an attempt can end without its outcome being on record. */
  predicate LosesOutcome(w: Work) {
    w.Cut? || (w.MarkDispatched? && w.o.Failed?)
  }

  /** An attempt that ends in any other way and will be followed by another, handled or not,
      has been acknowledged by no target. */
  lemma OnlyUnacknowledgedAttemptsAreRetried(job: Job, st: Settings, cell: Cell, w: Work)
    requires cell.intact && AcksOk(cell) && CanWork(st, cell, w)
    requires cell.run.Trying? && After(job, st, cell, w).run.Waiting? && !LosesOutcome(w)
    ensures !AnyAck(cell.receipts) && After(job, st, cell, w).intact
  {
    if AnyAck(cell.receipts) {
      var k :| 0 <= k < |cell.receipts| && IsAck(cell.receipts[k], cell.receipts[k].target);
      assert AckOk(cell, cell.receipts[k].target);
      assert Acked(cell.receipts, cell.receipts[k].target);
      assert false;
    }
  }

  /** `intact` is lost exactly when an outcome is lost after an acknowledgement. */
  lemma IntactIsLostOnlyWithAnOutcome(job: Job, st: Settings, cell: Cell, w: Work)
    requires CanWork(st, cell, w) && cell.intact
    ensures !After(job, st, cell, w).intact <==> LosesOutcome(w) && AnyAck(cell.receipts)
  {
  }

  lemma WorkKeepsAcks(job: Job, st: Settings, cell: Cell, w: Work)
    requires cell.intact ==> AcksOk(cell)
    requires CanWork(st, cell, w) && After(job, st, cell, w).intact
    ensures AcksOk(After(job, st, cell, w))
  {
    var next := After(job, st, cell, w);
    if w.Receive? {
      ReceiveKeepsAcks(st, cell, w.i, w.probe);
    } else if w.Merge? {
      MergeKeepsAcks(st, cell);
    } else if LosesOutcome(w) {
      NoAcksAreOk(next);
    } else {
      QuietWorkKeepsAcks(cell, next);
    }
  }

  // ---------- verdicts ----------

  lemma MarksKeepVerdict(job: Job, st: Settings, cell: Cell, w: Work)
    requires Sound(job, st, cell) && VerdictOk(cell) && CanWork(st, cell, w)
    requires w.MarkProcessing? || w.MarkFailed? || w.MarkDispatched?
    ensures After(job, st, cell, w).row.Some? && VerdictOk(After(job, st, cell, w))
  {
  }

  lemma BuryKeepsVerdict(job: Job, st: Settings, cell: Cell, o: Outcome)
    requires Sound(job, st, cell) && VerdictOk(cell) && CanWork(st, cell, Bury(o))
    ensures VerdictOk(BuryStep(cell, o))
  {
  }

  lemma WorkKeepsVerdict(job: Job, st: Settings, cell: Cell, w: Work)
    requires Sound(job, st, cell) && VerdictOk(cell) && CanWork(st, cell, w)
    ensures After(job, st, cell, w).row.Some? && VerdictOk(After(job, st, cell, w))
  {
    if w.MarkProcessing? || w.MarkFailed? || w.MarkDispatched? {
      MarksKeepVerdict(job, st, cell, w);
    } else if w.Bury? {
      BuryKeepsVerdict(job, st, cell, w.o);
    }
  }

  // ---------- what was delivered ----------

  lemma ReceivingKeepsAcked(receipts: seq<Receipt>, r: Receipt, i: nat)
    requires Acked(receipts, i) || IsAck(r, i)
    ensures Acked(receipts + [r], i)
  {
    var longer := receipts + [r];
    if IsAck(r, i) {
      assert longer[|receipts|] == r;
    } else {
      var k :| 0 <= k < |receipts| && IsAck(receipts[k], i);
      assert longer[k] == receipts[k];
    }
  }

  lemma ReceivingKeepsVouched(results: seq<DispatchResult>, receipts: seq<Receipt>, r: Receipt)
    requires Vouched(results, receipts)
    ensures Vouched(results, receipts + [r])
  {
    forall i | 0 <= i < |results| && results[i].success ensures Acked(receipts + [r], i) {
      ReceivingKeepsAcked(receipts, r, i);
    }
  }

  lemma ReceiveKeepsDelivery(st: Settings, cell: Cell, i: nat, p: Probe)
    requires cell.row.Some? && DeliveryOk(st, cell) && CanWork(st, cell, Receive(i, p))
    ensures DeliveryOk(st, ReceiveStep(st, cell, i, p))
  {
    var next := ReceiveStep(st, cell, i, p);
    var r := Receipt(i, p.reply);
    if cell.row.value.enrichment.Some? {
      ReceivingKeepsVouched(cell.row.value.enrichment.value.results, cell.receipts, r);
    }
    var slots, after := cell.run.phase.slots, next.run.phase.slots;
    forall k | 0 <= k < |after| && Delivered(after[k].loop) ensures Acked(next.receipts, k) {
      assert k != i ==> after[k] == slots[k];
      ReceivingKeepsAcked(cell.receipts, r, k);
    }
  }

  lemma MergeKeepsDelivery(st: Settings, cell: Cell)
    requires cell.row.Some? && DeliveryOk(st, cell) && CanWork(st, cell, Merge)
    ensures DeliveryOk(st, MergeStep(st, cell))
  {
    var slots := cell.run.phase.slots;
    var results := Results(st.targets, Loops(slots));
    forall i | 0 <= i < |results| && results[i].success ensures Acked(cell.receipts, i) {
      assert Delivered(slots[i].loop);
    }
  }

  /** Nothing is received, no results are stored, and the run is not about any. */
  lemma QuietWorkKeepsDelivery(st: Settings, cell: Cell, next: Cell)
    requires cell.row.Some? && DeliveryOk(st, cell)
    requires next.row.Some? && next.receipts == cell.receipts
    requires next.row.value.enrichment == cell.row.value.enrichment
    requires next.row.value.status == DISPATCHED ==> cell.row.value.status == DISPATCHED
    requires !(next.run.Trying? && (next.run.phase.Fanning? || next.run.phase.Storing?))
    ensures DeliveryOk(st, next)
  {
  }

  lemma SendKeepsDelivery(job: Job, st: Settings, cell: Cell, i: nat)
    requires cell.row.Some? && DeliveryOk(st, cell) && CanWork(st, cell, Send(i))
    ensures DeliveryOk(st, SendStep(job, cell, i))
  {
    var slots, after := cell.run.phase.slots, SendStep(job, cell, i).run.phase.slots;
    forall k | 0 <= k < |after| && Delivered(after[k].loop) ensures Acked(cell.receipts, k) {
      assert slots[k].loop == after[k].loop;
    }
  }

  lemma ClassifyKeepsDelivery(st: Settings, cell: Cell, calls: nat, reply: Llm.Reply)
    requires cell.row.Some? && DeliveryOk(st, cell) && CanWork(st, cell, Classify(calls, reply))
    ensures ClassifyStep(st, cell, calls, reply).row.Some? && DeliveryOk(st, ClassifyStep(st, cell, calls, reply))
  {
  }

  lemma MarkDispatchedKeepsDelivery(st: Settings, cell: Cell, o: Outcome)
    requires cell.row.Some? && DeliveryOk(st, cell) && CanWork(st, cell, MarkDispatched(o))
    ensures MarkDispatchedStep(cell, o).row.Some? && DeliveryOk(st, MarkDispatchedStep(cell, o))
  {
  }

  lemma OtherWorkIsQuiet(job: Job, st: Settings, cell: Cell, w: Work, next: Cell)
    requires cell.row.Some? && CanWork(st, cell, w) && next == After(job, st, cell, w)
    requires !w.Send? && !w.Receive? && !w.Merge? && !w.Classify? && !w.MarkDispatched?
    ensures next.row.Some? && next.receipts == cell.receipts
    ensures next.row.value.enrichment == cell.row.value.enrichment
    ensures next.row.value.status == DISPATCHED ==> cell.row.value.status == DISPATCHED
    ensures !(next.run.Trying? && (next.run.phase.Fanning? || next.run.phase.Storing?))
  {
  }

  lemma OtherWorkKeepsDelivery(job: Job, st: Settings, cell: Cell, w: Work)
    requires cell.row.Some? && DeliveryOk(st, cell) && CanWork(st, cell, w)
    requires !w.Send? && !w.Receive? && !w.Merge? && !w.Classify? && !w.MarkDispatched?
    ensures After(job, st, cell, w).row.Some? && DeliveryOk(st, After(job, st, cell, w))
  {
    OtherWorkIsQuiet(job, st, cell, w, After(job, st, cell, w));
    QuietWorkKeepsDelivery(st, cell, After(job, st, cell, w));
  }

  lemma WorkKeepsDelivery(job: Job, st: Settings, cell: Cell, w: Work)
    requires cell.row.Some? && DeliveryOk(st, cell) && CanWork(st, cell, w)
    ensures After(job, st, cell, w).row.Some? && DeliveryOk(st, After(job, st, cell, w))
  {
    if w.Send? {
      SendKeepsDelivery(job, st, cell, w.i);
    } else if w.Receive? {
      ReceiveKeepsDelivery(st, cell, w.i, w.probe);
    } else if w.Merge? {
      MergeKeepsDelivery(st, cell);
    } else if w.Classify? {
      ClassifyKeepsDelivery(st, cell, w.calls, w.reply);
    } else if w.MarkDispatched? {
      MarkDispatchedKeepsDelivery(st, cell, w.o);
    } else {
      OtherWorkKeepsDelivery(job, st, cell, w);
    }
  }

  // ---------- the course ----------

  /** No handled step loses an outcome. */
  lemma HandledStaysIntact(job: Job, st: Settings, cell: Cell, w: Work)
    requires CanWork(st, cell, w) && After(job, st, cell, w).handled
    ensures cell.handled && !LosesOutcome(w) && (cell.intact ==> After(job, st, cell, w).intact)
  {
  }

  lemma MarkProcessingStaysOnCourse(cell: Cell, o: Outcome)
    requires cell.row.Some? && OnCourse(cell) && cell.run.Trying? && cell.run.phase.Started?
    ensures o.Done? ==> MarkProcessingStep(cell, o).row.Some? && OnCourse(MarkProcessingStep(cell, o))
  {
  }

  lemma MarkFailedStaysOnCourse(cell: Cell, o: Outcome)
    requires cell.row.Some? && OnCourse(cell) && cell.run.Trying? && cell.run.phase.Failing?
    requires cell.run.attempt <= MAX_TRIES
    ensures o.Done? ==> MarkFailedStep(cell, o).row.Some? && OnCourse(MarkFailedStep(cell, o))
  {
    if o.Done? {
      assert MarkFailedStep(cell, o).trail == Rounds(cell.run.attempt - 1) + [PROCESSING] + [FAILED];
      assert MarkFailedStep(cell, o).trail == Rounds(cell.run.attempt);
    }
  }

  lemma MarkDispatchedStaysOnCourse(cell: Cell, o: Outcome)
    requires cell.row.Some? && OnCourse(cell) && cell.run.Trying? && cell.run.phase.Storing?
    ensures o.Done? ==> MarkDispatchedStep(cell, o).row.Some? && OnCourse(MarkDispatchedStep(cell, o))
  {
  }

  lemma OtherWorkStaysOnCourse(job: Job, st: Settings, cell: Cell, w: Work, next: Cell)
    requires Sound(job, st, cell) && OnCourse(cell)
    requires CanWork(st, cell, w) && next == After(job, st, cell, w) && next.handled
    requires !w.MarkProcessing? && !w.MarkFailed? && !w.MarkDispatched?
    ensures next.row.Some? && OnCourse(next)
  {
  }

  lemma HandledStaysOnCourse(job: Job, st: Settings, cell: Cell, w: Work)
    requires Sound(job, st, cell) && OnCourse(cell)
    requires CanWork(st, cell, w) && After(job, st, cell, w).handled
    ensures After(job, st, cell, w).row.Some? && OnCourse(After(job, st, cell, w))
  {
    if w.MarkProcessing? {
      MarkProcessingStaysOnCourse(cell, w.o);
    } else if w.MarkFailed? {
      MarkFailedStaysOnCourse(cell, w.o);
    } else if w.MarkDispatched? {
      MarkDispatchedStaysOnCourse(cell, w.o);
    } else {
      OtherWorkStaysOnCourse(job, st, cell, w, After(job, st, cell, w));
    }
  }

  /** Every step of every run keeps the invariant. */
  lemma WorkKeepsInv(job: Job, st: Settings, cell: Cell, w: Work)
    requires CellInv(job, st, cell) && CanWork(st, cell, w)
    ensures CellInv(job, st, After(job, st, cell, w))
  {
    var next := After(job, st, cell, w);
    WorkStaysSound(job, st, cell, w);
    WorkKeepsVerdict(job, st, cell, w);
    WorkKeepsDelivery(job, st, cell, w);
    if next.intact {
      WorkKeepsAcks(job, st, cell, w);
    }
    if next.handled {
      HandledStaysIntact(job, st, cell, w);
      HandledStaysOnCourse(job, st, cell, w);
    }
  }

  lemma {:induction false} WorksKeepInv(job: Job, st: Settings, cell: Cell, works: seq<Work>)
    requires CellInv(job, st, cell) && CanWorkAll(job, st, cell, works)
    ensures CellInv(job, st, AfterAll(job, st, cell, works))
    decreases |works|
  {
    if works != [] {
      WorkKeepsInv(job, st, cell, works[0]);
      WorksKeepInv(job, st, After(job, st, cell, works[0]), works[1..]);
    }
  }
}
