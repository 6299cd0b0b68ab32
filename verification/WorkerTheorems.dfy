/** What holds of every run of the worker for one event, from the moment it was queued. */
module WorkerTheorems {
  import opened Prelude
  import opened Schemas
  import opened Events
  import opened RetryLoop
  import opened FanOut
  import opened Worker
  import opened WorkerInvariant
  import Llm

  /** The state after a run, from a row as the route wrote it. */
  ghost predicate RunOf(job: Job, st: Settings, works: seq<Work>, cell: Cell) {
    var start := Queued(NewRow(job.source, job.key, job.payload));
    CanWorkAll(job, st, start, works) && AfterAll(job, st, start, works) == cell
  }

  lemma RunHasInv(job: Job, st: Settings, works: seq<Work>, cell: Cell)
    requires RunOf(job, st, works, cell)
    ensures CellInv(job, st, cell)
  {
    var row := NewRow(job.source, job.key, job.payload);
    QueuedHasInv(job, st, row);
    WorksKeepInv(job, st, Queued(row), works);
  }

  // ---------- one acknowledgement per target ----------

  /** Over all attempts and all inner retries a target acknowledges at most once, unless an
      attempt was cut off or its mark_dispatched raised after an acknowledgement. */
  lemma AcknowledgedAtMostOnce(job: Job, st: Settings, works: seq<Work>, cell: Cell, i: nat)
    requires RunOf(job, st, works, cell) && cell.intact
    ensures AckedOnce(cell.receipts, i)
  {
    RunHasInv(job, st, works, cell);
    assert AckOk(cell, i);
  }

  lemma WorkThenWorks(job: Job, st: Settings, cell: Cell, w: Work, rest: seq<Work>)
    requires CanWork(st, cell, w) && CanWorkAll(job, st, After(job, st, cell, w), rest)
    ensures CanWorkAll(job, st, cell, [w] + rest)
    ensures AfterAll(job, st, cell, [w] + rest) == AfterAll(job, st, After(job, st, cell, w), rest)
  {
  }

  /** An attempt up to a first acknowledgement. */
  function AttemptUpToAnAck(i: nat, e: Enrichment): seq<Work> {
    [Start, MarkProcessing(Done), Classify(1, Llm.Enriched(e)), Send(i), Receive(i, Probe(Status(200), 1, 0))]
  }

  lemma AttemptsCanBeAcked(job: Job, st: Settings, cell: Cell, i: nat, e: Enrichment)
    requires cell.run.Waiting? && cell.run.tries < MAX_TRIES && cell.row.Some? && i < |st.targets|
    ensures CanWorkAll(job, st, cell, AttemptUpToAnAck(i, e))
    ensures var next := AfterAll(job, st, cell, AttemptUpToAnAck(i, e));
      && next.row.Some? && next.run.Trying? && next.run.attempt == cell.run.tries + 1
      && next.receipts == cell.receipts + [Receipt(i, Status(200))]
  {
    var mark, classify := MarkProcessing(Done), Classify(1, Llm.Enriched(e));
    var receive := Receive(i, Probe(Status(200), 1, 0));
    var c1 := After(job, st, cell, Start);
    var c2 := After(job, st, c1, mark);
    var c3 := After(job, st, c2, classify);
    var c4 := After(job, st, c3, Send(i));
    WorkThenWorks(job, st, c4, receive, []);
    WorkThenWorks(job, st, c3, Send(i), [receive]);
    WorkThenWorks(job, st, c2, classify, [Send(i), receive]);
    WorkThenWorks(job, st, c1, mark, [classify, Send(i), receive]);
    WorkThenWorks(job, st, cell, Start, [mark, classify, Send(i), receive]);
    assert AttemptUpToAnAck(i, e) == [Start] + [mark, classify, Send(i), receive];
  }

  /** The condition is needed: a run in which the first attempt is cut off after a target
      acknowledged, and the second is acknowledged by the same target. */
  lemma RerunCanDeliverTwice(job: Job, st: Settings, i: nat, e: Enrichment)
    requires i < |st.targets|
    ensures exists works, cell :: RunOf(job, st, works, cell) && !AckedOnce(cell.receipts, i)
  {
    var start := Queued(NewRow(job.source, job.key, job.payload));
    var first, cut := AttemptUpToAnAck(i, e), AttemptUpToAnAck(i, e) + [Cut(0)];
    AttemptsCanBeAcked(job, st, start, i, e);
    WorkAppend(job, st, start, first, Cut(0));
    var c1 := AfterAll(job, st, start, cut);
    AttemptsCanBeAcked(job, st, c1, i, e);
    WorksAppend(job, st, start, cut, first);
    var cell := AfterAll(job, st, start, cut + first);
    assert RunOf(job, st, cut + first, cell);
    assert cell.receipts == [Receipt(i, Status(200)), Receipt(i, Status(200))];
    assert IsAck(cell.receipts[0], i) && IsAck(cell.receipts[1], i);
  }

  // ---------- where an event ends ----------

  /** When process_webhook has returned for an event, however its attempts before ended, the
      event is in one of two states: DISPATCHED by the last attempt with its enrichment and
      without error or dead letter, or FAILED after MAX_TRIES attempts with a dead letter that
      repeats the row's last error and count. */
  lemma SettledInOneOfTwoWays(job: Job, st: Settings, works: seq<Work>, cell: Cell)
    requires RunOf(job, st, works, cell) && cell.run.Finished?
    ensures cell.row.Some?
    ensures var row := cell.row.value;
      if cell.run.delivered then
        && row.status == DISPATCHED && row.enrichment.Some? && row.lastError.None?
        && cell.letter.None? && 1 <= row.dispatchAttempts == cell.run.attempts <= MAX_TRIES
      else
        && row.status == FAILED && row.lastError.Some? && row.dispatchAttempts == MAX_TRIES
        && cell.letter == Some(DeadLetter(row.lastError.value, MAX_TRIES))
        && (cell.handled ==> row.enrichment.None?)
  {
    RunHasInv(job, st, works, cell);
  }

  /** A row is DISPATCHED only if its targets were reached: every result stored as a success
      has an acknowledgement, and unless there are no targets there is at least one. */
  lemma DispatchedMeansDelivered(job: Job, st: Settings, works: seq<Work>, cell: Cell)
    requires RunOf(job, st, works, cell)
    ensures cell.row.Some?
    ensures cell.row.value.status == DISPATCHED ==>
      && cell.row.value.enrichment.Some?
      && |cell.row.value.enrichment.value.results| == |st.targets|
      && Vouched(cell.row.value.enrichment.value.results, cell.receipts)
      && (st.targets != [] ==> exists i: nat :: i < |st.targets| && Acked(cell.receipts, i))
  {
    RunHasInv(job, st, works, cell);
    if cell.row.value.status == DISPATCHED && st.targets != [] {
      var results := cell.row.value.enrichment.value.results;
      var i :| 0 <= i < |results| && results[i].success;
      assert Acked(cell.receipts, i);
    }
  }

  /** An event with a dead letter was acknowledged by nobody, unless an outcome was lost. */
  lemma DeadLettersWereNotDelivered(job: Job, st: Settings, works: seq<Work>, cell: Cell)
    requires RunOf(job, st, works, cell) && cell.intact && cell.letter.Some?
    ensures !AnyAck(cell.receipts)
  {
    RunHasInv(job, st, works, cell);
    forall k | 0 <= k < |cell.receipts| ensures !IsAck(cell.receipts[k], cell.receipts[k].target) {
      var i := cell.receipts[k].target;
      assert AckOk(cell, i);
      assert IsAck(cell.receipts[k], i) ==> Acked(cell.receipts, i);
    }
  }

  /** A prefix of `n` rounds and a last one. */
  predicate InLanguage(trail: seq<Status>, n: nat) {
    trail <= Rounds(n) + [PROCESSING, DISPATCHED] || trail <= Rounds(n) + [PROCESSING, FAILED]
  }

  /** Where on its course an event is: after `n` full rounds, and `end` of the next one. */
  lemma CourseShape(cell: Cell) returns (n: nat, end: seq<Status>)
    requires cell.row.Some? && OnCourse(cell) && Tries(cell.run) <= MAX_TRIES
    ensures end == [] || end == [PROCESSING] || end == [PROCESSING, DISPATCHED]
    ensures cell.trail == Rounds(n) + end && (n < MAX_TRIES || (n == MAX_TRIES && end == []))
    ensures cell.row.value.dispatchAttempts == n + (if |end| == 2 then 1 else 0)
    ensures cell.row.value.status == if end != [] then end[|end| - 1] else if n == 0 then RECEIVED else FAILED
  {
    match cell.run
    case Waiting(t) => n, end := t, [];
    case Finished(t, delivered) =>
      if delivered { n, end := t - 1, [PROCESSING, DISPATCHED]; } else { n, end := MAX_TRIES, []; }
    case Trying(t, phase) =>
      if phase.Returning? {
        if phase.delivered { n, end := t - 1, [PROCESSING, DISPATCHED]; } else { n, end := MAX_TRIES, []; }
      } else if phase.Started? {
        n, end := t - 1, [];
      } else if phase.Burying? {
        n, end := t, [];
      } else {
        n, end := t - 1, [PROCESSING];
      }
  }

  lemma ShapeIsInLanguage(n: nat, end: seq<Status>)
    requires end == [] || end == [PROCESSING] || end == [PROCESSING, DISPATCHED]
    requires n < MAX_TRIES || (n == MAX_TRIES && end == [])
    ensures exists k: nat :: k < MAX_TRIES && InLanguage(Rounds(n) + end, k)
  {
    if end == [] && n > 0 {
      assert Rounds(n) + end == Rounds(n - 1) + [PROCESSING, FAILED];
      assert InLanguage(Rounds(n) + end, n - 1);
    } else {
      assert end <= [PROCESSING, DISPATCHED];
      assert InLanguage(Rounds(n) + end, n);
    }
  }

  /** Every handled run reads RECEIVED (PROCESSING FAILED)^n and then PROCESSING DISPATCHED
      or PROCESSING FAILED, cut off anywhere, with at most MAX_TRIES rounds; and the row's
      count is the number of attempts that reached their verdict. */
  lemma LifecycleLanguage(job: Job, st: Settings, works: seq<Work>, cell: Cell)
    requires RunOf(job, st, works, cell) && cell.handled
    ensures exists n: nat :: n < MAX_TRIES && InLanguage(cell.trail, n)
    ensures cell.row.Some? && cell.trail != [] && cell.row.value.status == cell.trail[|cell.trail| - 1]
    ensures cell.row.value.dispatchAttempts == Verdicts(cell.trail)
  {
    RunHasInv(job, st, works, cell);
    var n, end := CourseShape(cell);
    VerdictsOfRounds(n, end);
    RoundsEnd(n);
    ShapeIsInLanguage(n, end);
  }

  /** How often the status became FAILED or DISPATCHED. */
  function Verdicts(trail: seq<Status>): nat {
    if trail == [] then 0
    else
      var last := trail[|trail| - 1];
      Verdicts(trail[..|trail| - 1]) + (if last == FAILED || last == DISPATCHED then 1 else 0)
  }

  lemma {:induction false} VerdictsOfRounds(n: nat, end: seq<Status>)
    requires end == [] || end == [PROCESSING] || end == [PROCESSING, DISPATCHED]
    ensures Verdicts(Rounds(n) + end) == n + (if |end| == 2 then 1 else 0)
    ensures end == [] ==> Rounds(n) + end == Rounds(n)
    decreases n, |end|
  {
    var trail := Rounds(n) + end;
    if end != [] {
      VerdictsOfRounds(n, end[..|end| - 1]);
      assert trail[..|trail| - 1] == Rounds(n) + end[..|end| - 1];
    } else if n == 0 {
      assert trail == [RECEIVED] && trail[..0] == [];
    } else {
      VerdictsOfRounds(n - 1, [PROCESSING]);
      assert trail[..|trail| - 1] == Rounds(n - 1) + [PROCESSING];
    }
  }

  lemma RoundsEnd(n: nat)
    ensures Rounds(n) != [] && Rounds(n)[|Rounds(n)| - 1] == (if n == 0 then RECEIVED else FAILED)
  {
  }

  lemma NothingFollowsTheEnd(job: Job, st: Settings, cell: Cell, works: seq<Work>)
    requires cell.run.Finished? && CanWorkAll(job, st, cell, works)
    ensures works == []
  {
  }

  /** Once mark_dispatched has returned the row is DISPATCHED and is never written again,
      unless the attempt is cut off before its end is on record. */
  lemma DispatchedIsFinal(job: Job, st: Settings, cell: Cell, works: seq<Work>)
    requires CellInv(job, st, cell) && CanWorkAll(job, st, cell, works)
    requires cell.run.Trying? && cell.run.phase == Returning(true)
    requires forall i :: 0 <= i < |works| ==> !works[i].Cut?
    ensures works == [] || works == [Finish]
    ensures AfterAll(job, st, cell, works).row == cell.row && cell.row.value.status == DISPATCHED
  {
    if works != [] {
      NothingFollowsTheEnd(job, st, After(job, st, cell, works[0]), works[1..]);
      assert works == [works[0]] + works[1..];
    }
  }

  /** The count never goes back, whatever happens to the attempts. */
  lemma AttemptsNeverDecrease(job: Job, st: Settings, cell: Cell, w: Work)
    requires Sound(job, st, cell) && CanWork(st, cell, w)
    ensures After(job, st, cell, w).row.Some?
    ensures After(job, st, cell, w).row.value.dispatchAttempts >= cell.row.value.dispatchAttempts
  {
  }

  // ---------- how long it goes on ----------

  /** A request that is under way has one step less to go. */
  function SlotLeft(budget: nat): Slot -> int {
    (slot: Slot) => if slot.loop.Ended? then 0 else 2 * Left(budget, slot.loop) - (if slot.out then 1 else 0)
  }

  ghost function FanOutRank(st: Settings, slots: seq<Slot>): (r: nat) {
    SumIsNonNegative(SlotLeft(st.budget), slots);
    Sum(SlotLeft(st.budget), slots)
  }

  ghost function FullRank(st: Settings): nat {
    FanOutRank(st, FreshSlots(st))
  }

  /** Steps left in the attempts that have not begun. */
  ghost function RanksAhead(st: Settings, attempts: nat): nat {
    if attempts == 0 then 1 else RanksAhead(st, attempts - 1) + FullRank(st) + 7
  }

  ghost function PhaseRank(st: Settings, phase: Phase): nat {
    match phase
    case Started => FullRank(st) + 5
    case Classifying => FullRank(st) + 4
    case Fanning(_, slots) => FanOutRank(st, slots) + 3
    case Failing(_) => 2
    case Storing(_, _) => 2
    case Burying(_) => 1
    case Returning(_) => 0
  }

  ghost function Rank(st: Settings, run: Progress): nat
    requires RunOk(st, run)
  {
    match run
    case Waiting(t) => RanksAhead(st, MAX_TRIES - t)
    case Trying(t, phase) => RanksAhead(st, MAX_TRIES - t) + 1 + PhaseRank(st, phase)
    case Finished(_, _) => 0
  }

  lemma {:induction false} RanksAheadArePositive(st: Settings, attempts: nat)
    ensures RanksAhead(st, attempts) >= 1
  {
  }

  lemma SendingShrinks(st: Settings, slots: seq<Slot>, i: nat)
    requires i < |slots| && slots[i].loop.Running? && !slots[i].out
    ensures FanOutRank(st, slots[i := slots[i].(out := true)]) < FanOutRank(st, slots)
  {
    SumUpdate(SlotLeft(st.budget), slots, i, slots[i].(out := true));
  }

  lemma ReceivingShrinks(st: Settings, slots: seq<Slot>, i: nat, p: Probe)
    requires i < |slots| && slots[i].loop.Running?
    ensures FanOutRank(st, slots[i := Slot(Advance(slots[i].loop, st.budget, p), false)]) < FanOutRank(st, slots)
  {
    AdvanceShrinks(st.budget, slots[i].loop, p);
    SumUpdate(SlotLeft(st.budget), slots, i, Slot(Advance(slots[i].loop, st.budget, p), false));
  }

  lemma SendRanksLower(job: Job, st: Settings, cell: Cell, i: nat)
    requires Sound(job, st, cell) && CanWork(st, cell, Send(i))
    ensures RunOk(st, SendStep(job, cell, i).run)
    ensures Rank(st, SendStep(job, cell, i).run) < Rank(st, cell.run)
  {
    SendingShrinks(st, cell.run.phase.slots, i);
  }

  lemma ReceiveRanksLower(job: Job, st: Settings, cell: Cell, i: nat, p: Probe)
    requires Sound(job, st, cell) && CanWork(st, cell, Receive(i, p))
    ensures RunOk(st, ReceiveStep(st, cell, i, p).run)
    ensures Rank(st, ReceiveStep(st, cell, i, p).run) < Rank(st, cell.run)
  {
    ReceivingShrinks(st, cell.run.phase.slots, i, p);
  }

  lemma StartRanksLower(st: Settings, t: nat)
    requires t < MAX_TRIES
    ensures Rank(st, Trying(t + 1, Started)) < Rank(st, Waiting(t))
  {
  }

  lemma ClassifyRanksLower(job: Job, st: Settings, cell: Cell, calls: nat, reply: Llm.Reply)
    requires Sound(job, st, cell) && CanWork(st, cell, Classify(calls, reply))
    ensures RunOk(st, ClassifyStep(st, cell, calls, reply).run)
    ensures Rank(st, ClassifyStep(st, cell, calls, reply).run) < Rank(st, cell.run)
  {
  }

  lemma MergeRanksLower(job: Job, st: Settings, cell: Cell)
    requires Sound(job, st, cell) && CanWork(st, cell, Merge)
    ensures RunOk(st, MergeStep(st, cell).run)
    ensures Rank(st, MergeStep(st, cell).run) < Rank(st, cell.run)
  {
  }

  lemma OtherWorkRanksLower(job: Job, st: Settings, cell: Cell, w: Work)
    requires Sound(job, st, cell) && CanWork(st, cell, w)
    requires !w.Start? && !w.Classify? && !w.Send? && !w.Receive? && !w.Merge?
    ensures RunOk(st, After(job, st, cell, w).run)
    ensures Rank(st, After(job, st, cell, w).run) < Rank(st, cell.run)
  {
    RanksAheadArePositive(st, MAX_TRIES - cell.run.attempt);
  }

  /** Every step, even one that cuts an attempt off, uses up some of what is left. */
  lemma WorkRanksLower(job: Job, st: Settings, cell: Cell, w: Work)
    requires Sound(job, st, cell) && CanWork(st, cell, w)
    ensures RunOk(st, After(job, st, cell, w).run)
    ensures Rank(st, After(job, st, cell, w).run) < Rank(st, cell.run)
  {
    if w.Start? {
      StartRanksLower(st, cell.run.tries);
    } else if w.Classify? {
      ClassifyRanksLower(job, st, cell, w.calls, w.reply);
    } else if w.Send? {
      SendRanksLower(job, st, cell, w.i);
    } else if w.Receive? {
      ReceiveRanksLower(job, st, cell, w.i, w.probe);
    } else if w.Merge? {
      MergeRanksLower(job, st, cell);
    } else {
      OtherWorkRanksLower(job, st, cell, w);
    }
  }

  /** No run is longer than the rank it starts with, re-runs included. */
  lemma {:induction false} RunsAreBounded(job: Job, st: Settings, cell: Cell, works: seq<Work>)
    requires Sound(job, st, cell) && CanWorkAll(job, st, cell, works)
    ensures |works| <= Rank(st, cell.run)
    decreases |works|
  {
    if works != [] {
      WorkRanksLower(job, st, cell, works[0]);
      WorkStaysSound(job, st, cell, works[0]);
      RunsAreBounded(job, st, After(job, st, cell, works[0]), works[1..]);
    }
  }

  /** There is always a next step until process_webhook has returned or the tries are used up. */
  lemma OnlyTheEndIsStuck(job: Job, st: Settings, cell: Cell)
    requires Sound(job, st, cell)
    ensures (forall w :: !CanWork(st, cell, w)) <==> cell.run.Finished? || cell.run == Waiting(MAX_TRIES)
  {
    if cell.run.Waiting? && cell.run.tries < MAX_TRIES {
      assert CanWork(st, cell, Start);
    } else if cell.run.Trying? {
      assert CanWork(st, cell, Cut(0));
    }
  }

  /** An exception the worker does not expect ends the attempt, or it is cut off. */
  predicate Unhandled(w: Work) {
    match w
    case Cut(_) => true
    case Classify(_, reply) => reply.Raised?
    case MarkProcessing(o) => o.Failed?
    case MarkFailed(o) => o.Failed?
    case Bury(o) => o.Failed?
    case MarkDispatched(o) => o.Failed?
    case _ => false
  }

  /** The last attempt ends without having returned exactly if it ends in such a way. */
  lemma LastAttemptIsLostIffUnhandled(job: Job, st: Settings, cell: Cell, w: Work)
    requires CellInv(job, st, cell) && CanWork(st, cell, w)
    requires cell.run.Trying? && cell.run.attempt == MAX_TRIES
    ensures After(job, st, cell, w).run == Waiting(MAX_TRIES) <==> Unhandled(w)
  {
  }

  lemma {:induction false} LastWork(job: Job, st: Settings, cell: Cell, works: seq<Work>)
    requires CanWorkAll(job, st, cell, works) && works != []
    ensures var init, last := works[..|works| - 1], works[|works| - 1];
      && CanWorkAll(job, st, cell, init) && CanWork(st, AfterAll(job, st, cell, init), last)
      && AfterAll(job, st, cell, works) == After(job, st, AfterAll(job, st, cell, init), last)
    decreases |works|
  {
    if |works| > 1 {
      LastWork(job, st, After(job, st, cell, works[0]), works[1..]);
      assert works[..|works| - 1][1..] == works[1..][..|works| - 2];
    }
  }

  /** What row and dead letter say when the last attempt is lost, for each way it can be. */
  ghost predicate LeftBehind(cell: Cell, w: Work, next: Cell)
    requires cell.row.Some? && next.row.Some? && cell.run.Trying?
  {
    var phase, status := cell.run.phase, next.row.value.status;
    match w
    case MarkProcessing(o) =>
      next.letter.None? && if Applied(o) then status == PROCESSING else next.row == cell.row
    case Classify(_, _) => next.letter.None? && status == PROCESSING
    case MarkFailed(o) => next.letter.None? && status == if Applied(o) then FAILED else PROCESSING
    case Bury(o) =>
      && status == FAILED && phase.Burying?
      && next.letter == if Applied(o) then Some(DeadLetter(phase.error, MAX_TRIES)) else None
    case MarkDispatched(o) => next.letter.None? && status == if Applied(o) then DISPATCHED else PROCESSING
    case _ =>
      && next.row == cell.row && next.letter == cell.letter
      && (phase.Returning? ==> Settled(next.row.value, next.letter, MAX_TRIES, phase.delivered))
      && (phase.Burying? ==> status == FAILED && next.letter.None?)
      && (!phase.Returning? && !phase.Burying? && !phase.Started? ==> status == PROCESSING && next.letter.None?)
      && (phase.Started? ==> next.letter.None?)
  }

  lemma WhatLosingTheLastAttemptLeaves(job: Job, st: Settings, cell: Cell, w: Work)
    requires CellInv(job, st, cell) && CanWork(st, cell, w) && Unhandled(w)
    requires cell.run.Trying? && cell.run.attempt == MAX_TRIES
    ensures var next := After(job, st, cell, w);
      && next.row.Some? && LeftBehind(cell, w, next)
      && forall v :: !CanWork(st, next, v)
  {
  }

  predicate TablesSettled(cell: Cell) {
    cell.row.Some? && (Settled(cell.row.value, cell.letter, MAX_TRIES, true)
                       || Settled(cell.row.value, cell.letter, MAX_TRIES, false))
  }

  /** Even so the tables are settled in exactly three cases: the attempt was cut off on its way
      out, or its last statement raised after it had taken effect. */
  lemma LostYetSettledExactly(job: Job, st: Settings, cell: Cell, w: Work)
    requires CellInv(job, st, cell) && CanWork(st, cell, w) && Unhandled(w)
    requires cell.run.Trying? && cell.run.attempt == MAX_TRIES
    ensures TablesSettled(After(job, st, cell, w)) <==>
      (w.Cut? && cell.run.phase.Returning?) || ((w.Bury? || w.MarkDispatched?) && Applied(w.o))
  {
  }

  /** When an event is out of tries without process_webhook having returned: exactly after a
      run whose last step ends the last attempt in an unforeseen way; and what that leaves. */
  lemma StrandedExactly(job: Job, st: Settings, works: seq<Work>, cell: Cell)
    requires RunOf(job, st, works, cell)
    ensures cell.run == Waiting(MAX_TRIES) <==>
      && works != [] && Unhandled(works[|works| - 1])
      && exists before :: RunOf(job, st, works[..|works| - 1], before)
           && before.run.Trying? && before.run.attempt == MAX_TRIES
    ensures cell.run == Waiting(MAX_TRIES) ==>
      exists before :: RunOf(job, st, works[..|works| - 1], before) && cell.row.Some? && before.row.Some?
        && before.run.Trying? && LeftBehind(before, works[|works| - 1], cell)
  {
    var start := Queued(NewRow(job.source, job.key, job.payload));
    if works != [] {
      LastWork(job, st, start, works);
      var before, last := AfterAll(job, st, start, works[..|works| - 1]), works[|works| - 1];
      assert RunOf(job, st, works[..|works| - 1], before);
      RunHasInv(job, st, works[..|works| - 1], before);
      if before.run.Trying? && before.run.attempt == MAX_TRIES {
        LastAttemptIsLostIffUnhandled(job, st, before, last);
        if Unhandled(last) {
          WhatLosingTheLastAttemptLeaves(job, st, before, last);
        }
      }
    }
  }

  /** Whatever has happened, unless the tries are used up there is a next step that keeps the
      way to the end open; and for an event whose failures were handled, a handled one. */
  lemma WorkGoesOn(job: Job, st: Settings, cell: Cell)
    requires CellInv(job, st, cell) && !cell.run.Finished? && cell.run != Waiting(MAX_TRIES)
    ensures exists w :: CanWork(st, cell, w) && GoesWell(cell, After(job, st, cell, w))
  {
    var w :=
      if cell.run.Waiting? then Start
      else match cell.run.phase
           case Started => MarkProcessing(Done)
           case Classifying => Classify(1, Llm.Unclassifiable(""))
           case Fanning(_, slots) =>
             if AllEnded(slots) then Merge
             else
               var i: nat :| i < |slots| && slots[i].loop.Running?;
               if slots[i].out then Receive(i, Probe(Status(200), 1, 0)) else Send(i)
           case Failing(_) => MarkFailed(Done)
           case Burying(_) => Bury(Done)
           case Storing(_, _) => MarkDispatched(Done)
           case Returning(_) => Finish;
    assert CanWork(st, cell, w) && GoesWell(cell, After(job, st, cell, w));
  }

  predicate GoesWell(cell: Cell, next: Cell) {
    next.run != Waiting(MAX_TRIES) && (cell.handled ==> next.handled)
  }

  predicate EndsWell(cell: Cell, end: Cell) {
    end.run.Finished? && (cell.handled ==> end.handled)
  }

  lemma {:induction false} WayToTheEnd(job: Job, st: Settings, cell: Cell)
    requires CellInv(job, st, cell) && cell.run != Waiting(MAX_TRIES)
    ensures exists works :: CanWorkAll(job, st, cell, works) && EndsWell(cell, AfterAll(job, st, cell, works))
    decreases Rank(st, cell.run)
  {
    if cell.run.Finished? {
      assert CanWorkAll(job, st, cell, []) && AfterAll(job, st, cell, []) == cell;
    } else {
      WorkGoesOn(job, st, cell);
      var w :| CanWork(st, cell, w) && GoesWell(cell, After(job, st, cell, w));
      var next := After(job, st, cell, w);
      WorkKeepsInv(job, st, cell, w);
      WorkRanksLower(job, st, cell, w);
      WayToTheEnd(job, st, next);
      var rest :| CanWorkAll(job, st, next, rest) && EndsWell(next, AfterAll(job, st, next, rest));
      WorkThenWorks(job, st, cell, w, rest);
    }
  }

  /** An event can be brought to its end exactly unless its tries are used up, whatever its
      attempts went through so far; if all its failures were handled they are not used up, and
      it gets there without any that is not. */
  lemma EveryEventCanFinishUnlessOutOfTries(job: Job, st: Settings, cell: Cell)
    requires CellInv(job, st, cell)
    ensures (exists works :: CanWorkAll(job, st, cell, works) && AfterAll(job, st, cell, works).run.Finished?)
       <==> cell.run != Waiting(MAX_TRIES)
    ensures cell.handled ==>
      exists works :: CanWorkAll(job, st, cell, works) && EndsWell(cell, AfterAll(job, st, cell, works))
  {
    if cell.run != Waiting(MAX_TRIES) {
      WayToTheEnd(job, st, cell);
      var works :| CanWorkAll(job, st, cell, works) && EndsWell(cell, AfterAll(job, st, cell, works));
      assert AfterAll(job, st, cell, works).run.Finished?;
    } else {
      forall works | CanWorkAll(job, st, cell, works) ensures works == [] {
        NothingFollowsTheLastTry(job, st, cell, works);
      }
    }
  }

  lemma NothingFollowsTheLastTry(job: Job, st: Settings, cell: Cell, works: seq<Work>)
    requires cell.run == Waiting(MAX_TRIES) && CanWorkAll(job, st, cell, works)
    ensures works == []
  {
  }

  /** If arq runs a raised job again, then whatever its attempts go through an event is at an
      end after boundedly many steps: process_webhook has returned and the event is settled, or
      its tries are used up. The second never happens to an event whose failures were all
      handled, and such an event is settled on the course of its lifecycle. */
  lemma EveryEventComesToAnEnd(job: Job, st: Settings, works: seq<Work>, cell: Cell)
    requires RunOf(job, st, works, cell)
    ensures |works| <= Rank(st, Waiting(0)) && cell.row.Some?
    ensures (forall w :: !CanWork(st, cell, w)) <==> cell.run.Finished? || cell.run == Waiting(MAX_TRIES)
    ensures cell.run.Finished? ==> Settled(cell.row.value, cell.letter, cell.run.attempts, cell.run.delivered)
    ensures !cell.run.Finished? && cell.run != Waiting(MAX_TRIES) ==>
      exists w :: CanWork(st, cell, w) && GoesWell(cell, After(job, st, cell, w))
    ensures cell.handled ==> cell.run != Waiting(MAX_TRIES)
    ensures cell.handled && cell.run.Finished? ==>
      Concluded(cell.row.value, cell.letter, cell.trail, cell.run.attempts, cell.run.delivered)
  {
    var row := NewRow(job.source, job.key, job.payload);
    RunHasInv(job, st, works, cell);
    QueuedHasInv(job, st, row);
    RunsAreBounded(job, st, Queued(row), works);
    OnlyTheEndIsStuck(job, st, cell);
    if !cell.run.Finished? && cell.run != Waiting(MAX_TRIES) {
      WorkGoesOn(job, st, cell);
    }
  }

  /** Model calls are bounded however the attempts end. */
  lemma ModelCallsAreBounded(job: Job, st: Settings, works: seq<Work>, cell: Cell)
    requires RunOf(job, st, works, cell)
    ensures cell.calls <= Llm.MAX_CALLS * Tries(cell.run) <= Llm.MAX_CALLS * MAX_TRIES
  {
    RunHasInv(job, st, works, cell);
  }
}
