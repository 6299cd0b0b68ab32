/**
 The worker (workers/tasks.py) as a state machine over everything that concerns one
 event: its row, its dead letter, the attempt in progress, the requests sent for it.

 An attempt runs between awaits like the code does. Whether and when arq runs a job again
 after an attempt that raised or was cut off is left to the environment, up to MAX_TRIES
 attempts; attempts of one job do not overlap.
 */
module Worker {
  import opened Prelude
  import opened Schemas
  import opened Events
  import opened RetryLoop
  import opened FanOut
  import Llm

  const MAX_TRIES: nat := 5

  /** The body of the requests to the targets. */
  datatype Outgoing = Outgoing(
    eventId: EventId, source: Source, category: Category, confidence: real, reason: string, data: Payload)

  function Enrich(job: Job, e: Enrichment): Outgoing {
    Outgoing(job.id, job.source, e.category, e.confidence, e.reason, job.payload)
  }

  /** A request to the target at a position of the target list. */
  datatype Delivery = Delivery(target: nat, body: Outgoing)

  /** How a request to that target ended. */
  datatype Receipt = Receipt(target: nat, reply: Reply)

  /** One target's coroutine, and whether a request of its is under way. */
  datatype Slot = Slot(loop: Loop, out: bool)

  datatype Settings = Settings(targets: seq<DispatchTarget>, budget: nat)

  // ---------- the texts of errors ----------

  /** {r.error or r.status_code} */
  function Complaint(r: DispatchResult): string {
    match r.error
    case Some(TimeoutExceeded) => "timeout_exceeded"
    case Some(Unexpected(name)) => "unexpected:" + name
    case None => if r.statusCode.Some? then IntText(r.statusCode.value) else "None"
  }

  function Complaints(results: seq<DispatchResult>): string {
    if results == [] then ""
    else
      var first := results[0].url + "=" + Complaint(results[0]);
      if |results| == 1 then first else first + "; " + Complaints(results[1..])
  }

  /** The complaints are joined by "; ", nothing dropped and nothing repeated. */
  lemma {:induction false} ComplaintsJoin(a: seq<DispatchResult>, b: seq<DispatchResult>)
    requires a != [] && b != []
    ensures Complaints(a + b) == Complaints(a) + "; " + Complaints(b)
  {
    if |a| == 1 {
      assert (a + b)[1..] == b;
    } else {
      assert (a + b)[1..] == a[1..] + b;
      ComplaintsJoin(a[1..], b);
    }
  }

  function ClassificationText(message: string): string { "classification: " + message }

  function DispatchText(results: seq<DispatchResult>): string { "dispatch: " + Complaints(results) }

  /** The texts, part by part. With ComplaintsJoin this fixes every error that is stored. */
  lemma ErrorTexts(message: string, r: DispatchResult, results: seq<DispatchResult>)
    ensures ClassificationText(message) == "classification: " + message
    ensures DispatchText(results) == "dispatch: " + Complaints(results)
    ensures Complaints([]) == "" && Complaints([r]) == r.url + "=" + Complaint(r)
    ensures r.error == Some(TimeoutExceeded) ==> Complaint(r) == "timeout_exceeded"
    ensures r.error.Some? && r.error.value.Unexpected? ==> Complaint(r) == "unexpected:" + r.error.value.typeName
    ensures r.error.None? && r.statusCode.Some? ==> Complaint(r) == IntText(r.statusCode.value)
    ensures r.error.None? && r.statusCode.None? ==> Complaint(r) == "None"
  {
  }

  // ---------- the state of one event ----------

  /** The await an attempt is about to perform. */
  datatype Phase =
    | Started
    | Classifying
    | Fanning(enrichment: Enrichment, slots: seq<Slot>)
    | Failing(error: string)
    | Burying(error: string)
    | Storing(stored: Enrichment, results: seq<DispatchResult>)
    | Returning(delivered: bool)

  datatype Progress =
    | Waiting(tries: nat)                 // `tries` attempts have ended without returning
    | Trying(attempt: nat, phase: Phase)
    | Finished(attempts: nat, delivered: bool)

  datatype Cell = Cell(
    row: Option<Row>,
    letter: Option<DeadLetter>,
    run: Progress,
    sent: seq<Delivery>,        // history: every request, in the order of sending
    receipts: seq<Receipt>,     // history: how requests ended, in that order
    trail: seq<Status>,         // history: every status the row has had
    calls: nat,                 // history: model calls made
    handled: bool,              // history: no attempt was cut off or failed in an unforeseen way
    intact: bool)               // history: after an acknowledgement no attempt was cut off and
                                // no mark_dispatched raised

  /** A queued event no attempt has begun for. */
  function Queued(row: Row): Cell {
    Cell(Some(row), None, Waiting(0), [], [], [RECEIVED], 0, true, true)
  }

  datatype Work =
    | Start
    | MarkProcessing(o: Outcome)
    | Classify(calls: nat, reply: Llm.Reply)
    | Send(i: nat)
    | Receive(i: nat, probe: Probe)
    | Merge
    | MarkFailed(o: Outcome)
    | Bury(o: Outcome)
    | MarkDispatched(o: Outcome)
    | Finish
    | Cut(calls: nat)                     // the attempt is killed or times out

  predicate IsAck(r: Receipt, i: nat) {
    r.target == i && r.reply.Status? && Is2xx(r.reply.code)
  }

  /** Some target has acknowledged the event. */
  predicate AnyAck(receipts: seq<Receipt>) {
    exists k :: 0 <= k < |receipts| && IsAck(receipts[k], receipts[k].target)
  }

  // ---------- what each await does ----------

  function Enter(cell: Cell, phase: Phase): Cell
    requires cell.run.Trying?
  {
    cell.(run := Trying(cell.run.attempt, phase))
  }

  /** The attempt is over without having returned. */
  function Leave(cell: Cell, handled: bool): Cell
    requires cell.run.Trying?
  {
    cell.(run := Waiting(cell.run.attempt), handled := cell.handled && handled)
  }

  /** As above, at a point where the outcome of the fan-out is lost. */
  function Lose(cell: Cell): Cell
    requires cell.run.Trying?
  {
    Leave(cell.(intact := cell.intact && !AnyAck(cell.receipts)), false)
  }

  /** An UPDATE of the row, if it took effect; a row that is not there is not updated. */
  function Write(cell: Cell, o: Outcome, row: Row -> Row): Cell {
    if Applied(o) && cell.row.Some?
    then cell.(row := Some(row(cell.row.value)), trail := cell.trail + [row(cell.row.value).status])
    else cell
  }

  function MarkProcessingStep(cell: Cell, o: Outcome): Cell
    requires cell.run.Trying?
  {
    var c := Write(cell, o, Processing);
    if o.Failed? then Leave(c, false) else Enter(c, Classifying)
  }

  function FreshSlots(st: Settings): seq<Slot> {
    seq(|st.targets|, _ => Slot(FRESH, false))
  }

  function ClassifyStep(st: Settings, cell: Cell, calls: nat, reply: Llm.Reply): Cell
    requires cell.run.Trying?
  {
    var c := cell.(calls := cell.calls + calls);
    match reply
    case Enriched(e) => Enter(c, Fanning(e, FreshSlots(st)))
    case Unclassifiable(message) => Enter(c, Failing(ClassificationText(message)))
    case Raised(_) => Leave(c, false)
  }

  function SendStep(job: Job, cell: Cell, i: nat): Cell
    requires cell.run.Trying? && cell.run.phase.Fanning?
    requires i < |cell.run.phase.slots|
  {
    var e, slots := cell.run.phase.enrichment, cell.run.phase.slots;
    Enter(cell, Fanning(e, slots[i := slots[i].(out := true)])).(sent := cell.sent + [Delivery(i, Enrich(job, e))])
  }

  function ReceiveStep(st: Settings, cell: Cell, i: nat, p: Probe): Cell
    requires cell.run.Trying? && cell.run.phase.Fanning?
    requires i < |cell.run.phase.slots| && cell.run.phase.slots[i].loop.Running?
  {
    var e, slots := cell.run.phase.enrichment, cell.run.phase.slots;
    Enter(cell, Fanning(e, slots[i := Slot(Advance(slots[i].loop, st.budget, p), false)]))
      .(receipts := cell.receipts + [Receipt(i, p.reply)])
  }

  predicate AllEnded(slots: seq<Slot>) {
    forall i :: 0 <= i < |slots| ==> slots[i].loop.Ended?
  }

  function Loops(slots: seq<Slot>): (loops: seq<Loop>)
    ensures |loops| == |slots| && forall i :: 0 <= i < |loops| ==> loops[i] == slots[i].loop
  {
    seq(|slots|, i requires 0 <= i < |slots| => slots[i].loop)
  }

  function Results(targets: seq<DispatchTarget>, loops: seq<Loop>): (r: seq<DispatchResult>)
    requires |loops| == |targets| && forall i :: 0 <= i < |loops| ==> loops[i].Ended?
    ensures |r| == |targets|
    ensures forall i :: 0 <= i < |r| ==> r[i] == Report(targets[i].url, loops[i])
  {
    seq(|targets|, i requires 0 <= i < |targets| => Report(targets[i].url, loops[i]))
  }

  function MergeStep(st: Settings, cell: Cell): Cell
    requires cell.run.Trying? && cell.run.phase.Fanning?
    requires |cell.run.phase.slots| == |st.targets| && AllEnded(cell.run.phase.slots)
  {
    var results := Results(st.targets, Loops(cell.run.phase.slots));
    Enter(cell, if results != [] && Successes(results) == 0 then Failing(DispatchText(results))
                else Storing(cell.run.phase.enrichment, results))
  }

  function MarkFailedStep(cell: Cell, o: Outcome): Cell
    requires cell.run.Trying? && cell.run.phase.Failing?
  {
    var error, attempt := cell.run.phase.error, cell.run.attempt;
    var c := Write(cell, o, row => FailedRow(row, error, attempt));
    if o.Failed? then Leave(c, false)
    else if attempt >= MAX_TRIES then Enter(c, Burying(error))
    else Leave(c, true)
  }

  function BuryStep(cell: Cell, o: Outcome): Cell
    requires cell.run.Trying? && cell.run.phase.Burying?
  {
    if cell.letter.Some? || cell.row.None? then Leave(cell, false)
    else
      var c := if Applied(o) then cell.(letter := Some(DeadLetter(cell.run.phase.error, cell.run.attempt))) else cell;
      if o.Failed? then Leave(c, false) else Enter(c, Returning(false))
  }

  function MarkDispatchedStep(cell: Cell, o: Outcome): Cell
    requires cell.run.Trying? && cell.run.phase.Storing?
  {
    var e, results, attempt := cell.run.phase.stored, cell.run.phase.results, cell.run.attempt;
    var c := Write(cell, o, row => Dispatched(row, e, results, attempt));
    if o.Failed? then Lose(c) else Enter(c, Returning(true))
  }

  // ---------- the step relation ----------

  predicate CanWork(st: Settings, cell: Cell, w: Work) {
    if w.Start? then cell.run.Waiting? && cell.run.tries < MAX_TRIES
    else
      && cell.run.Trying?
      && var phase := cell.run.phase;
         match w
         case Start => true
         case MarkProcessing(_) => phase.Started?
         case Classify(calls, _) => phase.Classifying? && 1 <= calls <= Llm.MAX_CALLS
         case Send(i) => phase.Fanning? && i < |phase.slots| && phase.slots[i].loop.Running? && !phase.slots[i].out
         case Receive(i, _) => phase.Fanning? && i < |phase.slots| && phase.slots[i].loop.Running? && phase.slots[i].out
         case Merge => phase.Fanning? && |phase.slots| == |st.targets| && AllEnded(phase.slots)
         case MarkFailed(_) => phase.Failing?
         case Bury(_) => phase.Burying?
         case MarkDispatched(_) => phase.Storing?
         case Finish => phase.Returning?
         case Cut(calls) => calls <= if phase.Classifying? then Llm.MAX_CALLS else 0
  }

  function After(job: Job, st: Settings, cell: Cell, w: Work): Cell
    requires CanWork(st, cell, w)
  {
    match w
    case Start => cell.(run := Trying(cell.run.tries + 1, Started))
    case MarkProcessing(o) => MarkProcessingStep(cell, o)
    case Classify(calls, reply) => ClassifyStep(st, cell, calls, reply)
    case Send(i) => SendStep(job, cell, i)
    case Receive(i, p) => ReceiveStep(st, cell, i, p)
    case Merge => MergeStep(st, cell)
    case MarkFailed(o) => MarkFailedStep(cell, o)
    case Bury(o) => BuryStep(cell, o)
    case MarkDispatched(o) => MarkDispatchedStep(cell, o)
    case Finish => cell.(run := Finished(cell.run.attempt, cell.run.phase.delivered))
    case Cut(calls) => Lose(cell.(calls := cell.calls + calls))
  }

  predicate CanWorkAll(job: Job, st: Settings, cell: Cell, works: seq<Work>)
    decreases |works|
  {
    works == [] || (CanWork(st, cell, works[0]) && CanWorkAll(job, st, After(job, st, cell, works[0]), works[1..]))
  }

  function AfterAll(job: Job, st: Settings, cell: Cell, works: seq<Work>): Cell
    requires CanWorkAll(job, st, cell, works)
    decreases |works|
  {
    if works == [] then cell else AfterAll(job, st, After(job, st, cell, works[0]), works[1..])
  }

  lemma {:induction false} WorksAppend(job: Job, st: Settings, cell: Cell, first: seq<Work>, second: seq<Work>)
    requires CanWorkAll(job, st, cell, first) && CanWorkAll(job, st, AfterAll(job, st, cell, first), second)
    ensures CanWorkAll(job, st, cell, first + second)
    ensures AfterAll(job, st, cell, first + second) == AfterAll(job, st, AfterAll(job, st, cell, first), second)
    decreases |first|
  {
    if first == [] {
      assert first + second == second;
    } else {
      assert (first + second)[1..] == first[1..] + second;
      WorksAppend(job, st, After(job, st, cell, first[0]), first[1..], second);
    }
  }

  lemma WorkAppend(job: Job, st: Settings, cell: Cell, works: seq<Work>, w: Work)
    requires CanWorkAll(job, st, cell, works) && CanWork(st, AfterAll(job, st, cell, works), w)
    ensures CanWorkAll(job, st, cell, works + [w])
    ensures AfterAll(job, st, cell, works + [w]) == After(job, st, AfterAll(job, st, cell, works), w)
  {
    var c := AfterAll(job, st, cell, works);
    assert [w][1..] == [] && CanWorkAll(job, st, After(job, st, c, w), []);
    assert CanWorkAll(job, st, c, [w]) && AfterAll(job, st, c, [w]) == After(job, st, c, w);
    WorksAppend(job, st, cell, works, [w]);
  }
}
