/**
 The whole pipeline: any number of concurrent requests at the route and, for every queued
 job, a worker's run, all interleaved over one table, one queue and one dead letter table.
 */
module Pipeline {
  import opened Prelude
  import opened Schemas
  import opened Events
  import opened Worker
  import opened WorkerInvariant
  import Ingest
  import IngestInvariant

  /** Rows and dead letters are those of the two tables; `cells` keeps the rest of what
      concerns an event once a worker has touched it. */
  datatype State = State(front: Ingest.State, dead: DeadLetters, cells: map<EventId, Cell>)

  const INITIAL := State(Ingest.INITIAL, map[], map[])

  datatype Action =
    | Front(a: Ingest.Action)
    | Back(id: EventId, w: Work)

  const UNTOUCHED := Cell(None, None, Waiting(0), [], [], [RECEIVED], 0, true, true)

  function CellOf(s: State, id: EventId): Cell {
    (if id in s.cells then s.cells[id] else UNTOUCHED)
      .(row := Find(s.front.data.table, id), letter := Find(s.dead, id))
  }

  function WithRow(front: Ingest.State, id: EventId, row: Row): Ingest.State {
    front.(data := front.data.(table := front.data.table[id := row]))
  }

  function Put(s: State, id: EventId, cell: Cell): State {
    State(
      if cell.row.Some? then WithRow(s.front, id, cell.row.value) else s.front,
      if cell.letter.Some? then s.dead[id := cell.letter.value] else s.dead,
      s.cells[id := cell])
  }

  predicate Enabled(st: Settings, s: State, a: Action) {
    match a
    case Front(b) => Ingest.Enabled(s.front, b) && !b.Touch?
    case Back(id, w) => id in s.front.data.queue && CanWork(st, CellOf(s, id), w)
  }

  function BackStep(st: Settings, s: State, id: EventId, w: Work): State
    requires Enabled(st, s, Back(id, w))
  {
    Put(s, id, After(s.front.data.queue[id], st, CellOf(s, id), w))
  }

  function Next(c: Ingest.Config, st: Settings, s: State, a: Action): State
    requires Enabled(st, s, a)
  {
    match a
    case Front(b) => s.(front := Ingest.Next(c, s.front, b))
    case Back(id, w) => BackStep(st, s, id, w)
  }

  predicate Legal(c: Ingest.Config, st: Settings, s: State, actions: seq<Action>)
    decreases |actions|
  {
    actions == [] || (Enabled(st, s, actions[0]) && Legal(c, st, Next(c, st, s, actions[0]), actions[1..]))
  }

  function Run(c: Ingest.Config, st: Settings, s: State, actions: seq<Action>): State
    requires Legal(c, st, s, actions)
    decreases |actions|
  {
    if actions == [] then s else Run(c, st, Next(c, st, s, actions[0]), actions[1..])
  }

  ghost predicate Reachable(c: Ingest.Config, st: Settings, s: State) {
    exists actions :: Legal(c, st, INITIAL, actions) && Run(c, st, INITIAL, actions) == s
  }

  // ---------- the invariant ----------

  /** As the route wrote it. */
  predicate AsReceived(row: Row) {
    row == NewRow(row.source, row.key, row.payload)
  }

  ghost predicate EventOk(st: Settings, s: State, id: EventId)
    requires id in s.front.data.queue
  {
    CellInv(s.front.data.queue[id], st, CellOf(s, id))
  }

  ghost predicate Inv(st: Settings, s: State) {
    && IngestInvariant.Inv(s.front)
    && s.cells.Keys <= s.front.data.queue.Keys
    && s.dead.Keys <= s.front.data.queue.Keys
    && (forall id {:trigger EventOk(st, s, id)} :: id in s.front.data.queue ==> EventOk(st, s, id))
    && (forall id {:trigger s.front.data.table[id]} :: id in s.front.data.table && id !in s.front.data.queue ==>
          AsReceived(s.front.data.table[id]))
  }

  // ---------- steps of the worker ----------

  lemma PutChangesOneEvent(s: State, id: EventId, cell: Cell, other: EventId)
    requires cell.row.Some? && (id in s.dead ==> cell.letter.Some?)
    ensures CellOf(Put(s, id, cell), other) == if other == id then cell else CellOf(s, other)
  {
  }

  /** Letters are never taken back. */
  lemma LettersStay(job: Job, st: Settings, cell: Cell, w: Work)
    requires CanWork(st, cell, w) && cell.letter.Some?
    ensures After(job, st, cell, w).letter == cell.letter
  {
  }

  /** To the route a worker's step is nothing but a write to a row that keeps its identity. */
  lemma BackIsATouch(st: Settings, s: State, id: EventId, w: Work)
    requires Inv(st, s) && Enabled(st, s, Back(id, w))
    ensures var cell := After(s.front.data.queue[id], st, CellOf(s, id), w);
      && CellInv(s.front.data.queue[id], st, cell)
      && Ingest.Enabled(s.front, Ingest.Touch(id, cell.row.value))
      && BackStep(st, s, id, w).front == WithRow(s.front, id, cell.row.value)
  {
    var job := s.front.data.queue[id];
    assert EventOk(st, s, id);
    WorkKeepsInv(job, st, CellOf(s, id), w);
    assert Belongs(job, CellOf(s, id).row.value) && Belongs(job, After(job, st, CellOf(s, id), w).row.value);
  }

  lemma BackKeepsEvents(st: Settings, s: State, id: EventId, w: Work, other: EventId)
    requires Inv(st, s) && Enabled(st, s, Back(id, w)) && other in s.front.data.queue
    ensures EventOk(st, BackStep(st, s, id, w), other)
  {
    var job := s.front.data.queue[id];
    var cell := After(job, st, CellOf(s, id), w);
    BackIsATouch(st, s, id, w);
    if id in s.dead {
      LettersStay(job, st, CellOf(s, id), w);
    }
    PutChangesOneEvent(s, id, cell, other);
    assert EventOk(st, s, other);
  }

  /** Putting back a queued event's cell adds no row, job or dead letter for anyone else. */
  lemma PutKeepsTheRest(s: State, id: EventId, cell: Cell)
    requires id in s.front.data.queue && id in s.front.data.table && cell.row.Some?
    requires s.cells.Keys <= s.front.data.queue.Keys && s.dead.Keys <= s.front.data.queue.Keys
    ensures var t := Put(s, id, cell);
      && t.front.data.queue == s.front.data.queue
      && t.cells.Keys <= t.front.data.queue.Keys && t.dead.Keys <= t.front.data.queue.Keys
      && t.front.data.table.Keys == s.front.data.table.Keys
      && (forall other :: other in s.front.data.table && other != id ==>
            t.front.data.table[other] == s.front.data.table[other])
  {
  }

  lemma BackKeepsInv(st: Settings, s: State, id: EventId, w: Work)
    requires Inv(st, s) && Enabled(st, s, Back(id, w))
    ensures Inv(st, BackStep(st, s, id, w))
  {
    var cell := After(s.front.data.queue[id], st, CellOf(s, id), w);
    BackIsATouch(st, s, id, w);
    IngestInvariant.TouchKeepsInv(s.front, id, cell.row.value);
    PutKeepsTheRest(s, id, cell);
    forall other | other in s.front.data.queue ensures EventOk(st, BackStep(st, s, id, w), other) {
      BackKeepsEvents(st, s, id, w, other);
    }
  }

  // ---------- steps of the route ----------

  /** What a step of the route does to rows and jobs: it may add one, and alters none. */
  ghost predicate Adds(d: Ingest.Data, d': Ingest.Data) {
    && d.table.Keys <= d'.table.Keys && d.queue.Keys <= d'.queue.Keys
    && (forall id {:trigger d'.table[id]} :: id in d.table ==> d'.table[id] == d.table[id])
    && (forall id {:trigger d'.queue[id]} :: id in d.queue ==> d'.queue[id] == d.queue[id])
    && (forall id {:trigger d'.table[id]} :: id in d'.table && id !in d.table ==> AsReceived(d'.table[id]))
    && (forall id {:trigger d'.queue[id]} :: id in d'.queue && id !in d.queue ==> id in d.table)
  }

  lemma InsertAdds(s: Ingest.State, r: Ingest.ReqId, id: EventId, o: Outcome)
    requires Ingest.Enabled(s, Ingest.Insert(r, id, o))
    ensures Adds(s.data, Ingest.InsertStep(s, r, id, o).data)
  {
  }

  lemma EnqueueAdds(s: Ingest.State, r: Ingest.ReqId, o: Outcome)
    requires IngestInvariant.Inv(s) && Ingest.Enabled(s, Ingest.EnqueueJob(r, o))
    ensures Adds(s.data, Ingest.EnqueueStep(s, r, o).data)
  {
    assert IngestInvariant.PcOk(s.data, r, s.pcs[r]);
  }

  lemma OthersAddNothing(c: Ingest.Config, s: Ingest.State, a: Ingest.Action)
    requires Ingest.Enabled(s, a) && !a.Insert? && !a.EnqueueJob? && !a.Touch?
    ensures Ingest.Next(c, s, a).data.table == s.data.table
    ensures Ingest.Next(c, s, a).data.queue == s.data.queue
  {
  }

  lemma FrontAdds(c: Ingest.Config, s: Ingest.State, a: Ingest.Action)
    requires IngestInvariant.Inv(s) && Ingest.Enabled(s, a) && !a.Touch?
    ensures Adds(s.data, Ingest.Next(c, s, a).data)
  {
    if a.Insert? {
      InsertAdds(s, a.r, a.id, a.o);
    } else if a.EnqueueJob? {
      EnqueueAdds(s, a.r, a.o);
    } else {
      OthersAddNothing(c, s, a);
    }
  }

  lemma AddingKeepsInv(st: Settings, s: State, t: State)
    requires Inv(st, s) && IngestInvariant.Inv(t.front) && Adds(s.front.data, t.front.data)
    requires t.dead == s.dead && t.cells == s.cells
    ensures Inv(st, t)
  {
    var d, d' := s.front.data, t.front.data;
    forall id | id in d'.queue ensures EventOk(st, t, id) {
      assert IngestInvariant.JobOk(d', id);
      if id in d.queue {
        assert EventOk(st, s, id) && IngestInvariant.JobOk(d, id);
        assert CellOf(t, id) == CellOf(s, id);
      } else {
        assert AsReceived(d.table[id]) && CellOf(t, id) == Queued(d.table[id]);
        QueuedHasInv(d'.queue[id], st, d.table[id]);
      }
    }
  }

  lemma FrontKeepsInv(c: Ingest.Config, st: Settings, s: State, a: Ingest.Action)
    requires Inv(st, s) && Enabled(st, s, Front(a))
    ensures Inv(st, Next(c, st, s, Front(a)))
  {
    IngestInvariant.StepKeepsInv(c, s.front, a);
    FrontAdds(c, s.front, a);
    AddingKeepsInv(st, s, Next(c, st, s, Front(a)));
  }

  // ---------- every run ----------

  lemma StepKeepsInv(c: Ingest.Config, st: Settings, s: State, a: Action)
    requires Inv(st, s) && Enabled(st, s, a)
    ensures Inv(st, Next(c, st, s, a))
    ensures Ingest.CanReach(c, s.front, Next(c, st, s, a).front)
  {
    Ingest.ReachNow(c, Next(c, st, s, a).front);
    if a.Front? {
      FrontKeepsInv(c, st, s, a.a);
      Ingest.StepThenReach(c, s.front, a.a, Next(c, st, s, a).front);
    } else {
      BackKeepsInv(st, s, a.id, a.w);
      BackIsATouch(st, s, a.id, a.w);
      var cell := After(s.front.data.queue[a.id], st, CellOf(s, a.id), a.w);
      Ingest.StepThenReach(c, s.front, Ingest.Touch(a.id, cell.row.value), Next(c, st, s, a).front);
    }
  }

  /** A run of the pipeline, seen from the route, is a run of the route in its environment. */
  lemma {:induction false} RunKeepsInv(c: Ingest.Config, st: Settings, s: State, actions: seq<Action>)
    requires Inv(st, s) && Legal(c, st, s, actions)
    ensures Inv(st, Run(c, st, s, actions))
    ensures Ingest.CanReach(c, s.front, Run(c, st, s, actions).front)
    decreases |actions|
  {
    if actions == [] {
      Ingest.ReachNow(c, s.front);
    } else {
      var t := Next(c, st, s, actions[0]);
      StepKeepsInv(c, st, s, actions[0]);
      RunKeepsInv(c, st, t, actions[1..]);
      Ingest.ReachTransitive(c, s.front, t.front, Run(c, st, s, actions).front);
    }
  }

  lemma ReachableHasInv(c: Ingest.Config, st: Settings, s: State)
    requires Reachable(c, st, s)
    ensures Inv(st, s) && Ingest.Reachable(c, s.front)
  {
    var actions :| Legal(c, st, INITIAL, actions) && Run(c, st, INITIAL, actions) == s;
    RunKeepsInv(c, st, INITIAL, actions);
  }
}
