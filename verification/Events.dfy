/**
 Event persistence (services/events.py, db/models.py): the two tables, what each statement
 does to them, and the repository whose methods run one statement and commit it.
 */
module Events {
  import opened Prelude
  import opened Schemas

  datatype Status = RECEIVED | PROCESSING | DISPATCHED | FAILED

  /** The JSON stored with a dispatched event: the classification and the dispatch summary. */
  datatype StoredEnrichment = StoredEnrichment(
    classification: Enrichment, results: seq<DispatchResult>, total: nat, succeeded: nat)

  datatype Row = Row(
    source: Source, key: Key, payload: Payload,
    status: Status, enrichment: Option<StoredEnrichment>, dispatchAttempts: nat, lastError: Option<string>)

  datatype DeadLetter = DeadLetter(finalError: string, retryCount: nat)

  type Table = map<EventId, Row>

  /** Keyed by original_event_id, which is unique. */
  type DeadLetters = map<EventId, DeadLetter>

  function NewRow(source: Source, key: Key, payload: Payload): Row {
    Row(source, key, payload, RECEIVED, None, 0, None)
  }

  /** The unique constraint on idempotency_key, or the primary key, refuses the insert. */
  predicate Refused(table: Table, id: EventId, key: Key) {
    id in table || exists other :: other in table && table[other].key == key
  }

  /** The columns no worker statement writes. */
  predicate SameIdentity(a: Row, b: Row) {
    a.source == b.source && a.key == b.key && a.payload == b.payload
  }

  // ---------- the statements ----------

  /** UPDATE ... WHERE id = :id touches nothing when there is no such row. */
  function Update(table: Table, id: EventId, f: Row -> Row): Table {
    if id in table then table[id := f(table[id])] else table
  }

  function Find<T>(m: map<EventId, T>, id: EventId): Option<T> {
    if id in m then Some(m[id]) else None
  }

  function Processing(row: Row): Row { row.(status := PROCESSING) }

  function Summarised(e: Enrichment, results: seq<DispatchResult>): StoredEnrichment {
    StoredEnrichment(e, results, |results|, Successes(results))
  }

  function Dispatched(row: Row, e: Enrichment, results: seq<DispatchResult>, attempts: nat): Row {
    row.(status := DISPATCHED, enrichment := Some(Summarised(e, results)),
         dispatchAttempts := attempts, lastError := None)
  }

  function FailedRow(row: Row, error: string, attempts: nat): Row {
    row.(status := FAILED, lastError := Some(error), dispatchAttempts := attempts)
  }

  // ---------- the repository ----------

  /** Every call may raise after its statement was or was not committed. */
  class EventRepository {
    var table: Table
    var dead: DeadLetters

    constructor (table: Table, dead: DeadLetters)
      ensures this.table == table && this.dead == dead
    {
      this.table := table;
      this.dead := dead;
    }

    /** The insert of create_received and its commit: Success with the new id, Failure(true)
        for the duplicate error, and Failure(false) for any other exception. */
    method InsertReceived(source: Source, key: Key, payload: Payload, id: EventId, commit: Outcome)
      returns (r: Result<EventId, bool>)
      modifies this`table
      ensures old(Refused(table, id, key)) ==> table == old(table) && r == Failure(commit.Done?)
      ensures !old(Refused(table, id, key)) ==>
        && table == (if Applied(commit) then old(table)[id := NewRow(source, key, payload)] else old(table))
        && r == (if commit.Done? then Success(id) else Failure(false))
    {
      if Refused(table, id, key) {
        return Failure(commit.Done?);
      }
      if Applied(commit) {
        table := table[id := NewRow(source, key, payload)];
      }
      r := if commit.Done? then Success(id) else Failure(false);
    }

    method MarkProcessing(id: EventId, commit: Outcome) returns (raised: bool)
      modifies this`table
      ensures raised == commit.Failed?
      ensures table == if Applied(commit) then Update(old(table), id, Processing) else old(table)
      ensures Applied(commit) && id in old(table) ==>
        var row := old(table)[id];
        table[id] ==
          Row(row.source, row.key, row.payload, PROCESSING, row.enrichment, row.dispatchAttempts, row.lastError)
    {
      if Applied(commit) && id in table {
        table := table[id := table[id].(status := PROCESSING)];
      }
      raised := commit.Failed?;
    }

    method MarkDispatched(id: EventId, e: Enrichment, results: seq<DispatchResult>, attempts: nat, commit: Outcome)
      returns (raised: bool)
      modifies this`table
      ensures raised == commit.Failed?
      ensures table == if Applied(commit) then Update(old(table), id, row => Dispatched(row, e, results, attempts))
                       else old(table)
      ensures Applied(commit) && id in old(table) ==>
        var row, stored := old(table)[id], StoredEnrichment(e, results, |results|, |Winners(results)|);
        table[id] == Row(row.source, row.key, row.payload, DISPATCHED, Some(stored), attempts, None)
    {
      SuccessesCountWinners(results);
      if Applied(commit) && id in table {
        var summary := StoredEnrichment(e, results, |results|, Successes(results));
        table := table[id := table[id].(status := DISPATCHED, enrichment := Some(summary),
                                        dispatchAttempts := attempts, lastError := None)];
      }
      raised := commit.Failed?;
    }

    method MarkFailed(id: EventId, error: string, attempts: nat, commit: Outcome) returns (raised: bool)
      modifies this`table
      ensures raised == commit.Failed?
      ensures table == if Applied(commit) then Update(old(table), id, row => FailedRow(row, error, attempts))
                       else old(table)
      ensures Applied(commit) && id in old(table) ==>
        var row := old(table)[id];
        table[id] == Row(row.source, row.key, row.payload, FAILED, row.enrichment, attempts, Some(error))
    {
      if Applied(commit) && id in table {
        table := table[id := table[id].(status := FAILED, lastError := Some(error), dispatchAttempts := attempts)];
      }
      raised := commit.Failed?;
    }

    /** Raises on its own when the event has a dead letter already or does not exist. */
    method InsertDeadLetter(id: EventId, error: string, retryCount: nat, commit: Outcome) returns (raised: bool)
      modifies this`dead
      ensures var refused := id in old(dead) || id !in table;
        && raised == (refused || commit.Failed?)
        && dead == (if !refused && Applied(commit) then old(dead)[id := DeadLetter(error, retryCount)] else old(dead))
    {
      if id in dead || id !in table {
        return true;
      }
      if Applied(commit) {
        dead := dead[id := DeadLetter(error, retryCount)];
      }
      raised := commit.Failed?;
    }
  }
}
