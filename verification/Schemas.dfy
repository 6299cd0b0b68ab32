/** The value types of schemas/dispatch.py, schemas/enrichment.py and schemas/webhooks.py. */
module Schemas {
  import opened Prelude

  datatype Source = Hubspot

  /** The JSON view of a parsed event; its inner structure plays no part. */
  type Payload = string

  type EventId = string

  type Key = string

  /** What enqueue_job is given for one event. */
  datatype Job = Job(id: EventId, source: Source, payload: Payload, key: Key)

  datatype DispatchTarget = DispatchTarget(url: string, host: string)

  /** The texts "timeout_exceeded" and "unexpected:<type>". */
  datatype DispatchError = TimeoutExceeded | Unexpected(typeName: string)

  datatype DispatchResult = DispatchResult(
    url: string, success: bool, statusCode: Option<int>, attempts: nat, error: Option<DispatchError>)

  /** The body of an accepted delivery; its JSON text is left to the library. */
  datatype WebhookQueued = WebhookQueued(eventId: EventId)

  datatype MediaType = ApplicationJson

  /** The cached and the fresh form of a response carry the same three parts. */
  datatype Response = Response(status: int, contentType: MediaType, body: WebhookQueued)

  datatype Category = Hot | Warm | Cold

  datatype Enrichment = Enrichment(category: Category, reason: string, confidence: real)

  /** sum(1 for r in results if r.success) */
  function Successes(results: seq<DispatchResult>): (n: nat)
    ensures n <= |results|
    ensures n == 0 <==> forall i :: 0 <= i < |results| ==> !results[i].success
  {
    if results == [] then 0
    else (if results[0].success then 1 else 0) + Successes(results[1..])
  }

  /** The positions of the successful results. */
  function Winners(results: seq<DispatchResult>): set<nat> {
    set i: nat | i < |results| && results[i].success
  }

  lemma {:induction false} SuccessesAppend(results: seq<DispatchResult>, r: DispatchResult)
    ensures Successes(results + [r]) == Successes(results) + (if r.success then 1 else 0)
  {
    if results == [] {
      assert [r][1..] == [];
    } else {
      assert (results + [r])[1..] == results[1..] + [r];
      SuccessesAppend(results[1..], r);
    }
  }

  /** The count is the number of successful entries. */
  lemma {:induction false} SuccessesCountWinners(results: seq<DispatchResult>)
    ensures Successes(results) == |Winners(results)|
    decreases |results|
  {
    if results != [] {
      var n := |results| - 1;
      var init, r := results[..n], results[n];
      assert results == init + [r];
      SuccessesAppend(init, r);
      SuccessesCountWinners(init);
      assert Winners(results) == Winners(init) + (if r.success then {n} else {});
    }
  }
}
