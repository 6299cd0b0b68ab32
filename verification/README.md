# Verification of webhook-ai-router

A Dafny model of the pipeline from a signed webhook to its targets, with proofs of what it
guarantees: the idempotency protocol in front of the queue, the retry and dead letter machine
behind it, and the fan-out with its wall-clock budget. `dafny verify dfyconfig.toml` checks
everything.

## How it is built

**The route.** `Ingest` is a step relation: any number of concurrent requests, one program
counter each, over a shared cache, locks, table and queue. Every `await` is one step. At each
step the environment decides whether the call raises, whether it took effect all the same,
which id was generated and what the clock said. Cache and lock entries may vanish and requests
may die at any time. `IngestInvariant` and `IngestTheorems` prove what holds in every reachable
state under that adversary; `IngestRegister` proves that the concurrent route refines an atomic
register that fixes each key once, at the insert commit. `IngestWitnesses` shows what the lock
alone does not give. `IngestClocked` adds a clock with entries that live exactly their TTL,
shows that its runs are runs of the adversary, and proves mutual exclusion when every holder is
out before its TTL ends. `IngestTimers` shows that nothing weaker will do: another request can
get inside beside one that stands still exactly from the end of that one's lock on, or of a
cached reply that keeps everybody away from the lock for longer, and a well-signed request
meets the duplicate branch exactly if the key's row is stale.
`Idempotency` is the store over one Redis keyspace; `IngestOverRedis` proves of each of its
calls that it gives the clocked protocol's answer and stays in step with it. `Webhooks` is the
handler as structured code, with early returns and `try`/`finally`, over that store, the
repository and the queue; between any two awaits everybody else may take any number of steps.
Its own steps are proved to be steps of the protocol, in the handler's order and with what each
await comes to, and its reply the one they lead to, so every theorem about reachable states is
about it. What counts as authentic is said in terms of the MAC, the clock and the headers
(`Ingest.Authentic`), and the checks are proved to accept exactly that.

**The worker.** `Worker` is a state machine over all that concerns one event: row, dead letter,
attempt in progress, requests sent. `WorkerInvariant` and `WorkerTheorems` prove the guarantees
of every run of it. `Tasks` is `process_webhook` as imperative code over `EventRepository`,
`ClassifyLead` and `Dispatch`, proved to be a run of that machine with exactly the steps its
statements, the model and the targets lead to, to throw exactly if one of them does, and to
leave row, dead letter and requests as said column by column. `WorkerHistory` proves that what
is on record of a run is what its steps did: every request carries the classification the model
gave last before it.

**The fan-out.** `RetryLoop` gives the meaning of one target's script of replies without any
loop (where it first stops) and proves the loop equal to it; `Gives` and `CountsOf` say by status
code, request number and budget what it returns and counts. `FanOut` interleaves the loops in any
order. `Llm` states the retry policy error by error; `Deadlines` bounds calls and time.

**Together.** `Pipeline` interleaves the route and a worker's run per queued job over the same
tables. `PipelineTheorems` has the end-to-end statements.

Assumptions, each visible as a parameter or a history flag:

- Nothing in the repository establishes that arq runs a job again after it raised. `Start` is
  the environment's choice for every waiting job with fewer than `MAX_TRIES` attempts. Safety
  holds whatever it chooses; only `EveryEventComesToAnEnd`, `EveryEventCanFinishUnlessOutOfTries`
  and `AcceptedEventsCanFinish` speak of getting to an end, and they say that the next step
  exists, not that arq takes it.
- Attempts of one job do not overlap.
- An acknowledgement is a 2xx reply the worker has received. `intact` records that after one no
  attempt was cut off and no `mark_dispatched` raised; `IntactFallsExactlySo` proves that it
  records just that, and `RerunCanDeliverTwice` shows why "at most once" needs it.
- `handled` records that no attempt was cut off and no statement or model call raised anything
  but a classification error. Only the lifecycle language uses it; the settled states do not,
  and getting to an end depends only on the tries.
- An event whose last attempt ends in an unforeseen way is left as it is for good.
  `StrandedExactly` says when that happens, `WhatLosingTheLastAttemptLeaves` what row and dead
  letter say then for each way (PROCESSING, FAILED without a dead letter, DISPATCHED with a job
  that never returned), `LostYetSettledExactly` when the tables are settled all the same.
- Time in the retry loop is in milliseconds and a request takes at least one.

Where comments and code disagree the model follows the code:

- "if this raises, don't cache, so a retry can re-enqueue" (api/routes/webhooks.py:129-131): the
  row is already committed, so a retry is refused. See `FailedEnqueueStrandsTheKey`,
  `RetriesAreRefused` and `StoppedOrphansStay`.
- `_send_one_with_retry` says it never raises (services/dispatch.py:95-97). It raises exactly if
  the reply at which it stops is an exception other than a transport error
  (`RaisesExactlyOnOtherErrors`, with a script in `TheCoroutineCanRaise`); `dispatch` catches it.
- `job_timeout` is commented as above budget plus one model call plus slack
  (workers/tasks.py:321). An attempt can last longer, even with a single model call
  (`JobTimeoutCanFire`). With the default budget no attempt does if and only if four model calls
  and one request together take less than 23.002 seconds (`JobTimeoutIsEnoughExactly`).
- The model's retry waits are capped at 15 seconds in the code, but with four calls only waits
  of at most 1, 2 and 4 seconds occur, so the bound proved is 7 seconds, not 45.
- A duplicate is said to be caught by Redis first (services/events.py:29-33). It is, exactly
  unless the row is stale: `DuplicatesAreStale` and `DuplicateIsMetIffStale`.

## Model

| member | source | states |
|---|---|---|
| IngestInvariant.StepKeepsInv | src/webhook_ai_router/api/routes/webhooks.py:90-165 | every await of every request, every worker write, every lost entry and every death keeps the invariant: unique keys, jobs equal to rows, cached and given replies equal to the 202 of the key's queued row |
| IngestInvariant.RunKeepsInv | src/webhook_ai_router/api/routes/webhooks.py:79-165 | so does every run, and what is on record about accepted signatures and parses stays true |
| IngestInvariant.ReadKeepsHonesty | src/webhook_ai_router/api/routes/webhooks.py:109-114 | a request goes on to the insert only with the parse of its body, and only if its signature was the MAC of timestamp and body under a set secret and the timestamp was in the window at that time |
| Ingest.ExaminedExactly | src/webhook_ai_router/api/routes/webhooks.py:109-114 | the checks let a payload through if and only if the request is authentic and its body parses to it; a wrong signature or a timestamp outside the window is a 401, an authentic request with a malformed body a 422, and 500 is left for an unset secret, headers that are not ASCII and a parser that crashes |
| IngestTheorems.OneRowAndOneJobPerKey | src/webhook_ai_router/api/routes/webhooks.py:116-140 | at most one row and one job per key, and every job equals its committed row, with no help from the lock |
| IngestTheorems.DeduplicationIsNeverNeeded | src/webhook_ai_router/api/routes/webhooks.py:129-140 | a request about to enqueue is the first to do so for its id and for its key |
| IngestTheorems.AcceptedRepliesAgree | src/webhook_ai_router/api/routes/webhooks.py:93-107 | any two 202 replies for a key, fresh or cached, are equal, have status 202 and name the key's only row |
| IngestTheorems.AnswersNeverChange | src/webhook_ai_router/api/routes/webhooks.py:93-163 | a 202 given at any later time for a key equals every 202 given before |
| IngestTheorems.CacheHoldsTheReplyOfTheRow | src/webhook_ai_router/api/routes/webhooks.py:150-156 | a cache entry is the 202 of the key's row |
| IngestTheorems.RunIsLater | src/webhook_ai_router/api/routes/webhooks.py:116-163 | along every run rows keep source, key and payload, jobs stay queued, replies stay given |
| IngestTheorems.OrphansHaveAReason | src/webhook_ai_router/api/routes/webhooks.py:118-140 | a row without a job exists only while its creator is between commit and enqueue, or has stopped |
| IngestTheorems.OrphanTransitions | src/webhook_ai_router/api/routes/webhooks.py:118-140 | a row is without a job after a step exactly if it was before and the step was not its creator's enqueue taking effect, or if the step committed it |
| IngestTheorems.StoppedOrphansStay | src/webhook_ai_router/api/routes/webhooks.py:118-140 | once the creator of such a row has stopped, no later run queues the key, caches it or answers it with a 202 |
| IngestTheorems.FailedEnqueueStrandsTheKey | src/webhook_ai_router/api/routes/webhooks.py:129-140 | an enqueue that raises without effect leaves the key in that state |
| IngestTheorems.RetriesAreRefused | src/webhook_ai_router/api/routes/webhooks.py:118-125 | once a key has a row, an insert for the key after any run changes nothing and leads to the exit with 409, or 500 if the call raised otherwise |
| IngestTheorems.RunKeepsKeysPresent | src/webhook_ai_router/api/routes/webhooks.py:90-91 | no request without an Idempotency-Key gets past the first line of the handler |
| IngestTheorems.RowsAreAuthentic | src/webhook_ai_router/api/routes/webhooks.py:109-123 | every row holds the parse of the body its creator sent, for the key in that request's header and its source, and at the clock reading on record for it the signature was the MAC of timestamp and body under the secret and the timestamp within 300 seconds |
| IngestRegister.StepSimulated | src/webhook_ai_router/api/routes/webhooks.py:93-165 | each step of the route is an allowed step of a register that fixes each key once and answers with the 202 of what it fixed |
| IngestRegister.OnlyObservedStepsAnswer | src/webhook_ai_router/api/routes/webhooks.py:93-107 | no 202 is given in a step the simulation does not observe as an answer |
| IngestRegister.RunSimulated | src/webhook_ai_router/api/routes/webhooks.py:93-165 | so is every run, from any state whose rows the register holds |
| IngestRegister.RouteRefinesRegister | src/webhook_ai_router/api/routes/webhooks.py:93-165 | every run of the route is, from outside, a run of that register, and the register ends up holding exactly the rows by key |
| IngestRegister.AnswersAgreeWithTheEnd | src/webhook_ai_router/api/routes/webhooks.py:93-107 | every answer in a register trace is the 202 of the id its key ends up with |
| IngestRegister.KeysAreFixedOnce | src/webhook_ai_router/api/routes/webhooks.py:116-125 | no two events of a register trace fix one key |
| IngestRegister.AnswersComeAfterTheirFix | src/webhook_ai_router/api/routes/webhooks.py:116-163 | exactly one event of the trace fixes the key of an answer; it precedes the answer and fixes the answered id |
| IngestWitnesses.LockAloneDoesNotExclude | src/webhook_ai_router/core/idempotency.py:74-83 | if a lock may vanish under a slow holder, a second request for the key can get inside from any such state |
| IngestWitnesses.UnlockTakesAnothersLock | src/webhook_ai_router/core/idempotency.py:85-87 | from any such state a run leads to where the first request's unlock frees the lock the second owns while it is inside |
| IngestClocked.ClockedRunsAreAdversarial | src/webhook_ai_router/core/idempotency.py:58-83 | every clocked run, late holders or not, is a run of the adversarial environment |
| IngestClocked.ClockedStepKeepsExclusion | src/webhook_ai_router/core/idempotency.py:74-87 | with punctual ticks every step keeps: whoever is inside owns its key's lock, and no lock outlives its TTL |
| IngestClocked.TickKeepsExclusionIffPunctual | src/webhook_ai_router/core/idempotency.py:74-83 | a tick leaves everybody inside with a lock of its own exactly if it is punctual |
| IngestClocked.AtMostOneInside | src/webhook_ai_router/core/idempotency.py:74-87 | in punctual runs at most one request per key is between lock and unlock |
| IngestClocked.UnlockReleasesItsOwn | src/webhook_ai_router/core/idempotency.py:85-87 | in punctual runs unlock only ever removes its caller's own lock |
| IngestClocked.MissMeansStale | src/webhook_ai_router/api/routes/webhooks.py:102-107 | a miss of the re-check under the lock means that each row of the key is stale: its cached reply ran out, or its creator is gone without having cached one |
| IngestClocked.ClockedStepKeepsFreshness | src/webhook_ai_router/api/routes/webhooks.py:102-125 | that stays so until the insert, and cached replies stay cached until their TTL ends |
| IngestClocked.DuplicatesAreStale | src/webhook_ai_router/api/routes/webhooks.py:116-125 | in punctual runs the duplicate branch is reached only if the generated id is taken or for a stale row |
| IngestTimers.ClockedStepKeepsTimers | src/webhook_ai_router/core/idempotency.py:58-83 | in every clocked run a lock or a cached reply is there only before the end of its TTL |
| IngestTimers.LocksDoNotOutliveTheirTtl | src/webhook_ai_router/core/idempotency.py:74-83 | in every clocked run, one TTL later every lock is gone or a newer one, whatever became of its owner |
| IngestTimers.LockKeepsOthersOut | src/webhook_ai_router/core/idempotency.py:74-83 | before the end of its lock no run, late or not, puts another request inside beside one that stands still |
| IngestTimers.CacheKeepsOthersOut | src/webhook_ai_router/api/routes/webhooks.py:93-107 | nor does one before the end of the key's cached reply, if nobody was about to try the lock |
| IngestTimers.LockProtectsUntilItsEndExactly | src/webhook_ai_router/core/idempotency.py:74-83 | some run by a given time puts another request inside beside one that stands still if and only if its SETNX plus the TTL ends by that time and no cached reply keeps everybody away from the lock for longer, however late anyone else is |
| IngestTimers.LateTickLetsAnotherIn | src/webhook_ai_router/core/idempotency.py:74-83 | after a tick that is not punctual some run puts two requests of one key inside |
| IngestTimers.PunctualityIsExact | src/webhook_ai_router/core/idempotency.py:74-87 | no run of the duration of a tick lets another request in beside one that stands still if and only if, for everybody inside, the tick is in time or a cached reply keeps others out for as long; and a tick is punctual exactly if it is in time for everybody inside |
| IngestTimers.StaleMeansUncached | src/webhook_ai_router/api/routes/webhooks.py:93-107 | with nobody inside for its key, a row is stale if and only if the key has no cached reply, and a cached reply is the row's 202 |
| IngestTimers.DuplicateIsMetIffStale | src/webhook_ai_router/api/routes/webhooks.py:93-125 | with nobody inside and the lock free, a well-signed request for a key that has a row gets to a refused insert if and only if the row is stale, and is answered with the row's 202 otherwise |
| Idempotency.NamespacesAreDisjoint | src/webhook_ai_router/core/idempotency.py:23-24 | response names and lock names never coincide and determine their key |
| Idempotency.WritingAResponseCaches | src/webhook_ai_router/core/idempotency.py:68-72 | the write answers later reads of its key until it expires and affects no other key and no lock |
| Idempotency.WritingALockLocks | src/webhook_ai_router/core/idempotency.py:81-83 | the write holds its key's lock until it expires and affects no other lock and no response |
| Idempotency.DeletingALockFrees | src/webhook_ai_router/core/idempotency.py:85-87 | the deletion frees its key's lock whoever held it and affects nothing else |
| Idempotency.IdempotencyStore.Get | src/webhook_ai_router/core/idempotency.py:51-56 | the live response of the key or none; what is found can always be decoded |
| Idempotency.IdempotencyStore.Set | src/webhook_ai_router/core/idempotency.py:58-72 | the key's response from now until the TTL ends, with the default TTL if none is given; nothing else changes |
| Idempotency.IdempotencyStore.Lock | src/webhook_ai_router/core/idempotency.py:74-83 | true exactly if the lock was free, and then it is held until its TTL ends; nothing else changes |
| Idempotency.IdempotencyStore.Unlock | src/webhook_ai_router/core/idempotency.py:85-87 | the lock is free, whoever held it; nothing else changes |
| IngestOverRedis.TickMirrored | src/webhook_ai_router/core/idempotency.py:74-83 | expiry in Redis needs no call to stay in step with the clocked maps |
| IngestOverRedis.StepMirrored | src/webhook_ai_router/core/idempotency.py:51-87 | any keyspaces related by the contracts of the store's calls stay in step with the clocked maps at every step |
| IngestOverRedis.StoreGet | src/webhook_ai_router/core/idempotency.py:51-56 | the store's get gives the protocol's answer and stays in step with it |
| IngestOverRedis.StoreLock | src/webhook_ai_router/core/idempotency.py:74-83 | the store's lock succeeds exactly when the protocol's does and stays in step with it |
| IngestOverRedis.StoreSet | src/webhook_ai_router/core/idempotency.py:58-72 | the store's set stays in step with the protocol's caching step |
| IngestOverRedis.StoreUnlock | src/webhook_ai_router/core/idempotency.py:85-87 | the store's unlock stays in step with the protocol's unlock |
| IngestOverRedis.StoreElapse | src/webhook_ai_router/core/idempotency.py:58-83 | passing time takes entries from the store exactly as it does from the protocol |
| IngestOverRedis.OthersStayInStep | src/webhook_ai_router/core/idempotency.py:23-87 | every step of the protocol other than lock, unlock and set leaves store and protocol in step |
| Webhooks.OthersLeaveARequestAlone | src/webhook_ai_router/api/routes/webhooks.py:79-165 | no step of anyone else moves a suspended request |
| Webhooks.Servers.Suspend | src/webhook_ai_router/api/routes/webhooks.py:93-165 | while a request is suspended any steps of the others may happen, and only those |
| Webhooks.Servers.Get | src/webhook_ai_router/api/routes/webhooks.py:93-107 | what IdempotencyStore.get answers is what the protocol has cached; the request moves as the protocol says |
| Webhooks.Servers.Lock | src/webhook_ai_router/api/routes/webhooks.py:98-99 | IdempotencyStore.lock succeeds exactly if the protocol's lock was free, and store and protocol stay in step |
| Webhooks.Servers.CommitRow | src/webhook_ai_router/services/events.py:85-96 | the repository's insert refuses exactly what the protocol refuses, and table and protocol stay in step |
| Webhooks.Servers.Enqueue | src/webhook_ai_router/api/routes/webhooks.py:129-140 | demands the job of the committed row; queue and protocol stay in step although the call may raise |
| Webhooks.Servers.Set | src/webhook_ai_router/api/routes/webhooks.py:150-156 | demands the 202 of the committed row; store and protocol stay in step although the call may raise |
| Webhooks.Check | src/webhook_ai_router/api/routes/webhooks.py:109-114 | secret, signature and parse in the code's order give 500, 401, 422 or the payload according to secret, clock, MAC and parse |
| Webhooks.CreateReceived | src/webhook_ai_router/services/events.py:75-98 | its steps are the insert alone, with 409 for a duplicate and 500 for an exception, or insert and read back, with the new id or 500; it ends where the protocol says |
| Webhooks.Publish | src/webhook_ai_router/api/routes/webhooks.py:150-163 | its one step caches the row's 202; the reply is that 202, or 500 exactly if the call raised |
| Webhooks.Hand | src/webhook_ai_router/api/routes/webhooks.py:129-163 | its steps are enqueue and cache with what they come to; the reply is the row's 202 if both succeed and 500 otherwise |
| Webhooks.Checked | src/webhook_ai_router/api/routes/webhooks.py:116-163 | from the insert on its steps are a prefix of the code's and the reply follows from the last of them; a 202 names the inserted row |
| Webhooks.Fetch | src/webhook_ai_router/api/routes/webhooks.py:109-114 | the body read is judged at the time of the read by secret, clock, MAC and parse; it goes on with the parsed payload or leaves with the status due |
| Webhooks.Fetched | src/webhook_ai_router/api/routes/webhooks.py:109-163 | from reading the body on its steps are a prefix of the code's, the reply follows from the last of them, and there is an insert only for an authentic request with a body that parses |
| Webhooks.Guarded | src/webhook_ai_router/api/routes/webhooks.py:101-163 | the steps of the `try` body are a prefix of the code's, none before the last raised, and what the last came to determines the reply; there is an insert only for an authentic request |
| Webhooks.Held | src/webhook_ai_router/api/routes/webhooks.py:101-165 | the `finally` runs on every way out and an exception in it replaces the reply, determined by the steps before, by 500 |
| Webhooks.Missed | src/webhook_ai_router/api/routes/webhooks.py:98-165 | lock, `try` and `finally` take their steps in order; 500 if the lock raised, 409 or what `try` and `finally` lead to otherwise |
| Webhooks.Keyed | src/webhook_ai_router/api/routes/webhooks.py:93-165 | from the first await on the steps are those of the code with what the awaits come to, the reply is the one the protocol gave, 500 if the first look into the cache raised |
| Webhooks.ReceiveWebhook | src/webhook_ai_router/api/routes/webhooks.py:79-165 | under any interference the handler's run is a run of the protocol in which its own steps are those of the code in order, each with what its await comes to; the step at which it turns back determines the reply: 500 if it raised, 409 for a taken lock or row, 401, 422 or 500 as the checks judge, a 202 otherwise; 400 exactly without a key; an insert only for an authentic request; a 202 names the key's row, whose job is queued |
| Security.DotIsNoInteger | src/webhook_ai_router/core/security.py:36-39 | no text with a full stop in it is accepted as a timestamp |
| Security.ParsesExactly | src/webhook_ai_router/core/security.py:36-39 | int() reads n exactly from spaces, at most one sign, a run of digits of that value with single underscores inside, and spaces |
| Security.UnderscoresDoNotCount | src/webhook_ai_router/core/security.py:36-39 | underscores between digits do not change the value |
| Security.IntTextParsesBack | src/webhook_ai_router/core/security.py:36-39 | int(str(n)) is n for every integer |
| Security.FrameSplitsBack | src/webhook_ai_router/core/security.py:50-50 | the signed message cut at its first full stop gives back timestamp and body |
| Security.FrameIsUnambiguous | src/webhook_ai_router/core/security.py:36-51 | two pairs of integer timestamp and body give one message exactly if they are equal |
| Security.FrameNeedsTheIntegerCheck | src/webhook_ai_router/core/security.py:36-50 | without the integer check two different pairs would give one message |
| Security.SignatureBindsTimestampAndBody | src/webhook_ai_router/core/security.py:36-54 | a signature accepted for two pairs of timestamp and body exhibits a collision of the MAC unless the pairs are equal |
| Security.HonestSendersAreAccepted | src/webhook_ai_router/core/security.py:15-54 | a correctly signed request is accepted within the window and expired outside it |
| RetryLoop.FirstStopIsUnique | src/webhook_ai_router/services/dispatch.py:107-112 | a script of replies has one first request at which the loop must stop |
| RetryLoop.StopIndex | src/webhook_ai_router/services/dispatch.py:107-112 | that request exists within max(1, budget) requests |
| RetryLoop.AdvanceStaysOnTrack | src/webhook_ai_router/services/dispatch.py:113-136 | each request and sleep leaves the loop where its script says it is |
| RetryLoop.EndedMeetsSpecification | src/webhook_ai_router/services/dispatch.py:113-151 | a loop that has ended, in whatever interleaving, is at the one conclusion its script allows |
| RetryLoop.RunToEndMeetsSpecification | src/webhook_ai_router/services/dispatch.py:100-151 | running the loop gives the conclusion defined by the first stop: result, last status, number of requests, time |
| RetryLoop.ConcludesExactly | src/webhook_ai_router/services/dispatch.py:89-151 | request n is the last and r the result if and only if all replies before are transport errors or codes 500 to 599 within the budget and: a code outside 500 to 599 gives that code, n + 1 attempts and success exactly from 200 to 299; a recoverable reply at the end of the budget gives timeout_exceeded, n + 1 attempts and the last status received, if any; any other exception is raised |
| RetryLoop.RetriedRequestsAreCounted | src/webhook_ai_router/services/dispatch.py:113-136 | every request that is retried is counted once |
| RetryLoop.IncrementsConserved | src/webhook_ai_router/services/dispatch.py:113-144 | increments are one per request, one more for an exhausted budget, one less for a final unexpected exception |
| RetryLoop.CountsExactly | src/webhook_ai_router/services/dispatch.py:113-144 | the increments are one per reply in order, labelled by its code (success 200 to 299, 5xx 500 to 599, 4xx otherwise) or as a transport error, none for an exception that leaves, and one timeout at the end of the budget |
| RetryLoop.RaisesExactlyOnOtherErrors | src/webhook_ai_router/services/dispatch.py:89-151 | the coroutine raises if and only if the reply at which it stops is an exception that is no transport error |
| RetryLoop.TheCoroutineCanRaise | src/webhook_ai_router/services/dispatch.py:95-97 | there are such scripts for every budget and exception, so it is not true that it never raises |
| RetryLoop.SendOneWithRetry | src/webhook_ai_router/services/dispatch.py:89-163 | the coroutine returns or raises and counts just that, for every script and budget |
| FanOut.Turn | src/webhook_ai_router/services/dispatch.py:107-144 | one turn of the event loop takes one coroutine to its next await or its end, and makes the increments of that request with the target's host |
| FanOut.ReportsExactly | src/webhook_ai_router/services/dispatch.py:61-86 | the entry of a target is what its coroutine gives, or for an exception that left it a failure without status, with one attempt and the exception's name; and nothing else |
| FanOut.Gather | src/webhook_ai_router/services/dispatch.py:61-64 | for every order of turns all loops end at their own conclusions, and each (host, outcome) is counted as often as the targets' scripts say |
| FanOut.Dispatch | src/webhook_ai_router/services/dispatch.py:46-86 | always returns, one entry per target in target order, each fixed by that target's replies, codes and times alone, with the same count per host and outcome for every order of turns |
| FanOut.FanOutIncrementsConserved | src/webhook_ai_router/services/dispatch.py:113-144 | over all targets there are as many increments as requests and exhausted budgets less uncounted exceptions, and the counts per host and outcome are those of all targets together |
| FanOut.FanOutIsConfluent | src/webhook_ai_router/services/dispatch.py:61-64 | in every schedule, complete or not, a loop's state depends only on the number of its own turns |
| FanOut.FairSchedulesConclude | src/webhook_ai_router/services/dispatch.py:61-64 | a target that had budget + 1 turns is at its conclusion in every schedule |
| FanOut.TargetEndsInTime | src/webhook_ai_router/services/dispatch.py:107-112 | a target is over by the worst case, at most budget + 30 s + D, after at most max(1, budget) requests |
| FanOut.TargetsFitExactly | src/webhook_ai_router/services/dispatch.py:107-112 | every target with such requests is over by time t if and only if the worst case is: the budget less one tick, the longest sleep then possible, and D |
| FanOut.FanOutEndsInTime | src/webhook_ai_router/services/dispatch.py:61-64 | so is the fan-out by the same worst case, whatever the number of targets |
| FanOut.FanOutsFitExactly | src/webhook_ai_router/services/dispatch.py:61-64 | for any number of targets every fan-out is over by time t if and only if that worst case is |
| Llm.ClassifyLead | src/webhook_ai_router/services/llm.py:144-157 | one to four calls; every one before the last raised one of the four errors the provider's policy names, the last is the fourth or raised none of them, and its outcome is the result |
| Llm.CallsAreUnique | src/webhook_ai_router/services/llm.py:144-157 | the retry policy leaves one number of calls for each script of replies |
| Llm.CallsMade | src/webhook_ai_router/services/llm.py:144-157 | the number of calls for a script: up to the first reply that is not retried, four at most |
| Llm.PolicyExactly | src/webhook_ai_router/services/llm.py:144-278 | n + 1 calls are made if and only if n is at most 3, the n replies before were for Anthropic connection, timeout, rate limit or internal server errors, for Gemini server errors, client errors with code 429, HTTP timeouts or connect errors, and the next is the fourth or none of these |
| Llm.ClassificationEndsInTime | src/webhook_ai_router/services/llm.py:273-278 | at most 4L + 7 s for calls of at most L |
| Llm.SlowestTakes | src/webhook_ai_router/services/llm.py:273-278 | the bound of 4L + 7 s is attained for both providers |
| Deadlines.AttemptEndsInTime | src/webhook_ai_router/workers/tasks.py:113-143 | classify and dispatch last at most 4L + 7 s plus the worst case of the fan-out, hence at most 4L + B + 37 s + D |
| Deadlines.AttemptsFitExactly | src/webhook_ai_router/workers/tasks.py:113-143 | every attempt that gets to the fan-out is over after time t if and only if that bound is at most t |
| Deadlines.JobTimeoutIsEnoughExactly | src/webhook_ai_router/workers/tasks.py:321-321 | with the default budget no attempt outlasts job_timeout if and only if 4L + D < 23.002 s |
| Deadlines.JobTimeoutCanFire | src/webhook_ai_router/workers/tasks.py:321-321 | with the defaults one attempt with a single model call can outlast job_timeout |
| Schemas.Successes | src/webhook_ai_router/services/events.py:62-62 | zero exactly if no result is a success, and at most the number of results |
| Schemas.SuccessesCountWinners | src/webhook_ai_router/services/events.py:62-62 | the success count is the number of successful entries |
| Events.EventRepository.InsertReceived | src/webhook_ai_router/services/events.py:85-96 | inserts a RECEIVED row unless id or key is taken, which raises the duplicate error |
| Events.EventRepository.MarkProcessing | src/webhook_ai_router/services/events.py:106-112 | sets PROCESSING on the row with that id, if any, and leaves every other column and row |
| Events.EventRepository.MarkDispatched | src/webhook_ai_router/services/events.py:114-137 | sets DISPATCHED, the classification with all results, their number and the number of successful ones, the attempts, and clears the error; leaves every other column and row |
| Events.EventRepository.MarkFailed | src/webhook_ai_router/services/events.py:139-155 | sets FAILED, error and attempts and keeps the enrichment and every other column and row |
| Events.EventRepository.InsertDeadLetter | src/webhook_ai_router/services/events.py:157-172 | adds a dead letter unless the event has one or does not exist |
| Worker.ComplaintsJoin | src/webhook_ai_router/workers/tasks.py:149-149 | the error text joins what each target said with "; ", dropping and repeating nothing |
| Worker.ErrorTexts | src/webhook_ai_router/workers/tasks.py:115-153 | what each kind of failure is stored as: "classification: " and the message, "dispatch: " and for each target its url and timeout_exceeded, unexpected:<type>, the status or None |
| WorkerInvariant.WorkStaysSound | src/webhook_ai_router/workers/tasks.py:110-198 | every step keeps the row's identity, the bounds on attempts and model calls, and the origin of every request body |
| WorkerInvariant.NoSuccessMeansNoAck | src/webhook_ai_router/workers/tasks.py:144-146 | if no result is a success no target has acknowledged, so trying again is safe |
| WorkerInvariant.OnlyUnacknowledgedAttemptsAreRetried | src/webhook_ai_router/workers/tasks.py:138-172 | an attempt that ends so that another follows, other than by being cut off or by mark_dispatched raising, was acknowledged by no target |
| WorkerInvariant.IntactIsLostOnlyWithAnOutcome | src/webhook_ai_router/workers/tasks.py:167-172 | the flag falls exactly when an attempt is cut off, or mark_dispatched raises, after an acknowledgement |
| WorkerInvariant.WorkKeepsAcks | src/webhook_ai_router/workers/tasks.py:138-172 | every step keeps: one acknowledgement per target at most, and only in an attempt that no other follows |
| WorkerInvariant.WorkKeepsVerdict | src/webhook_ai_router/workers/tasks.py:110-226 | every step, handled or not, keeps: a dead letter only after the last attempt and equal to the row's error, and the row as the returning attempt wrote it |
| WorkerInvariant.WorkKeepsDelivery | src/webhook_ai_router/workers/tasks.py:138-172 | every step keeps: each success among the loops, the merged and the stored results has an acknowledgement on record, and a DISPATCHED row was worth storing |
| WorkerInvariant.HandledStaysIntact | src/webhook_ai_router/workers/tasks.py:115-165 | a handled step never loses the outcome of an attempt |
| WorkerInvariant.HandledStaysOnCourse | src/webhook_ai_router/workers/tasks.py:110-172 | every handled step keeps row, dead letter and status history on the course of the lifecycle |
| WorkerTheorems.AcknowledgedAtMostOnce | src/webhook_ai_router/workers/tasks.py:138-172 | over all attempts and inner retries a target acknowledges an event at most once unless, after an acknowledgement, an attempt was cut off or mark_dispatched raised |
| WorkerTheorems.RerunCanDeliverTwice | src/webhook_ai_router/workers/tasks.py:138-172 | that condition is needed: some run from the queued event, cut off once after an acknowledgement, is acknowledged twice by the same target |
| WorkerTheorems.SettledInOneOfTwoWays | src/webhook_ai_router/workers/tasks.py:110-226 | once process_webhook has returned, however earlier attempts ended: DISPATCHED with enrichment and no error or dead letter, or FAILED after MAX_TRIES with a dead letter that repeats error and count |
| WorkerTheorems.DispatchedMeansDelivered | src/webhook_ai_router/workers/tasks.py:144-172 | a DISPATCHED row has one result per target, every success among them has an acknowledgement on record, and unless there are no targets there is at least one |
| WorkerTheorems.DeadLettersWereNotDelivered | src/webhook_ai_router/workers/tasks.py:144-162 | an event with a dead letter was acknowledged by no target, unless the outcome of an attempt was lost |
| WorkerTheorems.LifecycleLanguage | src/webhook_ai_router/services/events.py:106-155 | the status history of a handled run is in the lifecycle language and dispatch_attempts counts the attempts that reached a verdict |
| WorkerTheorems.DispatchedIsFinal | src/webhook_ai_router/workers/tasks.py:167-198 | once mark_dispatched has returned the row is never written again unless the attempt is cut off before its end is on record |
| WorkerTheorems.AttemptsNeverDecrease | src/webhook_ai_router/services/events.py:134-152 | dispatch_attempts never goes back, whatever happens to the attempts |
| WorkerTheorems.WorkRanksLower | src/webhook_ai_router/workers/tasks.py:110-198 | every step, re-runs included, lowers a rank |
| WorkerTheorems.RunsAreBounded | src/webhook_ai_router/workers/tasks.py:58-58 | so every run is finite, with a bound known when the job is queued |
| WorkerTheorems.OnlyTheEndIsStuck | src/webhook_ai_router/workers/tasks.py:121-127 | nothing is left to do exactly when the job has returned or its tries are used up |
| WorkerTheorems.LastAttemptIsLostIffUnhandled | src/webhook_ai_router/workers/tasks.py:110-226 | a step of the last attempt leaves the event out of tries if and only if it is a cut or a statement or model call that raised unforeseen |
| WorkerTheorems.StrandedExactly | src/webhook_ai_router/workers/tasks.py:58-198 | an event is out of tries without process_webhook having returned exactly after a run whose last step is such a step of the last attempt, and then row and dead letter say what that step left |
| WorkerTheorems.WhatLosingTheLastAttemptLeaves | src/webhook_ai_router/workers/tasks.py:110-226 | for each such step: PROCESSING, FAILED without a dead letter, DISPATCHED or the row as before, according to the step and whether it took effect; and nothing is left to do |
| WorkerTheorems.LostYetSettledExactly | src/webhook_ai_router/workers/tasks.py:161-226 | the tables are settled all the same exactly if the attempt was cut off on its way out or its last statement raised after taking effect |
| WorkerTheorems.EveryEventCanFinishUnlessOutOfTries | src/webhook_ai_router/workers/tasks.py:94-198 | some run takes an event to its end if and only if its tries are not used up, whatever its attempts went through; a handled event by handled steps |
| WorkerTheorems.EveryEventComesToAnEnd | src/webhook_ai_router/workers/tasks.py:94-198 | runs are bounded, and can go on until the event is settled or out of tries; a handled event is never out of tries and is settled on the course of its lifecycle |
| WorkerTheorems.ModelCallsAreBounded | src/webhook_ai_router/services/llm.py:154-154 | at most four model calls per attempt and 4 * MAX_TRIES per event, however attempts end |
| WorkerHistory.HistoryIsThatOfTheRun | src/webhook_ai_router/workers/tasks.py:129-143 | after every run the requests on record are those of its sends, each with id, source and data of the job and category, confidence and reason of the last classification before it; receipts and model calls are those of its steps; a DISPATCHED row holds the last classification given |
| Tasks.HandleFailure | src/webhook_ai_router/workers/tasks.py:201-235 | marks the row failed and on the last attempt adds the dead letter with the same error and count, with every other column as it was; raises exactly if a call raised or the letter cannot be inserted; its steps are those of the machine |
| Tasks.FanOutIsARun | src/webhook_ai_router/services/dispatch.py:61-64 | from any point of a fan-out with no request under way some order of sends takes the machine to the conclusions of all scripts, with as many requests to each target as its script takes, all with the same body |
| Tasks.FanOutOnce | src/webhook_ai_router/workers/tasks.py:138-146 | dispatch returns for each target the entry its replies and times fix, which is what the machine merges; each target is sent just the requests its script takes, all with the body given; the branch taken is the machine's |
| Tasks.ReportsAreEntries | src/webhook_ai_router/services/dispatch.py:61-86 | the reports of an attempt are those entries, target by target |
| Tasks.DoMerged | src/webhook_ai_router/workers/tasks.py:144-198 | from the results on: targets none of which was reached lead to the failure steps, anything else to mark_dispatched; the row is left as said column by column, the summary has the number of successful entries; throws exactly if a step raises or the job is to be tried again |
| Tasks.DoDispatch | src/webhook_ai_router/workers/tasks.py:129-198 | the second half of an attempt sends each target its requests with id, source, category, confidence, reason and data, then merges, then takes those steps; it throws exactly then, loses `handled` exactly on something unforeseen, and stores and returns the classification and the reports with the number of successful ones |
| Tasks.DoClassified | src/webhook_ai_router/workers/tasks.py:113-198 | from the model's outcome on the steps, the throw, the record of unforeseen failures and the summary are determined by that outcome, the targets' scripts and how the statements end |
| Tasks.DoMarked | src/webhook_ai_router/workers/tasks.py:113-198 | so they are from the call to the model on, which is one step with as many calls as the policy makes |
| Tasks.DoProcess | src/webhook_ai_router/workers/tasks.py:94-198 | a whole attempt is a run of the machine on the tables with exactly the steps of the code, touches no other event, throws if and only if something unforeseen happened or it is to be tried again, stays handled exactly if nothing unforeseen did, sends each target its requests with the classification the model gave, and leaves row, dead letter, counters and summary as that classification and the targets' entries say |
| Pipeline.BackIsATouch | src/webhook_ai_router/workers/tasks.py:110-172 | to the route a worker's step is a write to an existing row that keeps its identity |
| Pipeline.FrontAdds | src/webhook_ai_router/api/routes/webhooks.py:116-140 | a step of the route adds at most a RECEIVED row or a job for an existing row and alters none |
| Pipeline.StepKeepsInv | src/webhook_ai_router/workers/tasks.py:94-198 | every step of route or worker keeps the invariants of both |
| Pipeline.RunKeepsInv | src/webhook_ai_router/workers/tasks.py:94-198 | every run of the pipeline keeps them and is, seen from the route, a run of the route |
| PipelineTheorems.OneAcknowledgementPerKeyAndTarget | src/webhook_ai_router/workers/tasks.py:138-172 | each (Idempotency-Key, target position) gets at most one 2xx over all requests, attempts and retries unless, after one, an attempt was cut off or mark_dispatched raised |
| PipelineTheorems.IntactFallsExactlySo | src/webhook_ai_router/workers/tasks.py:138-172 | a step of the pipeline breaks that condition for an event exactly if it cuts off its attempt, or its mark_dispatched raises, after an acknowledgement |
| PipelineTheorems.DeliveriesAreAuthentic | src/webhook_ai_router/workers/tasks.py:129-143 | every body sent, answered or not, carries id and payload of the row, and the payload is the parse of the body whose signature was the MAC under the secret of that body and a timestamp inside the window, at the clock reading on record |
| PipelineTheorems.DeliveriesCarryTheClassification | src/webhook_ai_router/workers/tasks.py:129-143 | in every interleaving each request of an event carries the classification the model gave last before it in the event's own run, and a DISPATCHED row holds the last of them |
| PipelineTheorems.TheWorkerFindsItsRow | src/webhook_ai_router/workers/tasks.py:110-111 | however early it starts, the worker's first update finds the committed row |
| PipelineTheorems.AcceptedEventsSettle | src/webhook_ai_router/workers/tasks.py:110-226 | a 202 names a queued event, and once process_webhook has returned for it the tables are in one of exactly two states, DISPATCHED or FAILED after 5 attempts with a dead letter, however earlier attempts ended |
| PipelineTheorems.StrandedRowsStayReceived | src/webhook_ai_router/api/routes/webhooks.py:129-140 | a row whose job was never queued stays RECEIVED, nothing is sent for it, it gets no dead letter |
| PipelineTheorems.EveryEventFaresAsAlone | src/webhook_ai_router/workers/tasks.py:61-91 | in every interleaving what happens to an event is a run of the worker from the row as received |
| PipelineTheorems.EveryEventKeepsToItsLifecycle | src/webhook_ai_router/services/events.py:106-155 | so lifecycle, counts and the bound on model calls hold of every event of the pipeline |
| PipelineTheorems.DispatchedRowsWereDelivered | src/webhook_ai_router/workers/tasks.py:144-172 | in every interleaving a row that says DISPATCHED has an acknowledgement on record for every success stored in it, and at least one unless there are no targets |
| PipelineTheorems.DeadEventsWereNotDelivered | src/webhook_ai_router/workers/tasks.py:144-162 | the event of a dead letter was acknowledged by no target unless an outcome was lost |
| PipelineTheorems.OwnRunsAreRuns | src/webhook_ai_router/workers/tasks.py:61-91 | whatever a worker can do for its event alone it can do in the pipeline, with the same result |
| PipelineTheorems.AcceptedEventsCanFinish | src/webhook_ai_router/workers/tasks.py:58-198 | some run of the pipeline gets an event answered with a 202 processed to its end if and only if its tries are not used up, which takes an unforeseen failure |

## Left out

- HTTP framework, middleware, health probes, logging, lifespan, settings, migrations, problem bodies: no hard property.
- HMAC-SHA256 is a function parameter and comparison is equality; nothing is said about timing.
- JSON and Pydantic: parsing is an uninterpreted deterministic function that may fail or crash, and payloads are opaque.
- The JSON form of a cached response: the stored value is the response itself, and its headers are reduced to the content type.
- Security.HonestSendersAreAccepted: the clock is a real number, so the float subtraction and its overflow for enormous timestamps are not modelled.
- Security.DotIsNoInteger: of Python's int() the limit of 4300 digits and the separators U+001C to U+001F inside non-ASCII text are not modelled.
- Keys longer than the column's 256 characters appear as an insert that raises without effect.
- Queue entries are kept for good, while arq forgets a job id when its result expires; `DeduplicationIsNeverNeeded` shows that nothing depends on it.
- LLM prompts, request shapes and the SDKs' own inner retries: a model call is one call of the decorated function's body.
- Webhooks.Servers.Suspend: what others write to Redis appears as a keyspace that answers as the protocol's maps do; its expiry times are those of `IngestOverRedis` only.
- Deadlines.AttemptsFitExactly: counts model calls, sleeps and the fan-out, not the statements on the database.
- WorkerTheorems.EveryEventComesToAnEnd: that arq takes the next step is the environment's part.
- FanOut.Dispatch: in the "unexpected" entry the number of attempts is the constant 1, as in the code, so it is no request count.
- RetryLoop.SendOneWithRetry: has no counterpart of the last two exits (services/dispatch.py:152-163), which are dead because every transport error is retried or ends in RetryError.
- FanOut.TargetEndsInTime: the HTTP client's own timeout is not used as a bound on a request; D is a parameter.
- A reply that arrives after its attempt was cut off never reaches the worker and counts as no acknowledgement.
- The counters for received webhooks and dead letters, and the processing histogram: plain increments beside the modelled steps.
- Results of arq jobs, `keep_result`, `max_jobs`: not read by the code modelled here.
