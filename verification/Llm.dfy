/**
 The retry policy around `classify_lead` (services/llm.py). The model itself is a script:
 what each call ends with, how long it takes and how long the sleep after it lasts.
 */
module Llm {
  import opened Prelude
  import opened Schemas
  import opened FanOut

  datatype Provider = Anthropic | Gemini

  /** What a call can raise besides a classification error. */
  datatype SdkError =
    | ApiConnectionError | ApiTimeoutError | RateLimitError | InternalServerError
    | GenaiServerError | GenaiClientError(code: Option<int>)
    | HttpxTimeout | HttpxConnectError
    | OtherException

  datatype Reply = Enriched(enrichment: Enrichment) | Unclassifiable(message: string) | Raised(error: SdkError)

  datatype Call = Call(reply: Reply, duration: nat, wait: nat)

  type Script = nat -> Call

  const MAX_CALLS: nat := 4
  const MAX_WAIT_SECONDS: nat := 15

  predicate IsTransientGenaiError(e: SdkError) {
    match e
    case GenaiServerError => true
    case GenaiClientError(code) => code == Some(429)
    case HttpxTimeout => true
    case HttpxConnectError => true
    case _ => false
  }

  predicate IsTransientAnthropicError(e: SdkError) {
    e.ApiConnectionError? || e.ApiTimeoutError? || e.RateLimitError? || e.InternalServerError?
  }

  predicate Retryable(provider: Provider, reply: Reply) {
    && reply.Raised?
    && match provider
       case Anthropic => IsTransientAnthropicError(reply.error)
       case Gemini => IsTransientGenaiError(reply.error)
  }

  /** The time `n` calls take, with the sleeps between them. */
  function Elapsed(script: Script, n: nat): nat {
    if n == 0 then 0
    else Elapsed(script, n - 1) + script(n - 1).duration + (if n > 1 then script(n - 2).wait else 0)
  }

  /** At most four calls; every one before the last raised something transient; and fewer
      than four only if the last did not. */
  ghost predicate MakesCalls(provider: Provider, script: Script, calls: nat) {
    && 1 <= calls <= MAX_CALLS
    && (forall j: nat :: j < calls - 1 ==> Retryable(provider, script(j).reply))
    && (calls < MAX_CALLS ==> !Retryable(provider, script(calls - 1).reply))
  }

  /** That leaves one number of calls for a script. */
  lemma CallsAreUnique(provider: Provider, script: Script, m: nat, n: nat)
    requires MakesCalls(provider, script, m) && MakesCalls(provider, script, n)
    ensures m == n
  {
  }

  /** That number. */
  function CallsMade(provider: Provider, script: Script): (calls: nat)
    ensures MakesCalls(provider, script, calls)
  {
    if !Retryable(provider, script(0).reply) then 1
    else if !Retryable(provider, script(1).reply) then 2
    else if !Retryable(provider, script(2).reply) then 3
    else MAX_CALLS
  }

  /** What it makes of the replies: that of the last call. */
  function LastReply(provider: Provider, script: Script): Reply {
    script(CallsMade(provider, script) - 1).reply
  }

  /** The errors after which a call is made again. */
  function RetriedErrors(provider: Provider): set<SdkError> {
    match provider
    case Anthropic => {ApiConnectionError, ApiTimeoutError, RateLimitError, InternalServerError}
    case Gemini => {GenaiServerError, GenaiClientError(Some(429)), HttpxTimeout, HttpxConnectError}
  }

  predicate IsRetried(provider: Provider, reply: Reply) {
    reply.Raised? && reply.error in RetriedErrors(provider)
  }

  /** Call `n`, counted from 0, is the last one: every one before it raised one of those errors,
      and it is the fourth or raised none of them. */
  ghost predicate LastCall(provider: Provider, script: Script, n: nat) {
    && n <= 3 && (forall j: nat :: j < n ==> IsRetried(provider, script(j).reply))
    && (n == 3 || !IsRetried(provider, script(n).reply))
  }

  /** What the policy does, error by error. */
  lemma PolicyExactly(provider: Provider, script: Script, n: nat)
    ensures CallsMade(provider, script) == n + 1 <==> LastCall(provider, script, n)
    ensures LastCall(provider, script, n) ==> LastReply(provider, script) == script(n).reply
  {
    forall j: nat ensures Retryable(provider, script(j).reply) <==> IsRetried(provider, script(j).reply) {
    }
    if LastCall(provider, script, n) {
      CallsAreUnique(provider, script, n + 1, CallsMade(provider, script));
    }
  }

  method ClassifyLead(provider: Provider, script: Script) returns (reply: Reply, calls: nat, elapsed: nat)
    ensures calls == CallsMade(provider, script) && MakesCalls(provider, script, calls)
    ensures reply == LastReply(provider, script)
    ensures calls >= 1 && LastCall(provider, script, calls - 1) && reply == script(calls - 1).reply
    ensures elapsed == Elapsed(script, calls)
  {
    calls := 0;
    elapsed := 0;
    while true
      invariant calls < MAX_CALLS
      invariant forall j: nat :: j < calls ==> Retryable(provider, script(j).reply)
      invariant elapsed == Elapsed(script, calls) + (if calls > 0 then script(calls - 1).wait else 0)
      decreases MAX_CALLS - calls
    {
      reply := script(calls).reply;
      elapsed := elapsed + script(calls).duration;
      calls := calls + 1;
      if !Retryable(provider, reply) || calls >= MAX_CALLS {
        CallsAreUnique(provider, script, calls, CallsMade(provider, script));
        PolicyExactly(provider, script, calls - 1);
        return;
      }
      elapsed := elapsed + script(calls - 1).wait;
    }
  }

  ghost predicate Timely(script: Script, limit: nat) {
    forall n: nat :: script(n).duration <= limit && script(n).wait <= WaitCap(MAX_WAIT_SECONDS, n)
  }

  /** Four calls and the three sleeps between them: 1, 2 and 4 seconds at most. */
  lemma ClassificationEndsInTime(script: Script, limit: nat, calls: nat)
    requires Timely(script, limit) && calls <= MAX_CALLS
    ensures Elapsed(script, calls) <= 4 * limit + 7 * SECOND
  {
  }

  /** The script that takes longest: three transient errors, then an answer. */
  function Slowest(provider: Provider, limit: nat, e: Enrichment): Script {
    var error := if provider.Anthropic? then RateLimitError else GenaiServerError;
    (n: nat) =>
      if n < 3 then Call(Raised(error), limit, WaitCap(MAX_WAIT_SECONDS, n))
      else Call(Enriched(e), limit, 0)
  }

  /** The bound is attained. */
  lemma SlowestTakes(provider: Provider, limit: nat, e: Enrichment)
    ensures Timely(Slowest(provider, limit, e), limit) && MakesCalls(provider, Slowest(provider, limit, e), MAX_CALLS)
    ensures Elapsed(Slowest(provider, limit, e), MAX_CALLS) == 4 * limit + 7 * SECOND
  {
    var s: Script := Slowest(provider, limit, e);
    assert Pow2(0) == 1 && Pow2(1) == 2 && Pow2(2) == 4;
    assert Elapsed(s, 1) == limit && Elapsed(s, 2) == 2 * limit + 1 * SECOND && Elapsed(s, 3) == 3 * limit + 3 * SECOND;
  }
}
