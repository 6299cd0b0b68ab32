/** How long one attempt of a queued job can take, against arq's job timeout. */
module Deadlines {
  import opened Schemas
  import opened RetryLoop
  import opened FanOut
  import Llm

  const JOB_TIMEOUT: nat := 180 * SECOND
  const DEFAULT_BUDGET: nat := 120 * SECOND

  /** Classification followed by the fan-out. */
  ghost function AttemptTime(model: Llm.Script, calls: nat, scripts: seq<Script>, budget: nat): nat {
    Llm.Elapsed(model, calls) + EndTime(Conclusions(scripts, budget))
  }

  /** An attempt that gets through to the fan-out: the model answers in the end, model calls
      take at most `modelLimit` and requests at most `limit`. */
  ghost predicate Possible(
      provider: Llm.Provider, model: Llm.Script, modelLimit: nat, calls: nat, scripts: seq<Script>, limit: nat)
  {
    && Llm.Timely(model, modelLimit) && Llm.MakesCalls(provider, model, calls)
    && model(calls - 1).reply.Enriched?
    && AllTimely(scripts, limit)
  }

  function LongestAttempt(modelLimit: nat, targets: nat, budget: nat, limit: nat): nat {
    4 * modelLimit + 7 * SECOND + if targets == 0 then 0 else WorstCase(budget, limit)
  }

  lemma AttemptEndsInTime(
      provider: Llm.Provider, model: Llm.Script, modelLimit: nat, calls: nat,
      scripts: seq<Script>, budget: nat, limit: nat)
    requires Possible(provider, model, modelLimit, calls, scripts, limit)
    ensures AttemptTime(model, calls, scripts, budget) <= LongestAttempt(modelLimit, |scripts|, budget, limit)
    ensures AttemptTime(model, calls, scripts, budget) <= 4 * modelLimit + budget + 37 * SECOND + limit
  {
    Llm.ClassificationEndsInTime(model, modelLimit, calls);
    FanOutEndsInTime(scripts, budget, limit);
  }

  /** Every attempt is over after time `t` if and only if the longest one is. */
  lemma AttemptsFitExactly(
      provider: Llm.Provider, modelLimit: nat, targets: nat, budget: nat, limit: Positive, t: nat)
    ensures (forall model: Llm.Script, calls, scripts: seq<Script> ::
               Possible(provider, model, modelLimit, calls, scripts, limit) && |scripts| == targets ==>
                 AttemptTime(model, calls, scripts, budget) <= t)
       <==> LongestAttempt(modelLimit, targets, budget, limit) <= t
  {
    var e := Enrichment(Warm, "reason", 0.5);
    var model: Llm.Script := Llm.Slowest(provider, modelLimit, e);
    var scripts: seq<Script> := seq(targets, _ => Slowest(budget, limit));
    Llm.SlowestTakes(provider, modelLimit, e);
    SlowestTakes(budget, limit);
    assert AllTimely(scripts, limit) && Possible(provider, model, modelLimit, Llm.MAX_CALLS, scripts, limit);
    assert targets > 0 ==> Conclusions(scripts, budget)[0].clock == WorstCase(budget, limit);
    FanOutEndsInTime(scripts, budget, limit);
    assert AttemptTime(model, Llm.MAX_CALLS, scripts, budget) == LongestAttempt(modelLimit, targets, budget, limit);
    forall model: Llm.Script, calls, scripts: seq<Script> |
      Possible(provider, model, modelLimit, calls, scripts, limit) && |scripts| == targets
      ensures AttemptTime(model, calls, scripts, budget) <= LongestAttempt(modelLimit, targets, budget, limit)
    {
      AttemptEndsInTime(provider, model, modelLimit, calls, scripts, budget, limit);
    }
  }

  lemma LongSleepsAreCapped(n: nat)
    requires n >= 5
    ensures WaitCap(MAX_WAIT_SECONDS, n) == MAX_WAIT_SECONDS * SECOND
  {
    assert Pow2(1) == 2 && Pow2(2) == 4 && Pow2(3) == 8 && Pow2(4) == 16 && Pow2(5) == 32;
    WaitCapGrows(MAX_WAIT_SECONDS, 5, n);
  }

  /** With the default budget no attempt outlasts the job timeout if and only if four model
      calls and one request together take less than 23.002 seconds. */
  lemma JobTimeoutIsEnoughExactly(provider: Llm.Provider, modelLimit: nat, targets: nat, limit: Positive)
    requires targets > 0
    ensures (forall model: Llm.Script, calls, scripts: seq<Script> ::
               Possible(provider, model, modelLimit, calls, scripts, limit) && |scripts| == targets ==>
                 AttemptTime(model, calls, scripts, DEFAULT_BUDGET) <= JOB_TIMEOUT)
       <==> 4 * modelLimit + limit < 23_002
  {
    AttemptsFitExactly(provider, modelLimit, targets, DEFAULT_BUDGET, limit, JOB_TIMEOUT);
    LongSleepsAreCapped(DEFAULT_BUDGET - 2);
  }

  /** Even with one model call of at most 10 seconds, and requests of at most 30, it can be
      outlasted, although it is set above the sum of the budget, one model call and slack. */
  lemma JobTimeoutCanFire(provider: Llm.Provider)
    ensures exists model: Llm.Script, scripts: seq<Script> ::
      && Possible(provider, model, 10 * SECOND, 1, scripts, 30 * SECOND) && |scripts| == 1
      && AttemptTime(model, 1, scripts, DEFAULT_BUDGET) > JOB_TIMEOUT
  {
    var model: Llm.Script := (n: nat) => Llm.Call(Llm.Enriched(Enrichment(Warm, "reason", 0.5)), 10 * SECOND, 0);
    var scripts: seq<Script> := [Slowest(DEFAULT_BUDGET, 30 * SECOND)];
    SlowestTakes(DEFAULT_BUDGET, 30 * SECOND);
    LongSleepsAreCapped(DEFAULT_BUDGET - 2);
    assert Llm.Elapsed(model, 1) == 10 * SECOND;
    assert Conclusions(scripts, DEFAULT_BUDGET)[0].clock == WorstCase(DEFAULT_BUDGET, 30 * SECOND);
    assert Possible(provider, model, 10 * SECOND, 1, scripts, 30 * SECOND);
    assert AttemptTime(model, 1, scripts, DEFAULT_BUDGET) > JOB_TIMEOUT;
  }
}
