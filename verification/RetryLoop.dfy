/**
 The retry loop of one dispatch target, under a wall-clock budget (services/dispatch.py).

 Time is counted in milliseconds. tenacity is modelled by its contract: after an attempt
 that raised a retryable exception the loop stops if the time since the loop began has
 reached the budget, and otherwise sleeps and tries again; any other exception is re-raised
 at once. The replies of a target, how long each request takes (at least one millisecond)
 and how long each sleep lasts are one infinite script per target.
 */
module RetryLoop {
  import opened Prelude
  import opened Schemas

  type Positive = x: nat | 1 <= x witness 1

  datatype Reply = Status(code: int) | TransportError | OtherError(name: string)

  datatype Probe = Probe(reply: Reply, duration: Positive, wait: nat)

  type Script = nat -> Probe

  predicate Is5xx(code: int) { 500 <= code < 600 }

  predicate Is2xx(code: int) { 200 <= code < 300 }

  /** What `retry_if_exception_type((TransportError, TransientHTTPError))` retries. */
  predicate Transient(reply: Reply) {
    reply.TransportError? || (reply.Status? && Is5xx(reply.code))
  }

  // ---------- what a script means, without any loop ----------

  /** When request `n` is sent, if the loop gets that far. */
  function StartTime(script: Script, n: nat): nat {
    if n == 0 then 0 else StartTime(script, n - 1) + script(n - 1).duration + script(n - 1).wait
  }

  function FinishTime(script: Script, n: nat): nat {
    StartTime(script, n) + script(n).duration
  }

  /** The last 5xx among the first `n` replies. */
  function LastStatus(script: Script, n: nat): Option<int> {
    if n == 0 then None
    else
      match script(n - 1).reply
      case Status(c) => Some(c)
      case _ => LastStatus(script, n - 1)
  }

  predicate StopsAt(script: Script, budget: nat, n: nat) {
    !Transient(script(n).reply) || FinishTime(script, n) >= budget
  }

  ghost predicate FirstStop(script: Script, budget: nat, k: nat) {
    StopsAt(script, budget, k) && forall j: nat :: j < k ==> !StopsAt(script, budget, j)
  }

  datatype Verdict = Answered(code: int) | Exhausted(last: Option<int>) | Raised(name: string)

  /** The conclusion of a loop whose last request is request `k`. */
  function VerdictAt(script: Script, k: nat): Verdict {
    match script(k).reply
    case Status(c) => if Is5xx(c) then Exhausted(Some(c)) else Answered(c)
    case TransportError => Exhausted(LastStatus(script, k + 1))
    case OtherError(name) => Raised(name)
  }

  lemma {:induction false} RequestsTakeTime(script: Script, n: nat)
    ensures StartTime(script, n) >= n
  {
    if n > 0 {
      RequestsTakeTime(script, n - 1);
    }
  }

  /** Searches for the request at which the loop stops; `budget` bounds the search. */
  ghost function StopFrom(script: Script, budget: nat, n: nat): (k: nat)
    requires forall j: nat :: j < n ==> !StopsAt(script, budget, j)
    ensures FirstStop(script, budget, k)
    ensures k + 1 <= if n < budget then budget else n + 1
    decreases if n < budget then budget - n else 0
  {
    RequestsTakeTime(script, n);
    if StopsAt(script, budget, n) then n else StopFrom(script, budget, n + 1)
  }

  /** The unique request at which a loop over this script stops. */
  ghost function StopIndex(script: Script, budget: nat): (k: nat)
    ensures FirstStop(script, budget, k)
    ensures k + 1 <= if budget == 0 then 1 else budget
  {
    StopFrom(script, budget, 0)
  }

  lemma FirstStopIsUnique(script: Script, budget: nat, j: nat, k: nat)
    requires FirstStop(script, budget, j) && FirstStop(script, budget, k)
    ensures j == k
  {
  }

  // ---------- one step of one loop ----------

  /** A retry loop between two awaits: waiting for its next reply, or over. */
  datatype Loop =
    | Running(sent: nat, clock: nat, last: Option<int>)
    | Ended(verdict: Verdict, sent: nat, clock: nat)

  const FRESH := Running(0, 0, None)

  function Retry(budget: nat, sent: nat, clock: nat, wait: nat, last: Option<int>): Loop {
    if clock >= budget then Ended(Exhausted(last), sent, clock)
    else Running(sent, clock + wait, last)
  }

  function Advance(loop: Loop, budget: nat, p: Probe): Loop
    requires loop.Running?
  {
    var sent, clock := loop.sent + 1, loop.clock + p.duration;
    match p.reply
    case Status(c) =>
      if Is5xx(c) then Retry(budget, sent, clock, p.wait, Some(c))
      else Ended(Answered(c), sent, clock)
    case TransportError => Retry(budget, sent, clock, p.wait, loop.last)
    case OtherError(name) => Ended(Raised(name), sent, clock)
  }

  /** The loop is where its script takes it after `loop.sent` requests. */
  ghost predicate OnTrack(script: Script, budget: nat, loop: Loop) {
    match loop
    case Running(sent, clock, last) =>
      && (forall j: nat :: j < sent ==> !StopsAt(script, budget, j))
      && clock == StartTime(script, sent)
      && last == LastStatus(script, sent)
    case Ended(verdict, sent, clock) =>
      && sent >= 1
      && FirstStop(script, budget, sent - 1)
      && verdict == VerdictAt(script, sent - 1)
      && clock == FinishTime(script, sent - 1)
  }

  lemma AdvanceStaysOnTrack(script: Script, budget: nat, loop: Loop)
    requires loop.Running? && OnTrack(script, budget, loop)
    ensures OnTrack(script, budget, Advance(loop, budget, script(loop.sent)))
  {
  }

  /** The only end a script allows, said without running the loop. */
  ghost function Conclusion(script: Script, budget: nat): (end: Loop)
    ensures end.Ended?
  {
    var k := StopIndex(script, budget);
    Ended(VerdictAt(script, k), k + 1, FinishTime(script, k))
  }

  lemma EndedMeetsSpecification(script: Script, budget: nat, loop: Loop)
    requires loop.Ended? && OnTrack(script, budget, loop)
    ensures loop == Conclusion(script, budget)
  {
  }

  /** Runs a loop to its end. */
  function RunToEnd(script: Script, budget: nat, loop: Loop): (end: Loop)
    requires loop.Running? ==> loop.clock >= loop.sent
    ensures end.Ended?
    decreases loop.Running?, if loop.Running? && loop.clock < budget then budget - loop.clock else 0
  {
    if loop.Ended? then loop
    else RunToEnd(script, budget, Advance(loop, budget, script(loop.sent)))
  }

  /** Running a loop that is on track reaches the one conclusion its script allows. */
  lemma {:induction false} RunToEndMeetsSpecification(script: Script, budget: nat, loop: Loop)
    requires loop.Running? ==> loop.clock >= loop.sent
    requires OnTrack(script, budget, loop)
    ensures RunToEnd(script, budget, loop) == Conclusion(script, budget)
    decreases loop.Running?, if loop.Running? && loop.clock < budget then budget - loop.clock else 0
  {
    if loop.Ended? {
      EndedMeetsSpecification(script, budget, loop);
    } else {
      AdvanceStaysOnTrack(script, budget, loop);
      RunToEndMeetsSpecification(script, budget, Advance(loop, budget, script(loop.sent)));
    }
  }

  /** What the coroutine returns, or the name of what it raises. */
  function Conclude(url: string, end: Loop): Result<DispatchResult, string>
    requires end.Ended?
  {
    match end.verdict
    case Answered(c) => Success(DispatchResult(url, Is2xx(c), Some(c), end.sent, None))
    case Exhausted(last) => Success(DispatchResult(url, false, last, end.sent, Some(TimeoutExceeded)))
    case Raised(name) => Failure(name)
  }

  /** A transport error or a code from 500 to 599. */
  predicate IsRecoverable(reply: Reply) {
    reply.TransportError? || (reply.Status? && 500 <= reply.code < 600)
  }

  predicate HasStatus(script: Script, j: nat) { script(j).reply.Status? }

  ghost predicate NoStatusFrom(script: Script, from: nat, n: nat) {
    forall j: nat :: from <= j < n ==> !HasStatus(script, j)
  }

  /** The last status among the first `n` replies. */
  ghost predicate IsLastStatus(script: Script, n: nat, last: Option<int>) {
    match last
    case None => NoStatusFrom(script, 0, n)
    case Some(c) => exists i: nat :: i < n && script(i).reply == Status(c) && NoStatusFrom(script, i + 1, n)
  }

  lemma {:induction false} LastStatusIsLast(script: Script, n: nat)
    ensures IsLastStatus(script, n, LastStatus(script, n))
  {
    if n > 0 {
      LastStatusIsLast(script, n - 1);
      if script(n - 1).reply.Status? {
        assert NoStatusFrom(script, n, n);
      } else if LastStatus(script, n - 1).Some? {
        var c := LastStatus(script, n - 1).value;
        var i: nat :| i < n - 1 && script(i).reply == Status(c) && NoStatusFrom(script, i + 1, n - 1);
        assert NoStatusFrom(script, i + 1, n);
      }
    }
  }

  lemma LastStatusIsUnique(script: Script, n: nat, a: Option<int>, b: Option<int>)
    requires IsLastStatus(script, n, a) && IsLastStatus(script, n, b)
    ensures a == b
  {
    if a.Some? {
      var i: nat :| i < n && script(i).reply == Status(a.value) && NoStatusFrom(script, i + 1, n);
      assert HasStatus(script, i);
    }
    if b.Some? {
      var i: nat :| i < n && script(i).reply == Status(b.value) && NoStatusFrom(script, i + 1, n);
      assert HasStatus(script, i);
    }
  }

  /** Reply `j` is recoverable and arrives before the budget is spent. */
  predicate GoesOn(script: Script, budget: nat, j: nat) {
    IsRecoverable(script(j).reply) && FinishTime(script, j) < budget
  }

  /** All replies before request `n` are such, so that it is sent. */
  ghost predicate GetsTo(script: Script, budget: nat, n: nat) {
    forall j: nat :: j < n ==> GoesOn(script, budget, j)
  }

  /** What the coroutine gives if request `n`, counted from 0, is its last: any status outside
      500 to 599 is an answer, a success if from 200 to 299; a recoverable reply means that the
      budget is spent, and the last status received is reported if there was any; any other
      exception leaves the coroutine. */
  ghost predicate GivesAt(url: string, script: Script, n: nat, r: Result<DispatchResult, string>) {
    match script(n).reply
    case OtherError(name) => r == Failure(name)
    case Status(c) =>
      r == Success(if 500 <= c < 600 then DispatchResult(url, false, Some(c), n + 1, Some(TimeoutExceeded))
                   else DispatchResult(url, 200 <= c < 300, Some(c), n + 1, None))
    case TransportError =>
      && r.Success? && r.value == DispatchResult(url, false, r.value.statusCode, n + 1, Some(TimeoutExceeded))
      && IsLastStatus(script, n, r.value.statusCode)
  }

  /** Request `n` is the last one, and the coroutine gives `r`. */
  ghost predicate Gives(url: string, script: Script, budget: nat, n: nat, r: Result<DispatchResult, string>) {
    && GetsTo(script, budget, n) && !GoesOn(script, budget, n)
    && GivesAt(url, script, n, r)
  }

  lemma StopsExactly(script: Script, budget: nat, n: nat)
    ensures FirstStop(script, budget, n) <==> GetsTo(script, budget, n) && !GoesOn(script, budget, n)
  {
    forall j: nat ensures StopsAt(script, budget, j) <==> !GoesOn(script, budget, j) {
    }
  }

  lemma GivesExactly(url: string, script: Script, n: nat, clock: nat, r: Result<DispatchResult, string>)
    ensures GivesAt(url, script, n, r) <==> r == Conclude(url, Ended(VerdictAt(script, n), n + 1, clock))
  {
    LastStatusIsLast(script, n);
    if script(n).reply.TransportError? && GivesAt(url, script, n, r) {
      LastStatusIsUnique(script, n, r.value.statusCode, LastStatus(script, n));
    }
  }

  /** That is what the coroutine comes to, for every script and budget, and nothing else is. */
  lemma ConcludesExactly(url: string, script: Script, budget: nat, n: nat, r: Result<DispatchResult, string>)
    ensures Gives(url, script, budget, n, r) <==>
      n == StopIndex(script, budget) && r == Conclude(url, Conclusion(script, budget))
  {
    var k := StopIndex(script, budget);
    StopsExactly(script, budget, k);
    StopsExactly(script, budget, n);
    GivesExactly(url, script, n, FinishTime(script, n), r);
    if FirstStop(script, budget, n) {
      FirstStopIsUnique(script, budget, n, k);
    }
  }

  /** The coroutine raises if and only if the reply at which it stops is an exception that is
      not a transport error. */
  lemma RaisesExactlyOnOtherErrors(url: string, script: Script, budget: nat)
    ensures Conclude(url, Conclusion(script, budget)).Failure? <==> script(StopIndex(script, budget)).reply.OtherError?
  {
    if Conclude(url, Conclusion(script, budget)).Failure? {
      assert VerdictAt(script, StopIndex(script, budget)).Raised?;
    }
  }

  /** Such scripts exist for every budget and name of an exception. */
  lemma TheCoroutineCanRaise(url: string, budget: nat, name: string)
    ensures exists script: Script :: Conclude(url, Conclusion(script, budget)) == Failure(name)
  {
    var script: Script := (n: nat) => Probe(OtherError(name), 1, 0);
    assert FirstStop(script, budget, 0);
    FirstStopIsUnique(script, budget, 0, StopIndex(script, budget));
    assert Conclude(url, Conclusion(script, budget)) == Failure(name);
  }

  // ---------- metrics ----------

  /** The values of the label `outcome`. */
  datatype Label = LabelSuccess | Label4xx | Label5xx | LabelTransportError | LabelTimeout

  datatype Increment = Increment(host: string, outcome: Label)

  /** The counter family dispatch_attempts_total, as the list of its increments. */
  class AttemptMetric {
    var counts: seq<Increment>

    constructor ()
      ensures counts == []
    {
      counts := [];
    }

    method Inc(host: string, outcome: Label)
      modifies this
      ensures counts == old(counts) + [Increment(host, outcome)]
    {
      counts := counts + [Increment(host, outcome)];
    }
  }

  /** The label under which a reply is counted; other exceptions are not counted. */
  function ReplyLabel(reply: Reply): Option<Label> {
    match reply
    case Status(c) => Some(if Is5xx(c) then Label5xx else if Is2xx(c) then LabelSuccess else Label4xx)
    case TransportError => Some(LabelTransportError)
    case OtherError(_) => None
  }

  function Counted(host: string, l: Option<Label>): seq<Increment> {
    match l
    case Some(name) => [Increment(host, name)]
    case None => []
  }

  /** The increments made for the first `n` replies of a script. */
  function ReplyCounts(host: string, script: Script, n: nat): seq<Increment> {
    if n == 0 then []
    else ReplyCounts(host, script, n - 1) + Counted(host, ReplyLabel(script(n - 1).reply))
  }

  function EndCounts(host: string, v: Verdict): seq<Increment> {
    if v.Exhausted? then [Increment(host, LabelTimeout)] else []
  }

  /** All increments caused by a loop so far. */
  function LoopCounts(host: string, script: Script, loop: Loop): seq<Increment> {
    ReplyCounts(host, script, loop.sent) + if loop.Ended? then EndCounts(host, loop.verdict) else []
  }

  /** Every request before the stop is counted once. */
  lemma {:induction false} RetriedRequestsAreCounted(host: string, script: Script, budget: nat, n: nat)
    requires forall j: nat :: j < n ==> !StopsAt(script, budget, j)
    ensures |ReplyCounts(host, script, n)| == n
  {
    if n > 0 {
      RetriedRequestsAreCounted(host, script, budget, n - 1);
      assert !StopsAt(script, budget, n - 1);
    }
  }

  /** Increments are conserved: one per request, one more for an exhausted budget, and one
      less when the last request raised something that is not a transport error. */
  lemma IncrementsConserved(host: string, script: Script, budget: nat, loop: Loop)
    requires loop.Ended? && OnTrack(script, budget, loop)
    ensures |LoopCounts(host, script, loop)| + (if loop.verdict.Raised? then 1 else 0)
         == loop.sent + (if loop.verdict.Exhausted? then 1 else 0)
  {
    var n := loop.sent - 1;
    RetriedRequestsAreCounted(host, script, budget, n);
    LastIncrement(host, script, n);
  }

  lemma LastIncrement(host: string, script: Script, n: nat)
    ensures |ReplyCounts(host, script, n + 1)| ==
            |ReplyCounts(host, script, n)| + (if script(n).reply.OtherError? then 0 else 1)
  {
  }

  /** The outcome label of a reply by its code. */
  ghost predicate LabelledBy(reply: Reply, outcome: Label) {
    match reply
    case TransportError => outcome == LabelTransportError
    case Status(c) =>
      outcome == if 200 <= c < 300 then LabelSuccess else if 500 <= c < 600 then Label5xx else Label4xx
    case OtherError(_) => false
  }

  /** Increment `j` is that of reply `j`. */
  ghost predicate CountsReply(host: string, script: Script, counts: seq<Increment>, j: nat)
    requires j < |counts|
  {
    counts[j].host == host && LabelledBy(script(j).reply, counts[j].outcome)
  }

  ghost predicate CountsReplies(host: string, script: Script, counts: seq<Increment>, n: nat) {
    |counts| >= n && forall j: nat {:trigger CountsReply(host, script, counts, j)} :: j < n ==>
      CountsReply(host, script, counts, j)
  }

  /** The increments of a coroutine that ends with request `n`: one for every reply, in order;
      none for the reply that leaves it as another exception; and one more if the budget is
      what ended it. */
  ghost predicate CountsOf(host: string, script: Script, n: nat, counts: seq<Increment>) {
    match script(n).reply
    case OtherError(_) => |counts| == n && CountsReplies(host, script, counts, n)
    case reply =>
      && CountsReplies(host, script, counts, n + 1)
      && counts[n + 1..] == if IsRecoverable(reply) then [Increment(host, LabelTimeout)] else []
  }

  lemma {:induction false} RepliesAreCounted(host: string, script: Script, n: nat)
    requires forall j: nat :: j < n ==> !IsOther(script, j)
    ensures |ReplyCounts(host, script, n)| == n && CountsReplies(host, script, ReplyCounts(host, script, n), n)
  {
    if n > 0 {
      RepliesAreCounted(host, script, n - 1);
      var before, counts := ReplyCounts(host, script, n - 1), ReplyCounts(host, script, n);
      assert !IsOther(script, n - 1);
      forall j: nat | j < n ensures CountsReply(host, script, counts, j) {
        if j < n - 1 { assert CountsReply(host, script, before, j) && counts[j] == before[j]; }
      }
    }
  }

  predicate IsOther(script: Script, j: nat) { script(j).reply.OtherError? }

  lemma CountsExactly(host: string, script: Script, budget: nat)
    ensures CountsOf(host, script, StopIndex(script, budget), LoopCounts(host, script, Conclusion(script, budget)))
  {
    var n := StopIndex(script, budget);
    StopsExactly(script, budget, n);
    forall j: nat | j < n ensures !IsOther(script, j) {
      assert GoesOn(script, budget, j);
    }
    RepliesAreCounted(host, script, n);
    if !IsOther(script, n) {
      RepliesAreCounted(host, script, n + 1);
      var replies, counts := ReplyCounts(host, script, n + 1), LoopCounts(host, script, Conclusion(script, budget));
      forall j: nat | j < n + 1 ensures CountsReply(host, script, counts, j) {
        assert CountsReply(host, script, replies, j) && counts[j] == replies[j];
      }
    } else {
      assert LoopCounts(host, script, Conclusion(script, budget)) == ReplyCounts(host, script, n);
    }
  }

  // ---------- _send_one_with_retry ----------

  /** How the body of one `with attempt:` block is left. */
  datatype Exit = Return(code: int) | RaiseTransient(status: Option<int>) | RaiseOther(name: string)

  method Attempt(host: string, reply: Reply, metrics: AttemptMetric) returns (exit: Exit)
    modifies metrics
    ensures exit == match reply
      case Status(c) => if Is5xx(c) then RaiseTransient(Some(c)) else Return(c)
      case TransportError => RaiseTransient(None)
      case OtherError(name) => RaiseOther(name)
    ensures metrics.counts == old(metrics.counts) + Counted(host, ReplyLabel(reply))
  {
    match reply {
      case TransportError =>
        metrics.Inc(host, LabelTransportError);
        exit := RaiseTransient(None);
      case OtherError(name) =>
        exit := RaiseOther(name);
      case Status(code) =>
        if Is5xx(code) {
          metrics.Inc(host, Label5xx);
          exit := RaiseTransient(Some(code));
        } else {
          metrics.Inc(host, if Is2xx(code) then LabelSuccess else Label4xx);
          exit := Return(code);
        }
    }
  }

  /** The increments of a loop follow from those of its requests, one request at a time. */
  lemma CountsGrow(before: seq<Increment>, host: string, script: Script, n: nat, now: seq<Increment>)
    requires now == before + ReplyCounts(host, script, n) + Counted(host, ReplyLabel(script(n).reply))
    ensures now == before + ReplyCounts(host, script, n + 1)
  {
  }

  lemma CountsEnd(before: seq<Increment>, host: string, script: Script, end: Loop, now: seq<Increment>)
    requires end.Ended?
    requires now == before + ReplyCounts(host, script, end.sent) + EndCounts(host, end.verdict)
    ensures now == before + LoopCounts(host, script, end)
  {
  }

  /** The retry loop of one target, run on its own. */
  method SendOneWithRetry(target: DispatchTarget, script: Script, budget: nat, metrics: AttemptMetric)
    returns (r: Result<DispatchResult, string>)
    modifies metrics
    ensures r == Conclude(target.url, Conclusion(script, budget))
    ensures Gives(target.url, script, budget, StopIndex(script, budget), r)
    ensures var counts := LoopCounts(target.host, script, Conclusion(script, budget));
      metrics.counts == old(metrics.counts) + counts && CountsOf(target.host, script, StopIndex(script, budget), counts)
  {
    ConcludesExactly(target.url, script, budget, StopIndex(script, budget),
                     Conclude(target.url, Conclusion(script, budget)));
    CountsExactly(target.host, script, budget);
    ghost var end := Conclusion(script, budget);
    assert RunToEnd(script, budget, FRESH) == end by {
      RunToEndMeetsSpecification(script, budget, FRESH);
    }
    var attempts: nat := 0;
    var lastStatus: Option<int> := None;
    var clock: nat := 0;
    while true
      invariant clock >= attempts
      invariant RunToEnd(script, budget, Running(attempts, clock, lastStatus)) == end
      invariant metrics.counts == old(metrics.counts) + ReplyCounts(target.host, script, attempts)
      decreases if clock < budget then budget - clock else 0
    {
      var p := script(attempts);
      ghost var next := Advance(Running(attempts, clock, lastStatus), budget, p);
      assert RunToEnd(script, budget, next) == end;
      var exit := Attempt(target.host, p.reply, metrics);
      CountsGrow(old(metrics.counts), target.host, script, attempts, metrics.counts);
      attempts := attempts + 1;
      clock := clock + p.duration;
      if exit.Return? {
        assert next == Ended(Answered(exit.code), attempts, clock);
        CountsEnd(old(metrics.counts), target.host, script, end, metrics.counts);
        return Success(DispatchResult(target.url, Is2xx(exit.code), Some(exit.code), attempts, None));
      }
      if exit.RaiseOther? {
        assert next == Ended(Raised(exit.name), attempts, clock);
        CountsEnd(old(metrics.counts), target.host, script, end, metrics.counts);
        return Failure(exit.name);
      }
      lastStatus := if exit.status.Some? then exit.status else lastStatus;
      if clock >= budget {
        metrics.Inc(target.host, LabelTimeout);
        assert next == Ended(Exhausted(lastStatus), attempts, clock);
        CountsEnd(old(metrics.counts), target.host, script, end, metrics.counts);
        return Success(DispatchResult(target.url, false, lastStatus, attempts, Some(TimeoutExceeded)));
      }
      clock := clock + p.wait;
      assert next == Running(attempts, clock, lastStatus);
    }
  }
}
