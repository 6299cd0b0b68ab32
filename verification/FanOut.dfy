/**
 The fan-out of services/dispatch.py: one retry loop per target, interleaved by the event
 loop in any order, then a merge in target order; and how long it can take.
 */
module FanOut {
  import opened Prelude
  import opened Schemas
  import opened RetryLoop

  /** The result list entry for a target whose coroutine returned or raised. */
  function Report(url: string, end: Loop): DispatchResult
    requires end.Ended?
  {
    match Conclude(url, end)
    case Success(result) => result
    case Failure(name) => DispatchResult(url, false, None, 1, Some(Unexpected(name)))
  }

  /** The entry of a target whose last request is request `n`: what its coroutine gave, or,
      for an exception that left it, a failure named after the exception, with the number 1 in
      place of the number of requests. */
  ghost predicate EntryAt(url: string, script: Script, budget: nat, n: nat, entry: DispatchResult) {
    if script(n).reply.OtherError? then
      && Gives(url, script, budget, n, Failure(script(n).reply.name))
      && entry == DispatchResult(url, false, None, 1, Some(Unexpected(script(n).reply.name)))
    else Gives(url, script, budget, n, Success(entry))
  }

  /** One request is the last, and the entry is what follows from it. */
  ghost predicate EntryOf(url: string, script: Script, budget: nat, entry: DispatchResult) {
    exists n: nat :: EntryAt(url, script, budget, n, entry)
  }

  /** The result list has that entry for a target and could have no other. */
  lemma ReportsExactly(url: string, script: Script, budget: nat, entry: DispatchResult)
    ensures EntryOf(url, script, budget, entry) <==> entry == Report(url, Conclusion(script, budget))
  {
    var k, end := StopIndex(script, budget), Conclusion(script, budget);
    ConcludesExactly(url, script, budget, k, Conclude(url, end));
    if entry == Report(url, end) {
      assert EntryAt(url, script, budget, k, entry);
    }
    if EntryOf(url, script, budget, entry) {
      var n: nat :| EntryAt(url, script, budget, n, entry);
      ConcludesExactly(url, script, budget, n,
        if script(n).reply.OtherError? then Failure(script(n).reply.name) else Success(entry));
    }
  }

  // ---------- sums ----------

  function Sum<T>(f: T -> int, s: seq<T>): int {
    if s == [] then 0 else f(s[0]) + Sum(f, s[1..])
  }

  lemma {:induction false} SumUpdate<T>(f: T -> int, s: seq<T>, i: nat, x: T)
    requires i < |s|
    ensures Sum(f, s[i := x]) == Sum(f, s) - f(s[i]) + f(x)
  {
    if i == 0 {
      assert s[0 := x][1..] == s[1..];
    } else {
      assert s[i := x][1..] == s[1..][i - 1 := x];
      SumUpdate(f, s[1..], i - 1, x);
    }
  }

  lemma {:induction false} SumIsNonNegative<T>(f: T -> int, s: seq<T>)
    requires forall i :: 0 <= i < |s| ==> f(s[i]) >= 0
    ensures Sum(f, s) >= 0
  {
    if s != [] {
      SumIsNonNegative(f, s[1..]);
    }
  }

  lemma {:induction false} SumOfZeros<T>(f: T -> int, s: seq<T>)
    requires forall i :: 0 <= i < |s| ==> f(s[i]) == 0
    ensures Sum(f, s) == 0
  {
    if s != [] {
      SumOfZeros(f, s[1..]);
    }
  }

  /** How far a loop is from its end at most. */
  function Left(budget: nat, loop: Loop): nat {
    if loop.Ended? then 0
    else 1 + if loop.clock < budget then budget - loop.clock else 0
  }

  lemma AdvanceShrinks(budget: nat, loop: Loop, p: Probe)
    requires loop.Running?
    ensures Left(budget, Advance(loop, budget, p)) < Left(budget, loop)
  {
  }

  // ---------- increments ----------

  /** What a loop adds to the counters on its way from one state to the next. */
  function TurnCounts(host: string, script: Script, loop: Loop, next: Loop): seq<Increment>
    requires loop.Running?
  {
    Counted(host, ReplyLabel(script(loop.sent).reply)) + if next.Ended? then EndCounts(host, next.verdict) else []
  }

  lemma TurnCountsAdd(host: string, script: Script, loop: Loop, next: Loop)
    requires loop.Running? && next.sent == loop.sent + 1
    ensures LoopCounts(host, script, next) == LoopCounts(host, script, loop) + TurnCounts(host, script, loop, next)
  {
  }

  /** How often one increment was made. */
  function CountOf(counts: seq<Increment>, x: Increment): nat {
    if counts == [] then 0 else (if counts[0] == x then 1 else 0) + CountOf(counts[1..], x)
  }

  lemma {:induction false} CountOfConcat(a: seq<Increment>, b: seq<Increment>, x: Increment)
    ensures CountOf(a + b, x) == CountOf(a, x) + CountOf(b, x)
  {
    if a == [] {
      assert a + b == b;
    } else {
      assert (a + b)[1..] == a[1..] + b;
      CountOfConcat(a[1..], b, x);
    }
  }

  /** How often all targets together made it. */
  function TotalOf(targets: seq<DispatchTarget>, scripts: seq<Script>, loops: seq<Loop>, x: Increment): nat
    requires |scripts| == |targets| && |loops| == |targets|
  {
    if targets == [] then 0
    else
      CountOf(LoopCounts(targets[0].host, scripts[0], loops[0]), x) + TotalOf(targets[1..], scripts[1..], loops[1..], x)
  }

  lemma {:induction false} TotalOfUpdate(
      targets: seq<DispatchTarget>, scripts: seq<Script>, loops: seq<Loop>, i: nat, next: Loop,
      more: seq<Increment>, x: Increment)
    requires |scripts| == |targets| && |loops| == |targets| && i < |targets|
    requires LoopCounts(targets[i].host, scripts[i], next) == LoopCounts(targets[i].host, scripts[i], loops[i]) + more
    ensures TotalOf(targets, scripts, loops[i := next], x) == TotalOf(targets, scripts, loops, x) + CountOf(more, x)
  {
    if i == 0 {
      assert loops[0 := next][1..] == loops[1..];
      CountOfConcat(LoopCounts(targets[0].host, scripts[0], loops[0]), more, x);
    } else {
      assert loops[i := next][1..] == loops[1..][i - 1 := next];
      TotalOfUpdate(targets[1..], scripts[1..], loops[1..], i - 1, next, more, x);
    }
  }

  lemma {:induction false} NothingCountedYet(
      targets: seq<DispatchTarget>, scripts: seq<Script>, loops: seq<Loop>, x: Increment)
    requires |scripts| == |targets| && |loops| == |targets|
    requires forall i :: 0 <= i < |loops| ==> loops[i] == FRESH
    ensures TotalOf(targets, scripts, loops, x) == 0
  {
    if targets != [] {
      NothingCountedYet(targets[1..], scripts[1..], loops[1..], x);
    }
  }

  /** Between the two states of the counters, all targets together made just the increments
      their scripts account for, in whatever order. */
  ghost predicate Tallied(
      before: seq<Increment>, after: seq<Increment>,
      targets: seq<DispatchTarget>, scripts: seq<Script>, loops: seq<Loop>)
  {
    && |scripts| == |targets| && |loops| == |targets|
    && forall x :: CountOf(after, x) == CountOf(before, x) + TotalOf(targets, scripts, loops, x)
  }

  lemma TalliedAtFirst(counts: seq<Increment>, targets: seq<DispatchTarget>, scripts: seq<Script>, loops: seq<Loop>)
    requires |scripts| == |targets| && |loops| == |targets|
    requires forall i :: 0 <= i < |loops| ==> loops[i] == FRESH
    ensures Tallied(counts, counts, targets, scripts, loops)
  {
    forall x ensures TotalOf(targets, scripts, loops, x) == 0 {
      NothingCountedYet(targets, scripts, loops, x);
    }
  }

  lemma TalliedAfterATurn(
      before: seq<Increment>, now: seq<Increment>, targets: seq<DispatchTarget>, scripts: seq<Script>,
      loops: seq<Loop>, i: nat, next: Loop)
    requires Tallied(before, now, targets, scripts, loops)
    requires i < |loops| && loops[i].Running? && next.sent == loops[i].sent + 1
    ensures var more := TurnCounts(targets[i].host, scripts[i], loops[i], next);
      Tallied(before, now + more, targets, scripts, loops[i := next])
  {
    var more := TurnCounts(targets[i].host, scripts[i], loops[i], next);
    TurnCountsAdd(targets[i].host, scripts[i], loops[i], next);
    forall x ensures CountOf(now + more, x) == CountOf(before, x) + TotalOf(targets, scripts, loops[i := next], x) {
      CountOfConcat(now, more, x);
      TotalOfUpdate(targets, scripts, loops, i, next, more, x);
    }
  }

  /** The increments of all targets, one after the other. */
  function AllCounts(targets: seq<DispatchTarget>, scripts: seq<Script>, loops: seq<Loop>): seq<Increment>
    requires |scripts| == |targets| && |loops| == |targets|
  {
    if targets == [] then []
    else LoopCounts(targets[0].host, scripts[0], loops[0]) + AllCounts(targets[1..], scripts[1..], loops[1..])
  }

  /** There are as many of them as requests and exhausted budgets, less the exceptions that
      are not counted. */
  lemma {:induction false} FanOutIncrementsConserved(
      targets: seq<DispatchTarget>, scripts: seq<Script>, budget: nat, loops: seq<Loop>)
    requires |scripts| == |targets| && AllOnTrack(scripts, budget, loops)
    requires forall i :: 0 <= i < |loops| ==> loops[i].Ended?
    ensures |AllCounts(targets, scripts, loops)| + Sum(RaisedCount, loops)
         == Sum(SentCount, loops) + Sum(ExhaustedCount, loops)
    ensures forall x :: CountOf(AllCounts(targets, scripts, loops), x) == TotalOf(targets, scripts, loops, x)
  {
    if targets != [] {
      IncrementsConserved(targets[0].host, scripts[0], budget, loops[0]);
      FanOutIncrementsConserved(targets[1..], scripts[1..], budget, loops[1..]);
      var first := LoopCounts(targets[0].host, scripts[0], loops[0]);
      var rest := AllCounts(targets[1..], scripts[1..], loops[1..]);
      forall x ensures CountOf(first + rest, x) == TotalOf(targets, scripts, loops, x) {
        CountOfConcat(first, rest, x);
      }
    }
  }

  function SentCount(loop: Loop): int { loop.sent }

  function ExhaustedCount(loop: Loop): int { if loop.Ended? && loop.verdict.Exhausted? then 1 else 0 }

  function RaisedCount(loop: Loop): int { if loop.Ended? && loop.verdict.Raised? then 1 else 0 }

  // ---------- dispatch ----------

  ghost predicate AllOnTrack(scripts: seq<Script>, budget: nat, loops: seq<Loop>) {
    |loops| == |scripts| && forall i :: 0 <= i < |loops| ==> OnTrack(scripts[i], budget, loops[i])
  }

  /** The conclusions of all targets, each computed as if it were alone. */
  ghost function Conclusions(scripts: seq<Script>, budget: nat): (ends: seq<Loop>)
    ensures |ends| == |scripts|
    ensures forall i :: 0 <= i < |ends| ==> ends[i] == Conclusion(scripts[i], budget)
  {
    seq(|scripts|, i requires 0 <= i < |scripts| => Conclusion(scripts[i], budget))
  }

  /** One turn of the event loop: the coroutine of a target gets its reply and runs to its
      next await, or to its end. */
  method Turn(target: DispatchTarget, script: Script, budget: nat, loop: Loop, metrics: AttemptMetric)
    returns (next: Loop)
    requires loop.Running?
    modifies metrics
    ensures next == Advance(loop, budget, script(loop.sent))
    ensures metrics.counts == old(metrics.counts) + TurnCounts(target.host, script, loop, next)
  {
    var p := script(loop.sent);
    var exit := Attempt(target.host, p.reply, metrics);
    var sent, clock := loop.sent + 1, loop.clock + p.duration;
    match exit {
      case Return(code) =>
        next := Ended(Answered(code), sent, clock);
      case RaiseOther(name) =>
        next := Ended(Raised(name), sent, clock);
      case RaiseTransient(status) =>
        var last := if status.Some? then status else loop.last;
        if clock >= budget {
          metrics.Inc(target.host, LabelTimeout);
          next := Ended(Exhausted(last), sent, clock);
        } else {
          next := Running(sent, clock + p.wait, last);
        }
    }
  }

  /** Runs the coroutines in an order chosen freely at every turn until all are over. */
  method Gather(targets: seq<DispatchTarget>, scripts: seq<Script>, budget: nat, metrics: AttemptMetric)
    returns (loops: seq<Loop>)
    requires |scripts| == |targets|
    modifies metrics
    ensures loops == Conclusions(scripts, budget)
    ensures Tallied(old(metrics.counts), metrics.counts, targets, scripts, loops)
  {
    loops := seq(|targets|, i => FRESH);
    TalliedAtFirst(metrics.counts, targets, scripts, loops);
    ghost var left := (l: Loop) => Left(budget, l);
    SumIsNonNegative(left, loops);
    while exists i :: 0 <= i < |loops| && loops[i].Running?
      invariant AllOnTrack(scripts, budget, loops)
      invariant Tallied(old(metrics.counts), metrics.counts, targets, scripts, loops)
      invariant Sum(left, loops) >= 0
      decreases Sum(left, loops)
    {
      var i: nat :| i < |loops| && loops[i].Running?;
      ghost var counted := metrics.counts;
      var next := Turn(targets[i], scripts[i], budget, loops[i], metrics);
      AdvanceStaysOnTrack(scripts[i], budget, loops[i]);
      AdvanceShrinks(budget, loops[i], scripts[i](loops[i].sent));
      TalliedAfterATurn(old(metrics.counts), counted, targets, scripts, loops, i, next);
      SumUpdate(left, loops, i, next);
      SumIsNonNegative(left, loops[i := next]);
      loops := loops[i := next];
    }
    forall i | 0 <= i < |loops| ensures loops[i] == Conclusion(scripts[i], budget) {
      assert loops[i].Ended?;
      EndedMeetsSpecification(scripts[i], budget, loops[i]);
    }
  }

  /** The call returns for every order of turns, with one entry per target in target order,
      each what that target's script alone leads to. */
  method Dispatch(targets: seq<DispatchTarget>, scripts: seq<Script>, budget: nat, metrics: AttemptMetric)
    returns (results: seq<DispatchResult>)
    requires |scripts| == |targets|
    modifies metrics
    ensures |results| == |targets|
    ensures forall i :: 0 <= i < |targets| ==> results[i] == Report(targets[i].url, Conclusion(scripts[i], budget))
    ensures forall i :: 0 <= i < |targets| ==> EntryOf(targets[i].url, scripts[i], budget, results[i])
    ensures Tallied(old(metrics.counts), metrics.counts, targets, scripts, Conclusions(scripts, budget))
  {
    if targets == [] {
      return [];
    }
    var raw := Gather(targets, scripts, budget, metrics);
    results := [];
    for i := 0 to |targets|
      invariant |results| == i
      invariant forall j :: 0 <= j < i ==> results[j] == Report(targets[j].url, raw[j])
    {
      match Conclude(targets[i].url, raw[i]) {
        case Success(result) =>
          results := results + [result];
        case Failure(name) =>
          results := results + [DispatchResult(targets[i].url, false, None, 1, Some(Unexpected(name)))];
      }
    }
    forall i | 0 <= i < |targets| ensures EntryOf(targets[i].url, scripts[i], budget, results[i]) {
      ReportsExactly(targets[i].url, scripts[i], budget, results[i]);
    }
  }

  // ---------- every schedule, not only complete ones ----------

  /** Plays a schedule; a turn given to a loop that is over changes nothing. */
  function Play(scripts: seq<Script>, budget: nat, loops: seq<Loop>, schedule: seq<nat>): (r: seq<Loop>)
    requires |loops| == |scripts|
    ensures |r| == |loops|
    decreases |schedule|
  {
    if schedule == [] then loops
    else
      var i := schedule[0];
      var next := if i < |loops| && loops[i].Running?
                  then loops[i := Advance(loops[i], budget, scripts[i](loops[i].sent))] else loops;
      Play(scripts, budget, next, schedule[1..])
  }

  /** `n` turns of one loop on its own. */
  function Solo(script: Script, budget: nat, loop: Loop, n: nat): Loop
    decreases n
  {
    if n == 0 || loop.Ended? then loop
    else Solo(script, budget, Advance(loop, budget, script(loop.sent)), n - 1)
  }

  function Turns(schedule: seq<nat>, i: nat): nat {
    if schedule == [] then 0 else (if schedule[0] == i then 1 else 0) + Turns(schedule[1..], i)
  }

  /** Where a loop is depends only on how many turns it has had, not on the other targets,
      on what they answered or raised, or on the order. */
  lemma {:induction false} FanOutIsConfluent(
      scripts: seq<Script>, budget: nat, loops: seq<Loop>, schedule: seq<nat>, i: nat)
    requires |loops| == |scripts| && i < |loops|
    ensures Play(scripts, budget, loops, schedule)[i] == Solo(scripts[i], budget, loops[i], Turns(schedule, i))
    decreases |schedule|
  {
    if schedule != [] {
      var j := schedule[0];
      var next := if j < |loops| && loops[j].Running?
                  then loops[j := Advance(loops[j], budget, scripts[j](loops[j].sent))] else loops;
      FanOutIsConfluent(scripts, budget, next, schedule[1..], i);
    }
  }

  /** Enough turns bring a loop to the conclusion of its script; more change nothing. */
  lemma {:induction false} SoloConcludes(script: Script, budget: nat, loop: Loop, n: nat)
    requires OnTrack(script, budget, loop)
    requires n >= Left(budget, loop)
    ensures Solo(script, budget, loop, n) == Conclusion(script, budget)
    decreases n
  {
    if loop.Ended? {
      EndedMeetsSpecification(script, budget, loop);
    } else {
      AdvanceStaysOnTrack(script, budget, loop);
      AdvanceShrinks(budget, loop, script(loop.sent));
      SoloConcludes(script, budget, Advance(loop, budget, script(loop.sent)), n - 1);
    }
  }

  /** Whatever the interleaving, a target that has had `budget + 1` turns is at the one
      conclusion of its script. */
  lemma FairSchedulesConclude(scripts: seq<Script>, budget: nat, schedule: seq<nat>, i: nat)
    requires i < |scripts|
    requires Turns(schedule, i) >= budget + 1
    ensures Play(scripts, budget, seq(|scripts|, _ => FRESH), schedule)[i] == Conclusion(scripts[i], budget)
  {
    FanOutIsConfluent(scripts, budget, seq(|scripts|, _ => FRESH), schedule, i);
    SoloConcludes(scripts[i], budget, FRESH, Turns(schedule, i));
  }

  // ---------- how long it takes ----------

  const SECOND := 1000

  function Pow2(n: nat): (p: nat)
    ensures p >= 1
  {
    if n == 0 then 1 else 2 * Pow2(n - 1)
  }

  /** The longest sleep wait_random_exponential(multiplier=1, max) allows after request `n`. */
  function WaitCap(max: nat, n: nat): nat {
    Min(max * SECOND, Pow2(n) * SECOND)
  }

  const MAX_WAIT_SECONDS: nat := 30

  /** No request takes longer than `limit`, and the sleeps obey the wait policy. */
  ghost predicate Timely(script: Script, limit: nat) {
    forall n: nat :: script(n).duration <= limit && script(n).wait <= WaitCap(MAX_WAIT_SECONDS, n)
  }

  lemma {:induction false} WaitCapGrows(max: nat, m: nat, n: nat)
    requires m <= n
    ensures WaitCap(max, m) <= WaitCap(max, n)
    decreases n
  {
    if m < n {
      WaitCapGrows(max, m, n - 1);
    }
  }

  /** The latest end of a target: its last retried request ends one tick before the budget
      does, the longest sleep its number allows follows, and one more request. */
  function WorstCase(budget: nat, limit: nat): (t: nat)
    ensures t <= budget + MAX_WAIT_SECONDS * SECOND + limit
  {
    if budget <= 1 then limit else budget - 1 + WaitCap(MAX_WAIT_SECONDS, budget - 2) + limit
  }

  /** A target is over by then, after at most max(1, budget) requests. */
  lemma TargetEndsInTime(script: Script, budget: nat, limit: nat)
    requires Timely(script, limit)
    ensures Conclusion(script, budget).clock <= WorstCase(budget, limit)
    ensures Conclusion(script, budget).sent <= if budget == 0 then 1 else budget
  {
    var k := StopIndex(script, budget);
    if k > 0 {
      assert !StopsAt(script, budget, k - 1);
      RequestsTakeTime(script, k - 1);
      WaitCapGrows(MAX_WAIT_SECONDS, k - 1, budget - 2);
      assert FinishTime(script, k) ==
        FinishTime(script, k - 1) + script(k - 1).wait + script(k).duration;
    }
  }

  /** The script that takes longest: 503 in one tick each until the budget has one tick left,
      one longest sleep, one longest request. */
  function Slowest(budget: nat, limit: Positive): Script {
    (n: nat) =>
      if n + 1 < budget
      then Probe(Status(503), 1, if n + 2 == budget then WaitCap(MAX_WAIT_SECONDS, n) else 0)
      else Probe(Status(503), limit, 0)
  }

  lemma {:induction false} SlowestStarts(budget: nat, limit: Positive, n: nat)
    requires n + 1 < budget
    ensures StartTime(Slowest(budget, limit), n) == n
  {
    if n > 0 {
      SlowestStarts(budget, limit, n - 1);
    }
  }

  lemma SlowestTakes(budget: nat, limit: Positive)
    ensures Timely(Slowest(budget, limit), limit)
    ensures Conclusion(Slowest(budget, limit), budget).clock == WorstCase(budget, limit)
  {
    var s: Script := Slowest(budget, limit);
    var last: nat := if budget <= 1 then 0 else budget - 1;
    forall j: nat | j < last ensures !StopsAt(s, budget, j) {
      SlowestStarts(budget, limit, j);
    }
    if last > 0 {
      SlowestStarts(budget, limit, last - 1);
    }
    assert FinishTime(s, last) == WorstCase(budget, limit);
    assert FirstStop(s, budget, last);
    FirstStopIsUnique(s, budget, last, StopIndex(s, budget));
  }

  /** Every target with such requests is over by time `t` if and only if the worst case is. */
  lemma TargetsFitExactly(budget: nat, limit: Positive, t: nat)
    ensures (forall script: Script :: Timely(script, limit) ==> Conclusion(script, budget).clock <= t)
       <==> WorstCase(budget, limit) <= t
  {
    SlowestTakes(budget, limit);
    forall script: Script | Timely(script, limit)
      ensures Conclusion(script, budget).clock <= WorstCase(budget, limit)
    {
      TargetEndsInTime(script, budget, limit);
    }
  }

  /** The fan-out is over when its last target is. */
  function EndTime(ends: seq<Loop>): (t: nat)
    ensures forall i :: 0 <= i < |ends| ==> ends[i].clock <= t
    ensures ends == [] ==> t == 0
    ensures ends != [] ==> exists i :: 0 <= i < |ends| && ends[i].clock == t
  {
    if ends == [] then 0
    else
      var rest := EndTime(ends[1..]);
      if ends[0].clock >= rest then ends[0].clock
      else
        assert forall i :: 0 < i < |ends| ==> ends[i] == ends[1..][i - 1];
        rest
  }

  ghost predicate AllTimely(scripts: seq<Script>, limit: nat) {
    forall i :: 0 <= i < |scripts| ==> Timely(scripts[i], limit)
  }

  /** The bound does not grow with the number of targets. */
  lemma FanOutEndsInTime(scripts: seq<Script>, budget: nat, limit: nat)
    requires AllTimely(scripts, limit)
    ensures EndTime(Conclusions(scripts, budget)) <= WorstCase(budget, limit)
  {
    var ends := Conclusions(scripts, budget);
    forall i | 0 <= i < |ends| ensures ends[i].clock <= WorstCase(budget, limit) {
      TargetEndsInTime(scripts[i], budget, limit);
    }
  }

  /** Nor is it any smaller: every fan-out to that many targets is over by time `t` if and
      only if the worst case of one target is. */
  lemma FanOutsFitExactly(targets: nat, budget: nat, limit: Positive, t: nat)
    requires targets > 0
    ensures (forall scripts: seq<Script> :: |scripts| == targets && AllTimely(scripts, limit) ==>
              EndTime(Conclusions(scripts, budget)) <= t)
       <==> WorstCase(budget, limit) <= t
  {
    var slowest: seq<Script> := seq(targets, _ => Slowest(budget, limit));
    SlowestTakes(budget, limit);
    assert AllTimely(slowest, limit) && Conclusions(slowest, budget)[0].clock == WorstCase(budget, limit);
    forall scripts: seq<Script> | |scripts| == targets && AllTimely(scripts, limit)
      ensures EndTime(Conclusions(scripts, budget)) <= WorstCase(budget, limit)
    {
      FanOutEndsInTime(scripts, budget, limit);
    }
  }
}
