/**
 The concurrent route refines a register that fixes each key once.

 The register holds one event id per key. Fixing a key succeeds once; answering a key
 yields the 202 of the id it was fixed to. The insert commit is where a key is fixed.
 */
module IngestRegister {
  import opened Prelude
  import opened Schemas
  import opened Events
  import opened Ingest
  import opened IngestInvariant

  type Register = map<Key, EventId>

  datatype Event = Internal | Fix(key: Key, id: EventId) | Answer(key: Key, response: Response)

  predicate Allowed(m: Register, e: Event) {
    match e
    case Internal => true
    case Fix(key, _) => key !in m
    case Answer(key, response) => key in m && response == Encode(m[key])
  }

  function Apply(m: Register, e: Event): Register {
    if e.Fix? then m[e.key := e.id] else m
  }

  predicate AllowedTrace(m: Register, trace: seq<Event>)
    decreases |trace|
  {
    trace == [] || (Allowed(m, trace[0]) && AllowedTrace(Apply(m, trace[0]), trace[1..]))
  }

  function ApplyAll(m: Register, trace: seq<Event>): Register
    decreases |trace|
  {
    if trace == [] then m else ApplyAll(Apply(m, trace[0]), trace[1..])
  }

  // ---------- what the register promises ----------

  lemma {:induction false} FixedKeysStay(m: Register, trace: seq<Event>, key: Key)
    requires AllowedTrace(m, trace) && key in m
    ensures key in ApplyAll(m, trace) && ApplyAll(m, trace)[key] == m[key]
    decreases |trace|
  {
    if trace != [] {
      FixedKeysStay(Apply(m, trace[0]), trace[1..], key);
    }
  }

  /** Every answer in a trace is the 202 of the id its key ends up with. */
  lemma {:induction false} AnswersAgreeWithTheEnd(m: Register, trace: seq<Event>, i: nat)
    requires AllowedTrace(m, trace) && i < |trace| && trace[i].Answer?
    ensures var key := trace[i].key;
      key in ApplyAll(m, trace) && trace[i].response == Encode(ApplyAll(m, trace)[key])
    decreases |trace|
  {
    if i == 0 {
      FixedKeysStay(Apply(m, trace[0]), trace[1..], trace[0].key);
    } else {
      AnswersAgreeWithTheEnd(Apply(m, trace[0]), trace[1..], i - 1);
    }
  }

  lemma {:induction false} FixedKeysAreNotFixedAgain(m: Register, trace: seq<Event>, k: nat)
    requires AllowedTrace(m, trace) && k < |trace| && trace[k].Fix?
    ensures trace[k].key !in m
    decreases |trace|
  {
    if k > 0 {
      FixedKeysAreNotFixedAgain(Apply(m, trace[0]), trace[1..], k - 1);
    }
  }

  lemma {:induction false} KeysAreFixedOnce(m: Register, trace: seq<Event>, j: nat, k: nat)
    requires AllowedTrace(m, trace) && j < k < |trace| && trace[j].Fix? && trace[k].Fix?
    ensures trace[j].key != trace[k].key
    decreases |trace|
  {
    if j == 0 {
      FixedKeysAreNotFixedAgain(Apply(m, trace[0]), trace[1..], k - 1);
    } else {
      KeysAreFixedOnce(Apply(m, trace[0]), trace[1..], j - 1, k - 1);
    }
  }

  predicate IsFixFor(e: Event, answer: Event)
    requires answer.Answer?
  {
    e.Fix? && e.key == answer.key && answer.response == Encode(e.id)
  }

  /** No other event of the trace fixes the key that event `j` fixes. */
  predicate OnlyFix(trace: seq<Event>, j: nat)
    requires j < |trace| && trace[j].Fix?
  {
    forall k :: 0 <= k < |trace| && trace[k].Fix? && trace[k].key == trace[j].key ==> k == j
  }

  /** Exactly one event of a trace fixes the key of an answer: it precedes the answer and
      fixes the key to the answered id. */
  lemma AnswersComeAfterTheirFix(m: Register, trace: seq<Event>, i: nat)
    requires AllowedTrace(m, trace) && i < |trace| && trace[i].Answer?
    requires trace[i].key !in m
    ensures exists j :: 0 <= j < i && IsFixFor(trace[j], trace[i]) && OnlyFix(trace, j)
  {
    SomeFixPrecedes(m, trace, i);
    var j :| 0 <= j < i && IsFixFor(trace[j], trace[i]);
    forall k | 0 <= k < |trace| && trace[k].Fix? && trace[k].key == trace[j].key ensures k == j {
      if k < j {
        KeysAreFixedOnce(m, trace, k, j);
      } else if j < k {
        KeysAreFixedOnce(m, trace, j, k);
      }
    }
  }

  lemma {:induction false} SomeFixPrecedes(m: Register, trace: seq<Event>, i: nat)
    requires AllowedTrace(m, trace) && i < |trace| && trace[i].Answer?
    requires trace[i].key !in m
    ensures exists j :: 0 <= j < i && IsFixFor(trace[j], trace[i])
    decreases |trace|
  {
    if trace[0].Fix? && trace[0].key == trace[i].key {
      AnswerAfterFix(Apply(m, trace[0]), trace[1..], i - 1);
      assert IsFixFor(trace[0], trace[i]);
    } else {
      SomeFixPrecedes(Apply(m, trace[0]), trace[1..], i - 1);
      var j :| 0 <= j < i - 1 && IsFixFor(trace[1..][j], trace[i]);
      assert trace[j + 1] == trace[1..][j];
    }
  }

  lemma {:induction false} AnswerAfterFix(m: Register, trace: seq<Event>, i: nat)
    requires AllowedTrace(m, trace) && i < |trace| && trace[i].Answer? && trace[i].key in m
    ensures trace[i].response == Encode(m[trace[i].key])
    decreases |trace|
  {
    if i > 0 {
      AnswerAfterFix(Apply(m, trace[0]), trace[1..], i - 1);
    }
  }

  // ---------- the refinement ----------

  /** The register of a state: its rows, by key. */
  ghost predicate Represents(m: Register, table: Table) {
    && (forall id {:trigger table[id]} :: id in table ==> table[id].key in m && m[table[id].key] == id)
    && (forall key {:trigger m[key]} :: key in m ==> m[key] in table && table[m[key]].key == key)
  }

  /** The request's reply, once it has been given. */
  function Given(s: State, r: ReqId): Option<Reply> {
    if r in s.pcs && s.pcs[r].Replied? then Some(s.pcs[r].reply) else None
  }

  /** What a step looks like from outside: a row committed, or a 202 given. */
  ghost function Observe(c: Config, s: State, a: Action): Event
    requires Enabled(s, a)
  {
    match a
    case Insert(r, id, o) =>
      if !Refused(s.data.table, id, KeyOf(s.data.requests[r])) && Applied(o)
      then Fix(KeyOf(s.data.requests[r]), id) else Internal
    case CacheGet(r, ok) => ObserveReply(s, CacheGetStep(s, r, ok), r)
    case Unlock(r, o) => ObserveReply(s, UnlockStep(s, r, o), r)
    case _ => Internal
  }

  function ObserveReply(s: State, s': State, r: ReqId): Event
    requires r in s.data.requests
  {
    match Given(s', r)
    case Some(Accepted(response)) => Answer(KeyOf(s.data.requests[r]), response)
    case _ => Internal
  }

  /** Nothing escapes observation: a 202 is given in no other step. */
  lemma OnlyObservedStepsAnswer(c: Config, s: State, a: Action, r: ReqId)
    requires Inv(s) && Enabled(s, a)
    requires Given(s, r).None? && Given(Next(c, s, a), r).Some? && Given(Next(c, s, a), r).value.Accepted?
    ensures r in s.data.requests
    ensures Observe(c, s, a) == Answer(KeyOf(s.data.requests[r]), Given(Next(c, s, a), r).value.response)
  {
  }

  lemma CommitSimulated(table: Table, m: Register, id: EventId, row: Row)
    requires Represents(m, table) && !Refused(table, id, row.key)
    ensures row.key !in m && Represents(m[row.key := id], table[id := row])
  {
  }

  lemma AnswerSimulated(s: State, m: Register, key: Key, response: Response)
    requires Represents(m, s.data.table) && Acknowledges(s.data, key, response)
    ensures Allowed(m, Answer(key, response))
  {
  }

  lemma TouchSimulated(table: Table, m: Register, id: EventId, row: Row)
    requires Represents(m, table) && id in table && SameIdentity(table[id], row)
    ensures Represents(m, table[id := row])
  {
  }

  lemma OthersKeepTheTable(c: Config, s: State, a: Action)
    requires Enabled(s, a) && !a.Insert? && !a.Touch?
    ensures Next(c, s, a).data.table == s.data.table
  {
  }

  lemma InsertSimulated(c: Config, s: State, r: ReqId, id: EventId, o: Outcome, m: Register)
    requires Inv(s) && Enabled(s, Insert(r, id, o)) && Represents(m, s.data.table)
    ensures var e := Observe(c, s, Insert(r, id, o));
      Allowed(m, e) && Represents(Apply(m, e), InsertStep(s, r, id, o).data.table)
  {
    var req := s.data.requests[r];
    if !Refused(s.data.table, id, KeyOf(req)) {
      CommitSimulated(s.data.table, m, id, NewRow(req.source, KeyOf(req), s.pcs[r].payload));
    }
  }

  lemma CacheGetSimulated(s: State, r: ReqId, ok: bool, m: Register)
    requires Inv(s) && Enabled(s, CacheGet(r, ok)) && Represents(m, s.data.table)
    ensures Allowed(m, ObserveReply(s, CacheGetStep(s, r, ok), r))
  {
    var key := KeyOf(s.data.requests[r]);
    if key in s.data.cache {
      assert Acknowledges(s.data, key, s.data.cache[key]);
      AnswerSimulated(s, m, key, s.data.cache[key]);
    }
  }

  lemma UnlockSimulated(s: State, r: ReqId, o: Outcome, m: Register)
    requires Inv(s) && Enabled(s, Unlock(r, o)) && Represents(m, s.data.table)
    ensures Allowed(m, ObserveReply(s, UnlockStep(s, r, o), r))
  {
    assert PcOk(s.data, r, s.pcs[r]);
    if s.pcs[r].reply.Accepted? {
      AnswerSimulated(s, m, KeyOf(s.data.requests[r]), s.pcs[r].reply.response);
    }
  }

  /** Each step of the route is a step of the register. */
  lemma StepSimulated(c: Config, s: State, a: Action, m: Register)
    requires Inv(s) && Enabled(s, a) && Represents(m, s.data.table)
    ensures Allowed(m, Observe(c, s, a))
    ensures Represents(Apply(m, Observe(c, s, a)), Next(c, s, a).data.table)
  {
    match a
    case Insert(r, id, o) => InsertSimulated(c, s, r, id, o, m);
    case CacheGet(r, ok) => CacheGetSimulated(s, r, ok, m);
    case Unlock(r, o) => UnlockSimulated(s, r, o, m);
    case Touch(id, row) => TouchSimulated(s.data.table, m, id, row);
    case _ => OthersKeepTheTable(c, s, a);
  }

  /** The observable trace of a run. */
  ghost function Trace(c: Config, s: State, actions: seq<Action>): (t: seq<Event>)
    requires Legal(c, s, actions)
    ensures |t| == |actions|
    decreases |actions|
  {
    if actions == [] then []
    else [Observe(c, s, actions[0])] + Trace(c, Next(c, s, actions[0]), actions[1..])
  }

  lemma {:induction false} RunSimulated(c: Config, s: State, actions: seq<Action>, m: Register)
    requires Inv(s) && Legal(c, s, actions) && Represents(m, s.data.table)
    ensures AllowedTrace(m, Trace(c, s, actions))
    ensures Represents(ApplyAll(m, Trace(c, s, actions)), Run(c, s, actions).data.table)
    decreases |actions|
  {
    if actions != [] {
      var t := Next(c, s, actions[0]);
      var rest := Trace(c, t, actions[1..]);
      StepKeepsInv(c, s, actions[0]);
      StepSimulated(c, s, actions[0], m);
      RunSimulated(c, t, actions[1..], Apply(m, Observe(c, s, actions[0])));
      assert Trace(c, s, actions)[1..] == rest;
    }
  }

  /** Every run from the start is, from outside, a run of the register from empty. */
  lemma RouteRefinesRegister(c: Config, actions: seq<Action>)
    requires Legal(c, INITIAL, actions)
    ensures AllowedTrace(map[], Trace(c, INITIAL, actions))
    ensures Represents(ApplyAll(map[], Trace(c, INITIAL, actions)), Run(c, INITIAL, actions).data.table)
  {
    RunSimulated(c, INITIAL, actions, map[]);
  }
}
