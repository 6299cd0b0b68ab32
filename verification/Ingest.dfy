/**
 The ingest protocol of api/routes/webhooks.py as a step relation: any number of requests,
 one program counter each, over shared cache, locks, table and queue. Every await is one
 step. What happens at a step besides the program text is part of the action: whether the
 await raises, whether its effect was applied all the same, which id the database session
 generated, what the clock said.

 The environment is adversarial: cache and lock entries may vanish, and requests may die,
 at any time.
 */
module Ingest {
  import opened Prelude
  import opened Schemas
  import opened Security
  import opened Events

  type ReqId = nat

  datatype Request = Request(source: Source, key: Option<Key>, body: Bytes, signature: string, timestamp: string)

  /** An absent header and an empty one are refused alike. */
  function KeyOf(req: Request): Key {
    if req.key.Some? then req.key.value else ""
  }

  datatype Reply = Accepted(response: Response) | Rejected(status: int)

  /** The 202 for an event id. */
  function Encode(id: EventId): Response {
    Response(202, ApplicationJson, WebhookQueued(id))
  }

  datatype Parse = Parsed(payload: Payload) | Malformed | ParseCrash

  /** The settings and the library functions the route depends on. An unset secret is "". */
  datatype Config = Config(secret: string, mac: Mac, parse: (Source, Bytes) -> Parse)

  /** Where a request is: the await it is about to perform. */
  datatype Pc =
    | Arrived
    | Locking
    | Rechecking
    | Reading
    | Inserting(payload: Payload)
    | Refreshing(id: EventId, payload: Payload)
    | Enqueueing(id: EventId, payload: Payload)
    | Caching(id: EventId)
    | Unlocking(reply: Reply)
    | Replied(reply: Reply)
    | Dead

  /** The clock when the signature was accepted, and what the body parsed to. */
  datatype Verified = Verified(at: real, payload: Payload)

  datatype Data = Data(
    cache: map<Key, Response>,
    table: Table,
    queue: map<EventId, Job>,         // every job ever queued, by job id
    requests: map<ReqId, Request>,
    creator: map<EventId, ReqId>,     // history: which request committed the row
    verified: map<ReqId, Verified>)   // history: which requests passed the checks, when

  datatype State = State(
    data: Data,
    locks: map<Key, ReqId>,           // the owner is not stored in Redis; it is history
    pcs: map<ReqId, Pc>)

  const INITIAL := State(Data(map[], map[], map[], map[], map[], map[]), map[], map[])

  datatype Action =
    | Arrive(r: ReqId, req: Request)
    | CacheGet(r: ReqId, ok: bool)
    | TryLock(r: ReqId, o: Outcome)
    | Read(r: ReqId, ok: bool, now: real)
    | Insert(r: ReqId, id: EventId, o: Outcome)
    | Refresh(r: ReqId, ok: bool)
    | EnqueueJob(r: ReqId, o: Outcome)
    | StoreReply(r: ReqId, o: Outcome)
    | Unlock(r: ReqId, o: Outcome)
    | Die(r: ReqId)
    | Forget(key: Key)                // a cache entry vanishes
    | DropLock(key: Key)              // a lock entry vanishes
    | Touch(id: EventId, row: Row)    // the worker updates a row

  // ---------- the parts of a step ----------

  /** The request a protocol step belongs to. */
  function Mover(a: Action): Option<ReqId> {
    match a
    case Forget(_) => None
    case DropLock(_) => None
    case Touch(_, _) => None
    case Arrive(r, _) => Some(r)
    case CacheGet(r, _) => Some(r)
    case TryLock(r, _) => Some(r)
    case Read(r, _, _) => Some(r)
    case Insert(r, _, _) => Some(r)
    case Refresh(r, _) => Some(r)
    case EnqueueJob(r, _) => Some(r)
    case StoreReply(r, _) => Some(r)
    case Unlock(r, _) => Some(r)
    case Die(r) => Some(r)
  }

  function Goto(s: State, r: ReqId, pc: Pc): State {
    s.(pcs := s.pcs[r := pc])
  }

  /** Inside `try`, so that leaving it for any reason runs the `finally`. */
  predicate InTry(pc: Pc) {
    pc.Rechecking? || pc.Reading? || pc.Inserting? || pc.Refreshing? || pc.Enqueueing? || pc.Caching?
  }

  predicate Live(pc: Pc) {
    !pc.Replied? && !pc.Dead?
  }

  /** Leaves the handler with a reply, through the `finally` when inside `try`. */
  function Leave(s: State, r: ReqId, reply: Reply): State
    requires r in s.pcs
  {
    Goto(s, r, if InTry(s.pcs[r]) then Unlocking(reply) else Replied(reply))
  }

  /** enqueue_job with a job id that is taken does nothing. */
  function Push(q: map<EventId, Job>, job: Job): map<EventId, Job> {
    if job.id in q then q else q[job.id := job]
  }

  /** Secret, signature, payload: what is checked once the body has been read. */
  function Examine(c: Config, req: Request, now: real): Result<Payload, int> {
    if c.secret == "" then Failure(500)
    else
      match VerifyHmac(c.mac, c.secret, req.body, req.signature, req.timestamp, now)
      case SignatureInvalid => Failure(401)
      case TimestampExpired => Failure(401)
      case Uncaught => Failure(500)
      case Genuine =>
        match c.parse(req.source, req.body)
        case Malformed => Failure(422)
        case ParseCrash => Failure(500)
        case Parsed(payload) => Success(payload)
  }

  /** The timestamp of a request is within the window around a reading of the clock. */
  predicate InWindow(req: Request, at: real) {
    && ParseInt(req.timestamp).Some?
    && var sentAt := ParseInt(req.timestamp).value as real; sentAt - 300.0 <= at <= sentAt + 300.0
  }

  predicate HasAsciiHeaders(req: Request) { IsAscii(req.timestamp) && IsAscii(req.signature) }

  /** The signature is the MAC, under the secret, of timestamp, full stop and body. */
  predicate IsSigned(c: Config, req: Request)
    requires HasAsciiHeaders(req)
  {
    req.signature == c.mac(c.secret, Ascii(req.timestamp) + [46] + req.body)
  }

  /** What it takes to get past the signature check at a reading of the clock. */
  predicate Authentic(c: Config, req: Request, at: real) {
    c.secret != "" && InWindow(req, at) && HasAsciiHeaders(req) && IsSigned(c, req)
  }

  /** Authentic at that time, with a body that parses. */
  predicate Passes(c: Config, req: Request, at: real) {
    Authentic(c, req, at) && c.parse(req.source, req.body).Parsed?
  }

  /** The answer of the checks to each kind of request: an authentic one goes by its body, a
      wrong signature and a timestamp outside the window are refused with 401. */
  predicate Judged(c: Config, req: Request, at: real, r: Result<Payload, int>) {
    var parsed := c.parse(req.source, req.body);
    if c.secret == "" then r == Failure(500)
    else if !InWindow(req, at) then r == Failure(401)
    else if !HasAsciiHeaders(req) then r == Failure(500)
    else if !IsSigned(c, req) then r == Failure(401)
    else if parsed.Malformed? then r == Failure(422)
    else if parsed.ParseCrash? then r == Failure(500)
    else r == Success(parsed.payload)
  }

  /** The checks answer so, and they let through authentic requests only. */
  lemma ExaminedExactly(c: Config, req: Request, at: real)
    ensures forall r :: Judged(c, req, at, r) <==> r == Examine(c, req, at)
    ensures forall payload :: Examine(c, req, at) == Success(payload) <==>
      Authentic(c, req, at) && c.parse(req.source, req.body) == Parsed(payload)
  {
  }

  // ---------- what each await does ----------

  predicate AtPc(s: State, r: ReqId) { r in s.pcs && r in s.data.requests }

  function ArriveStep(s: State, r: ReqId, req: Request): State {
    s.(data := s.data.(requests := s.data.requests[r := req]),
       pcs := s.pcs[r := if KeyOf(req) == "" then Replied(Rejected(400)) else Arrived])
  }

  function CacheGetStep(s: State, r: ReqId, ok: bool): (s': State)
    requires AtPc(s, r)
    ensures s'.data == s.data
    ensures r in s'.pcs && s'.pcs == s.pcs[r := s'.pcs[r]]
  {
    var k := KeyOf(s.data.requests[r]);
    if !ok then Leave(s, r, Rejected(500))
    else if k in s.data.cache then Leave(s, r, Accepted(s.data.cache[k]))
    else Goto(s, r, if s.pcs[r].Arrived? then Locking else Reading)
  }

  function TryLockStep(s: State, r: ReqId, o: Outcome): (s': State)
    requires AtPc(s, r)
    ensures s'.data == s.data
    ensures r in s'.pcs && s'.pcs == s.pcs[r := s'.pcs[r]]
  {
    var k := KeyOf(s.data.requests[r]);
    var free := k !in s.locks;
    var t := if free && Applied(o) then s.(locks := s.locks[k := r]) else s;
    if o.Failed? then Leave(t, r, Rejected(500))
    else if free then Goto(t, r, Rechecking)
    else Leave(t, r, Rejected(409))
  }

  function ReadStep(c: Config, s: State, r: ReqId, ok: bool, now: real): (s': State)
    requires AtPc(s, r)
    ensures r in s'.pcs && s'.pcs == s.pcs[r := s'.pcs[r]]
    ensures s'.data == s.data.(verified := s'.data.verified)
  {
    if !ok then Leave(s, r, Rejected(500))
    else
      match Examine(c, s.data.requests[r], now)
      case Failure(status) => Leave(s, r, Rejected(status))
      case Success(payload) =>
        Goto(s, r, Inserting(payload)).(
          data := s.data.(verified := s.data.verified[r := Verified(now, payload)]))
  }

  function Commit(d: Data, r: ReqId, id: EventId, payload: Payload): Data
    requires r in d.requests
  {
    d.(table := d.table[id := NewRow(d.requests[r].source, KeyOf(d.requests[r]), payload)],
       creator := d.creator[id := r])
  }

  function InsertStep(s: State, r: ReqId, id: EventId, o: Outcome): (s': State)
    requires AtPc(s, r) && s.pcs[r].Inserting?
    ensures r in s'.pcs && s'.pcs == s.pcs[r := s'.pcs[r]]
    ensures
      || s'.data == s.data
      || (!Refused(s.data.table, id, KeyOf(s.data.requests[r])) && s'.data == Commit(s.data, r, id, s.pcs[r].payload))
  {
    if Refused(s.data.table, id, KeyOf(s.data.requests[r])) then
      Leave(s, r, Rejected(if o.Done? then 409 else 500))
    else
      var payload := s.pcs[r].payload;
      var t := if Applied(o) then s.(data := Commit(s.data, r, id, payload)) else s;
      if o.Failed? then Leave(t, r, Rejected(500)) else Goto(t, r, Refreshing(id, payload))
  }

  function RefreshStep(s: State, r: ReqId, ok: bool): (s': State)
    requires AtPc(s, r) && s.pcs[r].Refreshing?
    ensures s'.data == s.data
    ensures r in s'.pcs && s'.pcs == s.pcs[r := s'.pcs[r]]
  {
    if !ok then Leave(s, r, Rejected(500)) else Goto(s, r, Enqueueing(s.pcs[r].id, s.pcs[r].payload))
  }

  /** The job as the route builds it from what it has at hand. */
  function JobFor(req: Request, id: EventId, payload: Payload): Job {
    Job(id, req.source, payload, KeyOf(req))
  }

  function EnqueueStep(s: State, r: ReqId, o: Outcome): (s': State)
    requires AtPc(s, r) && s.pcs[r].Enqueueing?
    ensures r in s'.pcs && s'.pcs == s.pcs[r := s'.pcs[r]]
    ensures s'.data == s.data.(queue := s'.data.queue)
  {
    var id, payload := s.pcs[r].id, s.pcs[r].payload;
    var t := if Applied(o)
              then s.(data := s.data.(queue := Push(s.data.queue, JobFor(s.data.requests[r], id, payload))))
              else s;
    if o.Failed? then Leave(t, r, Rejected(500)) else Goto(t, r, Caching(id))
  }

  function StoreStep(s: State, r: ReqId, o: Outcome): (s': State)
    requires AtPc(s, r) && s.pcs[r].Caching?
    ensures r in s'.pcs && s'.pcs == s.pcs[r := s'.pcs[r]]
    ensures s'.data == s.data.(cache := s'.data.cache)
  {
    var response := Encode(s.pcs[r].id);
    var t := if Applied(o)
              then s.(data := s.data.(cache := s.data.cache[KeyOf(s.data.requests[r]) := response]))
              else s;
    Leave(t, r, if o.Failed? then Rejected(500) else Accepted(response))
  }

  function UnlockStep(s: State, r: ReqId, o: Outcome): (s': State)
    requires AtPc(s, r) && s.pcs[r].Unlocking?
    ensures s'.data == s.data
    ensures r in s'.pcs && s'.pcs == s.pcs[r := s'.pcs[r]]
  {
    var t := if Applied(o) then s.(locks := s.locks - {KeyOf(s.data.requests[r])}) else s;
    Goto(t, r, Replied(if o.Failed? then Rejected(500) else s.pcs[r].reply))
  }

  // ---------- the step relation ----------

  predicate Enabled(s: State, a: Action) {
    match a
    case Arrive(r, _) => r !in s.pcs
    case CacheGet(r, _) => AtPc(s, r) && (s.pcs[r].Arrived? || s.pcs[r].Rechecking?)
    case TryLock(r, _) => AtPc(s, r) && s.pcs[r].Locking?
    case Read(r, _, _) => AtPc(s, r) && s.pcs[r].Reading?
    case Insert(r, _, _) => AtPc(s, r) && s.pcs[r].Inserting?
    case Refresh(r, _) => AtPc(s, r) && s.pcs[r].Refreshing?
    case EnqueueJob(r, _) => AtPc(s, r) && s.pcs[r].Enqueueing?
    case StoreReply(r, _) => AtPc(s, r) && s.pcs[r].Caching?
    case Unlock(r, _) => AtPc(s, r) && s.pcs[r].Unlocking?
    case Die(r) => AtPc(s, r) && Live(s.pcs[r])
    case Forget(_) => true
    case DropLock(_) => true
    case Touch(id, row) => id in s.data.table && SameIdentity(s.data.table[id], row)
  }

  function Next(c: Config, s: State, a: Action): State
    requires Enabled(s, a)
  {
    match a
    case Arrive(r, req) => ArriveStep(s, r, req)
    case CacheGet(r, ok) => CacheGetStep(s, r, ok)
    case TryLock(r, o) => TryLockStep(s, r, o)
    case Read(r, ok, now) => ReadStep(c, s, r, ok, now)
    case Insert(r, id, o) => InsertStep(s, r, id, o)
    case Refresh(r, ok) => RefreshStep(s, r, ok)
    case EnqueueJob(r, o) => EnqueueStep(s, r, o)
    case StoreReply(r, o) => StoreStep(s, r, o)
    case Unlock(r, o) => UnlockStep(s, r, o)
    case Die(r) => Goto(s, r, Dead)
    case Forget(key) => s.(data := s.data.(cache := s.data.cache - {key}))
    case DropLock(key) => s.(locks := s.locks - {key})
    case Touch(id, row) => s.(data := s.data.(table := s.data.table[id := row]))
  }

  // ---------- runs ----------

  predicate Legal(c: Config, s: State, actions: seq<Action>)
    decreases |actions|
  {
    actions == [] || (Enabled(s, actions[0]) && Legal(c, Next(c, s, actions[0]), actions[1..]))
  }

  function Run(c: Config, s: State, actions: seq<Action>): State
    requires Legal(c, s, actions)
    decreases |actions|
  {
    if actions == [] then s else Run(c, Next(c, s, actions[0]), actions[1..])
  }

  ghost predicate Reachable(c: Config, s: State) {
    exists actions :: Legal(c, INITIAL, actions) && Run(c, INITIAL, actions) == s
  }

  lemma {:induction false} RunAppend(c: Config, s: State, first: seq<Action>, second: seq<Action>)
    requires Legal(c, s, first) && Legal(c, Run(c, s, first), second)
    ensures Legal(c, s, first + second)
    ensures Run(c, s, first + second) == Run(c, Run(c, s, first), second)
    decreases |first|
  {
    if first == [] {
      assert first + second == second;
    } else {
      assert (first + second)[1..] == first[1..] + second;
      RunAppend(c, Next(c, s, first[0]), first[1..], second);
    }
  }

  ghost predicate CanReach(c: Config, s: State, t: State) {
    exists actions :: Legal(c, s, actions) && Run(c, s, actions) == t
  }

  lemma StepThenReach(c: Config, s: State, a: Action, t: State)
    requires Enabled(s, a) && CanReach(c, Next(c, s, a), t)
    ensures CanReach(c, s, t)
  {
    var rest :| Legal(c, Next(c, s, a), rest) && Run(c, Next(c, s, a), rest) == t;
    assert ([a] + rest)[1..] == rest;
    assert Legal(c, s, [a] + rest) && Run(c, s, [a] + rest) == t;
  }

  lemma ReachNow(c: Config, s: State)
    ensures CanReach(c, s, s)
  {
    assert Legal(c, s, []) && Run(c, s, []) == s;
  }

  lemma ReachTransitive(c: Config, s: State, t: State, u: State)
    requires CanReach(c, s, t) && CanReach(c, t, u)
    ensures CanReach(c, s, u)
  {
    var first :| Legal(c, s, first) && Run(c, s, first) == t;
    var second :| Legal(c, t, second) && Run(c, t, second) == u;
    RunAppend(c, s, first, second);
  }
}
