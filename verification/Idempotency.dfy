/**
 The response cache and the per-key lock (core/idempotency.py) over one Redis keyspace.

 Redis is modelled by its contract: SET with EX and NX, GET, DEL, entries that live exactly
 until they expire, and an error for an expiry that is not positive. The caller of a command
 may see an exception whether or not the command took effect.
 */
module Idempotency {
  import opened Prelude
  import opened Schemas

  /** What the store writes: a response as JSON, or the lock marker. */
  datatype Stored = Json(response: Response) | One

  datatype Entry = Entry(value: Stored, expiresAt: int)

  type Keyspace = map<string, Entry>

  function Lookup(entries: Keyspace, now: int, name: string): Option<Stored> {
    if name in entries && now < entries[name].expiresAt then Some(entries[name].value) else None
  }

  class Redis {
    var entries: Keyspace
    var now: int

    constructor ()
      ensures entries == map[]
    {
      entries, now := map[], 0;
    }

    /** Entries run out by themselves. */
    method Elapse(seconds: nat)
      modifies this`now
      ensures now == old(now) + seconds
    {
      now := now + seconds;
    }

    method Get(name: string) returns (value: Option<Stored>)
      ensures value == Lookup(entries, now, name)
    {
      value := if name in entries && now < entries[name].expiresAt then Some(entries[name].value) else None;
    }

    /** Success(false) is the nil reply of SET NX for a name that is taken. */
    method Set(name: string, value: Stored, ex: int, nx: bool, o: Outcome) returns (r: Result<bool, ()>)
      modifies this`entries
      ensures r == (if ex <= 0 || o.Failed? then Failure(())
                    else Success(!nx || old(Lookup(entries, now, name)).None?))
      ensures entries == (if ex > 0 && Applied(o) && (!nx || old(Lookup(entries, now, name)).None?)
                          then old(entries)[name := Entry(value, now + ex)] else old(entries))
    {
      if ex <= 0 {
        return Failure(());
      }
      var current := Get(name);
      var written := !nx || current.None?;
      if written && Applied(o) {
        entries := entries[name := Entry(value, now + ex)];
      }
      r := if o.Failed? then Failure(()) else Success(written);
    }

    method Delete(name: string, o: Outcome) returns (raised: bool)
      modifies this`entries
      ensures raised == o.Failed?
      ensures entries == if Applied(o) then old(entries) - {name} else old(entries)
    {
      if Applied(o) {
        entries := entries - {name};
      }
      raised := o.Failed?;
    }
  }

  // ---------- two namespaces in one keyspace ----------

  function ResponseKey(key: Key): string { "idem:resp:" + key }

  function LockKey(key: Key): string { "idem:lock:" + key }

  lemma NamespacesAreDisjoint(a: Key, b: Key)
    ensures ResponseKey(a) == "idem:resp:" + a && LockKey(a) == "idem:lock:" + a
    ensures ResponseKey(a) != LockKey(b)
    ensures ResponseKey(a) == ResponseKey(b) ==> a == b
    ensures LockKey(a) == LockKey(b) ==> a == b
  {
    assert ResponseKey(a)[5] == 'r' && LockKey(b)[5] == 'l';
    assert ResponseKey(a)[10..] == a && ResponseKey(b)[10..] == b;
    assert LockKey(a)[10..] == a && LockKey(b)[10..] == b;
  }

  /** What `get` would answer for a key at a time. */
  function CachedAt(entries: Keyspace, t: int, key: Key): Option<Response> {
    match Lookup(entries, t, ResponseKey(key))
    case Some(Json(response)) => Some(response)
    case _ => None
  }

  /** Whether the lock of a key is held at a time. */
  predicate LockedAt(entries: Keyspace, t: int, key: Key) {
    Lookup(entries, t, LockKey(key)).Some?
  }

  /** Only responses are stored under response names, so that `get` can always decode. */
  ghost predicate Decodable(entries: Keyspace) {
    forall key :: ResponseKey(key) in entries ==> entries[ResponseKey(key)].value.Json?
  }

  // ---------- what each operation means for cache and locks, now and later ----------

  /** The key's response is `response` until `ends`; no other key and no lock is affected. */
  ghost predicate Caches(before: Keyspace, after: Keyspace, key: Key, response: Response, ends: int) {
    && (forall k, t :: CachedAt(after, t, k) ==
          if k != key then CachedAt(before, t, k) else if t < ends then Some(response) else None)
    && (forall k, t :: LockedAt(after, t, k) <==> LockedAt(before, t, k))
  }

  /** The key's lock is held until `ends`; no other lock and no response is affected. */
  ghost predicate Locks(before: Keyspace, after: Keyspace, key: Key, ends: int) {
    && (forall k, t :: LockedAt(after, t, k) <==> if k != key then LockedAt(before, t, k) else t < ends)
    && (forall k, t :: CachedAt(after, t, k) == CachedAt(before, t, k))
  }

  /** The key's lock is free, whoever held it; no other lock and no response is affected. */
  ghost predicate Frees(before: Keyspace, after: Keyspace, key: Key) {
    && (forall k, t :: LockedAt(after, t, k) <==> k != key && LockedAt(before, t, k))
    && (forall k, t :: CachedAt(after, t, k) == CachedAt(before, t, k))
  }

  lemma WritingAResponseCaches(before: Keyspace, key: Key, response: Response, ends: int)
    requires Decodable(before)
    ensures var after := before[ResponseKey(key) := Entry(Json(response), ends)];
      Decodable(after) && Caches(before, after, key, response, ends)
  {
    forall k ensures ResponseKey(k) == ResponseKey(key) ==> k == key {
      NamespacesAreDisjoint(k, key);
    }
    forall k ensures ResponseKey(key) != LockKey(k) {
      NamespacesAreDisjoint(key, k);
    }
  }

  lemma WritingALockLocks(before: Keyspace, key: Key, ends: int)
    requires Decodable(before)
    ensures var after := before[LockKey(key) := Entry(One, ends)];
      Decodable(after) && Locks(before, after, key, ends)
  {
    forall k ensures LockKey(k) == LockKey(key) ==> k == key {
      NamespacesAreDisjoint(k, key);
    }
    forall k ensures ResponseKey(k) != LockKey(key) {
      NamespacesAreDisjoint(k, key);
    }
  }

  lemma DeletingALockFrees(before: Keyspace, key: Key)
    requires Decodable(before)
    ensures var after := before - {LockKey(key)};
      Decodable(after) && Frees(before, after, key)
  {
    forall k ensures LockKey(k) == LockKey(key) ==> k == key {
      NamespacesAreDisjoint(k, key);
    }
    forall k ensures ResponseKey(k) != LockKey(key) {
      NamespacesAreDisjoint(k, key);
    }
  }

  lemma NamesAreInjective()
    ensures forall a, b :: ResponseKey(a) == ResponseKey(b) ==> a == b
    ensures forall a, b :: LockKey(a) == LockKey(b) ==> a == b
    ensures forall a, b :: ResponseKey(a) != LockKey(b)
  {
    forall a, b ensures ResponseKey(a) == ResponseKey(b) ==> a == b {
      NamespacesAreDisjoint(a, b);
    }
    forall a, b ensures LockKey(a) == LockKey(b) ==> a == b {
      NamespacesAreDisjoint(a, b);
    }
    forall a, b ensures ResponseKey(a) != LockKey(b) {
      NamespacesAreDisjoint(a, b);
    }
  }

  function ResponsesOf(cache: map<Key, Response>, ends: int): (entries: Keyspace)
    ensures forall k :: ResponseKey(k) in entries <==> k in cache
    ensures forall k :: k in cache ==> entries[ResponseKey(k)] == Entry(Json(cache[k]), ends)
    ensures forall k :: LockKey(k) !in entries
  {
    NamesAreInjective();
    map k | k in cache :: ResponseKey(k) := Entry(Json(cache[k]), ends)
  }

  function LocksOf(locks: set<Key>, ends: int): (entries: Keyspace)
    ensures forall k :: LockKey(k) in entries <==> k in locks
    ensures forall k :: k in locks ==> entries[LockKey(k)] == Entry(One, ends)
    ensures forall k :: ResponseKey(k) !in entries
  {
    NamesAreInjective();
    map k | k in locks :: LockKey(k) := Entry(One, ends)
  }

  /** The keyspace answers as the two collections do, as of now. */
  ghost predicate Answers(entries: Keyspace, now: int, cache: map<Key, Response>, locks: set<Key>) {
    && (forall k :: CachedAt(entries, now, k) == if k in cache then Some(cache[k]) else None)
    && (forall k :: LockedAt(entries, now, k) <==> k in locks)
  }

  lemma AnswersAfterCaching(
      before: Keyspace, after: Keyspace, now: int, cache: map<Key, Response>, locks: set<Key>,
      key: Key, response: Response, ends: int)
    requires Answers(before, now, cache, locks) && Caches(before, after, key, response, ends) && now < ends
    ensures Answers(after, now, cache[key := response], locks)
  {
  }

  lemma AnswersAfterLocking(
      before: Keyspace, after: Keyspace, now: int, cache: map<Key, Response>, locks: set<Key>, key: Key, ends: int)
    requires Answers(before, now, cache, locks) && Locks(before, after, key, ends) && now < ends
    ensures Answers(after, now, cache, locks + {key})
  {
  }

  lemma AnswersAfterFreeing(
      before: Keyspace, after: Keyspace, now: int, cache: map<Key, Response>, locks: set<Key>, key: Key)
    requires Answers(before, now, cache, locks) && Frees(before, after, key)
    ensures Answers(after, now, cache, locks - {key})
  {
  }

  /** A keyspace that answers so for one second. */
  function KeyspaceOf(cache: map<Key, Response>, locks: set<Key>, now: int): (entries: Keyspace)
    ensures Decodable(entries) && Answers(entries, now, cache, locks)
  {
    ResponsesOf(cache, now + 1) + LocksOf(locks, now + 1)
  }

  // ---------- the store ----------

  const DEFAULT_TTL_SECONDS := 86_400
  const DEFAULT_LOCK_TTL_SECONDS := 60

  function Ttl(explicit: Option<int>, byDefault: int): int {
    if explicit.Some? then explicit.value else byDefault
  }

  class IdempotencyStore {
    const redis: Redis
    const defaultTtl: int
    const defaultLockTtl: int

    constructor (redis: Redis, defaultTtl: int := DEFAULT_TTL_SECONDS, defaultLockTtl: int := DEFAULT_LOCK_TTL_SECONDS)
      ensures this.redis == redis && this.defaultTtl == defaultTtl && this.defaultLockTtl == defaultLockTtl
    {
      this.redis, this.defaultTtl, this.defaultLockTtl := redis, defaultTtl, defaultLockTtl;
    }

    ghost predicate Valid()
      reads redis
    {
      Decodable(redis.entries)
    }

    /** Never fails to decode what it finds. */
    method Get(key: Key) returns (cached: Option<Response>)
      requires Valid()
      ensures cached == CachedAt(redis.entries, redis.now, key)
    {
      var raw := redis.Get(ResponseKey(key));
      match raw {
        case None => cached := None;
        case Some(value) => cached := Some(value.response);
      }
    }

    method Set(key: Key, response: Response, ttlSeconds: Option<int>, o: Outcome) returns (raised: bool)
      requires Valid()
      modifies redis`entries
      ensures Valid()
      ensures var ttl := if ttlSeconds.Some? then ttlSeconds.value else defaultTtl;
        && raised == (ttl <= 0 || o.Failed?)
        && if ttl > 0 && Applied(o) then Caches(old(redis.entries), redis.entries, key, response, redis.now + ttl)
           else redis.entries == old(redis.entries)
    {
      var ttl := Ttl(ttlSeconds, defaultTtl);
      WritingAResponseCaches(redis.entries, key, response, redis.now + ttl);
      var r := redis.Set(ResponseKey(key), Json(response), ttl, false, o);
      raised := r.Failure?;
    }

    /** Success(true) exactly if the lock was free. */
    method Lock(key: Key, ttlSeconds: Option<int>, o: Outcome) returns (r: Result<bool, ()>)
      requires Valid()
      modifies redis`entries
      ensures Valid()
      ensures var ttl := if ttlSeconds.Some? then ttlSeconds.value else defaultLockTtl;
        var held := LockedAt(old(redis.entries), redis.now, key);
        && r == (if ttl <= 0 || o.Failed? then Failure(()) else Success(!held))
        && if ttl > 0 && Applied(o) && !held then Locks(old(redis.entries), redis.entries, key, redis.now + ttl)
           else redis.entries == old(redis.entries)
    {
      var ttl := Ttl(ttlSeconds, defaultLockTtl);
      WritingALockLocks(redis.entries, key, redis.now + ttl);
      r := redis.Set(LockKey(key), One, ttl, true, o);
    }

    /** Safe to call if the lock is not held, and takes it from whoever holds it. */
    method Unlock(key: Key, o: Outcome) returns (raised: bool)
      requires Valid()
      modifies redis`entries
      ensures Valid()
      ensures raised == o.Failed?
      ensures if Applied(o) then Frees(old(redis.entries), redis.entries, key) else redis.entries == old(redis.entries)
    {
      DeletingALockFrees(redis.entries, key);
      raised := redis.Delete(LockKey(key), o);
    }
  }
}
