/**
 * The TTL cache.  The class keeps the source's map and evicts an expired entry only when a Get
 * meets it; the second half proves that, under a clock that never goes back, it behaves as a map
 * of time-stamped values in which eviction does not exist.
 */
module TtlCache {
  import opened Basics

  datatype Entry<+T> = Entry(value: T, expireAt: int)
  type Entries<+T> = map<string, Entry<T>>

  /** What Get answers: an entry is good up to and including its expiry instant. */
  function Lookup<T>(m: Entries<T>, key: string, now: int): Option<T> {
    if key in m && now <= m[key].expireAt then Some(m[key].value) else None
  }

  /** What Get leaves behind. */
  function Evicted<T>(m: Entries<T>, key: string, now: int): Entries<T> {
    if key in m && now > m[key].expireAt then m - {key} else m
  }

  function WithoutPrefix<T>(m: Entries<T>, prefix: string): Entries<T> {
    map k | k in m && !(prefix <= k) :: m[k]
  }

  class LocalCache<T> {
    var entries: Entries<T>

    constructor ()
      ensures entries == map[]
    {
      entries := map[];
    }

    method Put(key: string, value: T, ttl: int, now: int)
      modifies this
      ensures entries == old(entries)[key := Entry(value, now + ttl)]
    {
      entries := entries[key := Entry(value, now + ttl)];
    }

    method Get(key: string, now: int) returns (r: Option<T>)
      modifies this
      ensures r == Lookup(old(entries), key, now) && entries == Evicted(old(entries), key, now)
    {
      if key !in entries { return None; }
      if now > entries[key].expireAt {
        entries := entries - {key};
        return None;
      }
      r := Some(entries[key].value);
    }

    method Invalidate(key: string)
      modifies this
      ensures entries == old(entries) - {key}
    {
      entries := entries - {key};
    }

    /** The iterator loop: each key is visited once and erased when it starts with the prefix. */
    method InvalidatePrefix(prefix: string)
      modifies this
      ensures entries == WithoutPrefix(old(entries), prefix)
    {
      var ahead := entries.Keys;
      while ahead != {}
        invariant ahead <= entries.Keys
        invariant forall k :: k in old(entries) && k !in ahead ==> (k in entries <==> !(prefix <= k))
        invariant forall k :: k in entries ==> k in old(entries) && entries[k] == old(entries)[k]
        decreases ahead
      {
        var it :| it in ahead;
        ahead := ahead - {it};
        if |prefix| <= |it| && it[..|prefix|] == prefix {
          entries := entries - {it};
        }
      }
    }

    method Clear()
      modifies this
      ensures entries == map[]
    {
      entries := map[];
    }
  }

  // ---- refinement of a time-stamped map -----------------------------------------------------------

  datatype Op<+T> =
    | Put(key: string, value: T, ttl: int)
    | Get(key: string)
    | Invalidate(key: string)
    | InvalidatePrefix(prefix: string)
    | Clear

  /** An operation and the clock it reads. */
  datatype Call<+T> = Call(op: Op<T>, at: int)

  function Apply<T>(m: Entries<T>, c: Call<T>): Entries<T> {
    match c.op
    case Put(key, value, ttl) => m[key := Entry(value, c.at + ttl)]
    case Get(key) => Evicted(m, key, c.at)
    case Invalidate(key) => m - {key}
    case InvalidatePrefix(prefix) => WithoutPrefix(m, prefix)
    case Clear => map[]
  }

  /** The contents after a history of calls, oldest first. */
  function After<T>(calls: seq<Call<T>>): Entries<T> {
    if calls == [] then map[] else Apply(After(calls[..|calls| - 1]), calls[|calls| - 1])
  }

  predicate Removes<T>(op: Op<T>, key: string) {
    (op.Invalidate? && op.key == key) || (op.InvalidatePrefix? && op.prefix <= key) || op.Clear?
  }

  /** The abstract map: the last Put of the key that nothing has invalidated since.  Gets do not appear. */
  function LastPut<T>(calls: seq<Call<T>>, key: string): Option<Entry<T>> {
    if calls == [] then None
    else
      var last := calls[|calls| - 1];
      if last.op.Put? && last.op.key == key then Some(Entry(last.op.value, last.at + last.op.ttl))
      else if Removes(last.op, key) then None
      else LastPut(calls[..|calls| - 1], key)
  }

  ghost predicate Ordered<T>(calls: seq<Call<T>>) {
    forall i, j :: 0 <= i < j < |calls| ==> calls[i].at <= calls[j].at
  }

  /** The real map holds the abstract entry, except that an entry some Get found expired may be gone. */
  lemma {:induction false} HoldsLastPut<T>(calls: seq<Call<T>>, key: string, now: int)
    requires Ordered(calls) && (calls != [] ==> calls[|calls| - 1].at <= now)
    ensures var m := After(calls);
      if key in m then LastPut(calls, key) == Some(m[key])
      else LastPut(calls, key).None? || LastPut(calls, key).value.expireAt < now
  {
    if calls != [] {
      var n := |calls| - 1;
      var rest := calls[..n];
      HoldsLastPut(rest, key, calls[n].at);
    }
  }

  /** What Get answers in the abstract map. */
  function TimedLookup<T>(calls: seq<Call<T>>, key: string, now: int): Option<T> {
    match LastPut(calls, key)
    case None => None
    case Some(e) => if now <= e.expireAt then Some(e.value) else None
  }

  /** Get returns the last Put value exactly when it is not invalidated and not past its expiry. */
  lemma GetRefinesTimedMap<T>(calls: seq<Call<T>>, key: string, now: int)
    requires Ordered(calls) && (calls != [] ==> calls[|calls| - 1].at <= now)
    ensures Lookup(After(calls), key, now) == TimedLookup(calls, key, now)
  {
    HoldsLastPut(calls, key, now);
  }

  /** Some Get since the last Put read a clock past the expiry, and evicted the entry. */
  predicate SeenExpired<T>(calls: seq<Call<T>>, key: string) {
    calls != [] &&
    var last, rest := calls[|calls| - 1], calls[..|calls| - 1];
    !(last.op.Put? && last.op.key == key) && !Removes(last.op, key) &&
    (SeenExpired(rest, key) ||
     (last.op == Op.Get(key) && LastPut(rest, key).Some? && last.at > LastPut(rest, key).value.expireAt))
  }

  lemma {:induction false} GoneIffSeenExpired<T>(calls: seq<Call<T>>, key: string)
    ensures key in After(calls) <==> LastPut(calls, key).Some? && !SeenExpired(calls, key)
    ensures key in After(calls) ==> LastPut(calls, key) == Some(After(calls)[key])
  {
    if calls != [] {
      GoneIffSeenExpired(calls[..|calls| - 1], key);
    }
  }

  /**
   * Whatever the clock does, eviction can be observed exactly when an entry is still good that some Get
   * has already seen expired; a clock that does not go back never gets there.
   */
  lemma EvictionShowsIff<T>(calls: seq<Call<T>>, key: string, now: int)
    ensures Lookup(After(calls), key, now) == TimedLookup(calls, key, now)
       <==> !(SeenExpired(calls, key) && TimedLookup(calls, key, now).Some?)
  {
    GoneIffSeenExpired(calls, key);
  }
}
