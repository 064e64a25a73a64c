/** The process-local cache of read projections. */
module TtlCache {
  import opened Basics

  datatype Entry<V> = Entry(value: V, expiresAt: int)

  predicate Alive<V>(e: Entry<V>, now: int) { e.expiresAt > now }

  function Live<V>(entries: map<nat, Entry<V>>, now: int): map<nat, Entry<V>> {
    map k | k in entries && Alive(entries[k], now) :: entries[k]
  }

  /** One namespace, keyed by database engine. The clock reading of each call is an argument. */
  class TTLCache<V> {
    const ttl: int
    var entries: map<nat, Entry<V>>

    constructor (ttl: int)
      requires ttl > 0
      ensures this.ttl == ttl && entries == map[]
    {
      this.ttl, entries := ttl, map[];
    }

    /** A live value or nothing; an expired entry is dropped on the way. */
    method Lookup(key: nat, now: int) returns (found: Option<V>)
      modifies this
      ensures found == if key in old(entries) && Alive(old(entries)[key], now) then Some(old(entries)[key].value) else None
      ensures entries == if found.Some? then old(entries) else old(entries) - {key}
    {
      if key !in entries { return None; }
      if entries[key].expiresAt <= now {
        entries := entries - {key};
        return None;
      }
      found := Some(entries[key].value);
    }

    /** A stored value is served for exactly `ttl` from now. */
    method Store(key: nat, value: V, now: int)
      modifies this
      ensures entries == old(entries)[key := Entry(value, now + ttl)]
      ensures forall later :: Alive(entries[key], later) <==> later - now < ttl
    {
      entries := entries[key := Entry(value, now + ttl)];
    }

    method Delete(key: nat) returns (existed: bool)
      modifies this
      ensures existed == (key in old(entries)) && entries == old(entries) - {key}
    {
      existed := key in entries;
      entries := entries - {key};
    }

    method Clear()
      modifies this
      ensures entries == map[]
    {
      entries := map[];
    }

    /** Counts the live entries and drops the others. */
    method Size(now: int) returns (n: nat)
      modifies this
      ensures entries == Live(old(entries), now) && n == |entries|
    {
      var expired := set k | k in entries && entries[k].expiresAt <= now;
      ghost var before := entries;
      while expired != {}
        invariant forall k :: k in expired ==> k in before && !Alive(before[k], now)
        invariant forall k :: k in entries <==> k in before && (Alive(before[k], now) || k in expired)
        invariant forall k :: k in entries ==> entries[k] == before[k]
        decreases |expired|
      {
        ghost var some := Witness(expired);
        var key :| key in expired;
        entries, expired := entries - {key}, expired - {key};
      }
      n := |entries|;
    }
  }
}
