/** The process-wide key/value store of last-known vehicle state
    (src/modules/FlightCache.module.ts). */
module FlightCache {
  import opened Packets

  /** What `get` answers for a dictionary: the stored value, or undefined. */
  function Lookup(m: map<string, Json>, key: string): (v: Json)
    ensures key !in m ==> v == Undefined
    ensures key in m ==> v == m[key]
  {
    if key in m then m[key] else Undefined
  }

  class FlightCache {
    var cache: map<string, Json>

    /** Starts from the given seed; with no argument the cache is empty. */
    constructor (seed: map<string, Json> := map[])
      ensures cache == seed
    {
      cache := seed;
    }

    /** `get`: reads without changing anything. */
    method Get(key: string) returns (v: Json)
      ensures v == Lookup(cache, key)
    {
      if key in cache {
        v := cache[key];
      } else {
        v := Undefined;
      }
    }

    /** `set`: last writer wins. */
    method Set(key: string, value: Json)
      modifies this
      ensures cache == old(cache)[key := value]
    {
      cache := cache[key := value];
    }

    /** `clear`: replaces the dictionary by an empty one. */
    method Clear()
      modifies this
      ensures cache == map[]
    {
      cache := map[];
    }
  }

  /** After `set(k, v)`, `get(k)` returns v. */
  lemma GetAfterSet(m: map<string, Json>, key: string, value: Json)
    ensures Lookup(m[key := value], key) == value
  {
  }

  /** `set(k, v)` leaves every other key's value as it was. */
  lemma SetLeavesOtherKeys(m: map<string, Json>, key: string, value: Json, other: string)
    requires other != key
    ensures Lookup(m[key := value], other) == Lookup(m, other)
  {
  }

  /** Two writes to one key: the second one is all that remains. */
  lemma LastWriterWins(m: map<string, Json>, key: string, first: Json, second: Json)
    ensures m[key := first][key := second] == m[key := second]
  {
  }

  /** After `clear()` every key reads as undefined. */
  lemma ClearedReadsUndefined(key: string)
    ensures Lookup(map[], key) == Undefined
  {
  }
}
