/**
 * The in-memory response caches of the traffic and pages routes
 * (`TRAFFIC_CACHE` and `PAGES_CACHE`): a map from cache key to the data and
 * the instant it expires. A read deletes an entry that has expired; a write
 * first empties the whole map once it holds more than a fixed number of
 * entries, so the map never grows past that number plus one.
 */
module Caches {
  import opened Wrappers
  import opened JsValue

  /** `{ data, expiresAt }`. */
  datatype Entry = Entry(data: Json, expiresAt: int)

  /** What a read hands back (`null` as none) and the map it leaves behind. */
  datatype Lookup = Lookup(data: Option<Json>, rest: map<string, Entry>)

  /**
   * `getCachedTraffic`/`getCacheEntry` at `nowMs`: the data of an entry that
   * has not yet expired; an entry at or past its expiry is deleted and
   * reported as missing.
   */
  function Read(entries: map<string, Entry>, key: string, nowMs: int): (r: Lookup)
    ensures r.data.Some? <==> key in entries && nowMs < entries[key].expiresAt
    ensures r.data.Some? ==> r.data.value == entries[key].data && r.rest == entries
    ensures r.data.None? ==> r.rest == entries - {key}
  {
    if key !in entries then Lookup(None, entries)
    else if nowMs >= entries[key].expiresAt then Lookup(None, entries - {key})
    else Lookup(Some(entries[key].data), entries)
  }

  /**
   * `setCachedTraffic`/`setCacheEntry`: the map after storing `data` under
   * `key` until `expiresAt`, emptied first when it held more than `limit`
   * entries.
   */
  function Stored(entries: map<string, Entry>, limit: nat, key: string, data: Json, expiresAt: int): (r: map<string, Entry>)
    ensures key in r && r[key] == Entry(data, expiresAt)
    ensures |r| <= limit + 1
    ensures forall k :: k in r && k != key ==> k in entries && r[k] == entries[k]
    ensures |entries| <= limit ==> forall k :: k in entries && k != key ==> k in r && r[k] == entries[k]
    ensures |entries| > limit ==> r.Keys == {key}
  {
    var kept := if |entries| > limit then map[] else entries;
    assert kept[key := Entry(data, expiresAt)].Keys == kept.Keys + {key};
    kept[key := Entry(data, expiresAt)]
  }

  /** A stored entry reads back as the data stored until, and only until, it expires. */
  lemma ReadAfterStore(entries: map<string, Entry>, limit: nat, key: string, data: Json, expiresAt: int, nowMs: int)
    ensures Read(Stored(entries, limit, key, data, expiresAt), key, nowMs).data.Some? <==> nowMs < expiresAt
    ensures nowMs < expiresAt ==> Read(Stored(entries, limit, key, data, expiresAt), key, nowMs).data.value == data
  {
  }

  /** A second read at the same instant finds what the first found. */
  lemma ReadTwice(entries: map<string, Entry>, key: string, nowMs: int)
    ensures Read(Read(entries, key, nowMs).rest, key, nowMs) == Read(entries, key, nowMs)
  {
    if Read(entries, key, nowMs).data.None? {
      assert key !in entries - {key};
    }
  }

  /** One of the module-level `Map` caches, with the size above which a write empties it. */
  class TtlCache {
    const limit: nat
    var entries: map<string, Entry>

    /** The size bound the clearing rule keeps. */
    ghost predicate Valid()
      reads this
    {
      |entries| <= limit + 1
    }

    constructor(limit: nat)
      ensures this.limit == limit && entries == map[]
      ensures Valid()
    {
      this.limit := limit;
      entries := map[];
    }

    /** A read at `nowMs`, deleting the entry when it has expired. */
    method Get(key: string, nowMs: int) returns (data: Option<Json>)
      requires Valid()
      modifies this
      ensures Valid()
      ensures data == Read(old(entries), key, nowMs).data
      ensures entries == Read(old(entries), key, nowMs).rest
    {
      if key !in entries {
        return None;
      }
      var entry := entries[key];
      if nowMs >= entry.expiresAt {
        entries := entries - {key};
        assert |entries| <= |old(entries)|;
        return None;
      }
      data := Some(entry.data);
    }

    /** A write at `nowMs` of an entry that lives `ttlMs` milliseconds. */
    method Set(key: string, data: Json, ttlMs: int, nowMs: int)
      requires Valid()
      modifies this
      ensures Valid()
      ensures entries == Stored(old(entries), limit, key, data, nowMs + ttlMs)
    {
      if |entries| > limit {
        entries := map[];
      }
      entries := entries[key := Entry(data, nowMs + ttlMs)];
    }
  }
}
