/**
 * The `/zones` route (`routes/zones.js`): the site list from
 * `DescribeZones`, kept for five minutes in a single-slot module cache
 * (`ZONES_CACHE`) that `noCache=1` skips on reading but not on writing.
 */
module ZonesRoute {
  import opened Wrappers
  import opened JsValue
  import opened Upstream
  import opened Credentials

  /** How long a site list is kept: 300 seconds. */
  const ZonesTtlMs: int := 300 * 1000

  /** `ZONES_CACHE`: the last site list and the instant it expires. */
  class ZonesCache {
    var expiresAt: int
    var data: Json

    /** `{ expiresAt: 0, data: null }`. */
    constructor()
      ensures expiresAt == 0 && data == Null
    {
      expiresAt := 0;
      data := Null;
    }
  }

  /** Whether the cache answers: `noCache` unset, the data truthy and not yet expired. */
  predicate Serves(expiresAt: int, data: Json, noCache: Option<string>, nowMs: int) {
    !NoCacheRequested(noCache) && Truthy(data) && nowMs < expiresAt
  }

  /** What handling one request produces: the reply, whether `DescribeZones` was called, and the cache after. */
  datatype Handled = Handled(reply: Reply, called: bool, expiresAt: int, data: Json)

  /**
   * The handler on the cache (`expiresAt`, `data`): `keys` is what `getKeys`
   * returned, `outcome` how `DescribeZones` settled, `nowMs` the clock at
   * arrival and `doneMs` the clock once the API answered.
   */
  function Zones(expiresAt: int, data: Json, noCache: Option<string>, keys: Keys, outcome: Outcome,
                 nowMs: int, doneMs: int): (h: Handled)
    ensures h.reply.status == 200 || h.reply.status == 500
    ensures h.reply.status == 200 ==> h.reply.body == h.data
    ensures !h.called ==> h.expiresAt == expiresAt && h.data == data
    ensures h.called ==> HasKeys(keys) && !Serves(expiresAt, data, noCache, nowMs)
  {
    if Serves(expiresAt, data, noCache, nowMs) then Handled(DataReply(data), false, expiresAt, data)
    else if !HasKeys(keys) then Handled(ErrorReply(500, Some(MissingCredentials)), false, expiresAt, data)
    else
      match outcome
      case Succeeded(list) => Handled(DataReply(Obj(list)), true, doneMs + ZonesTtlMs, Obj(list))
      case Failed(err) => Handled(ErrorReply(500, err.message), true, expiresAt, data)
  }

  /** The fresh module cache answers nothing. */
  lemma InitialCacheEmpty(noCache: Option<string>, nowMs: int)
    ensures !Serves(0, Null, noCache, nowMs)
  {
  }

  /**
   * A served list is the cached one, without an API call; otherwise missing
   * keys are answered 500 without a call, and with keys `DescribeZones` is
   * called.
   */
  lemma CallOnlyWhenNotServed(expiresAt: int, data: Json, noCache: Option<string>, keys: Keys, outcome: Outcome,
                              nowMs: int, doneMs: int)
    ensures var h := Zones(expiresAt, data, noCache, keys, outcome, nowMs, doneMs);
      h.called <==> !Serves(expiresAt, data, noCache, nowMs) && HasKeys(keys)
    ensures var h := Zones(expiresAt, data, noCache, keys, outcome, nowMs, doneMs);
      Serves(expiresAt, data, noCache, nowMs) ==> h.reply == Reply(200, data)
    ensures var h := Zones(expiresAt, data, noCache, keys, outcome, nowMs, doneMs);
      !Serves(expiresAt, data, noCache, nowMs) && !HasKeys(keys) ==>
        h.reply.status == 500 && h.expiresAt == expiresAt && h.data == data
  {
  }

  /**
   * A list from the API is sent and kept, even under `noCache`, and a later
   * request without `noCache` gets it from the cache for exactly five minutes.
   */
  lemma ListCachedForFiveMinutes(expiresAt: int, data: Json, noCache: Option<string>, keys: Keys,
                                 list: map<string, Json>, nowMs: int, doneMs: int,
                                 laterNoCache: Option<string>, laterMs: int)
    requires !Serves(expiresAt, data, noCache, nowMs) && HasKeys(keys)
    requires !NoCacheRequested(laterNoCache)
    ensures var h := Zones(expiresAt, data, noCache, keys, Succeeded(list), nowMs, doneMs);
      h.reply == Reply(200, Obj(list)) &&
      (Serves(h.expiresAt, h.data, laterNoCache, laterMs) <==> laterMs < doneMs + ZonesTtlMs) &&
      h.data == Obj(list)
  {
  }

  /** A failed call is answered 500 with the error's message and leaves the cache as it was. */
  lemma FailureKeepsCache(expiresAt: int, data: Json, noCache: Option<string>, keys: Keys, err: TeoError,
                          nowMs: int, doneMs: int)
    requires !Serves(expiresAt, data, noCache, nowMs) && HasKeys(keys)
    ensures var h := Zones(expiresAt, data, noCache, keys, Failed(err), nowMs, doneMs);
      h.reply == ErrorReply(500, err.message) && h.expiresAt == expiresAt && h.data == data
  {
  }

  /** The handler on the module's `ZONES_CACHE`; `called` says whether `DescribeZones` was called. */
  method HandleZones(cache: ZonesCache, noCache: Option<string>, keys: Keys, outcome: Outcome, nowMs: int, doneMs: int)
    returns (reply: Reply, called: bool)
    modifies cache
    ensures Handled(reply, called, cache.expiresAt, cache.data) ==
            Zones(old(cache.expiresAt), old(cache.data), noCache, keys, outcome, nowMs, doneMs)
  {
    if !NoCacheRequested(noCache) && Truthy(cache.data) && nowMs < cache.expiresAt {
      return DataReply(cache.data), false;
    }
    if !HasKeys(keys) {
      return ErrorReply(500, Some(MissingCredentials)), false;
    }
    called := true;
    match outcome
    case Succeeded(list) =>
      cache.data := Obj(list);
      cache.expiresAt := doneMs + ZonesTtlMs;
      reply := DataReply(Obj(list));
    case Failed(err) =>
      reply := ErrorReply(500, err.message);
  }
}
