/**
 * The EdgeOne Pages routes (`routes/pages.js`): `/pages/build-count`,
 * `/pages/cloud-function-requests` and `/pages/cloud-function-monthly-stats`.
 * The three handlers share one shape: a cache lookup, the credentials, the
 * zone (requested or discovered), one `DescribePagesResources` call through
 * the region fallback, the answer tagged with the region that served it and
 * its `Result` text parsed, and a write to the module's `PAGES_CACHE`.
 */
module PagesRoute {
  import opened Wrappers
  import opened JsValue
  import opened Upstream
  import opened Caches
  import opened Credentials
  import opened ZoneResolve
  import opened RegionFallback

  /** `PAGES_CACHE` is emptied by a write once it holds more than 200 entries. */
  const PagesCacheLimit: nat := 200

  /** The SDK action all three routes call. */
  const PagesAction: string := "DescribePagesResources"

  /** The 400 answer when no zone is requested and none could be discovered. */
  const ZoneMissingMessage: string := "Missing ZoneId and could not auto-discover one."

  /** The three routes. */
  datatype Endpoint = BuildCount | FunctionRequests | MonthlyStats

  /** The query parameters the routes read. */
  datatype PagesQuery = PagesQuery(zoneId: Option<string>, startTime: Option<string>, endTime: Option<string>,
                                   noCache: Option<string>)

  /**
   * The cache key: `build-count:${zoneId || "*"}`,
   * `cf-requests:${zoneId || "*"}:${startTime || ""}:${endTime || ""}` and
   * `cf-monthly:${zoneId || "*"}`, from the zone id as requested (not as resolved).
   */
  function CacheKey(e: Endpoint, q: PagesQuery): (key: string)
    ensures e == BuildCount ==> |key| >= 12 && key[..12] == "build-count:"
    ensures e == FunctionRequests ==> |key| >= 12 && key[..12] == "cf-requests:"
    ensures e == MonthlyStats ==> |key| >= 11 && key[..11] == "cf-monthly:"
  {
    match e
    case BuildCount => "build-count:" + TextOr(q.zoneId, "*")
    case FunctionRequests =>
      "cf-requests:" + TextOr(q.zoneId, "*") + ":" + TextOr(q.startTime, "") + ":" + TextOr(q.endTime, "")
    case MonthlyStats => "cf-monthly:" + TextOr(q.zoneId, "*")
  }

  /** How long an answer stays cached: one minute, five minutes for the monthly statistics. */
  function TtlMs(e: Endpoint): int {
    if e == MonthlyStats then 300 * 1000 else 60 * 1000
  }

  /** The three routes never share a cache entry: their keys differ within the first four characters. */
  lemma EndpointKeysSeparate(e1: Endpoint, q1: PagesQuery, e2: Endpoint, q2: PagesQuery)
    requires e1 != e2
    ensures CacheKey(e1, q1) != CacheKey(e2, q2)
  {
    var k1 := CacheKey(e1, q1);
    var k2 := CacheKey(e2, q2);
    assert k1[..4] == (match e1 case BuildCount => "buil" case FunctionRequests => "cf-r" case MonthlyStats => "cf-m");
    assert k2[..4] == (match e2 case BuildCount => "buil" case FunctionRequests => "cf-r" case MonthlyStats => "cf-m");
  }

  /** A build-count or monthly key names the requested zone: two different requested zones never share an entry. */
  lemma ZoneKeysSeparate(e: Endpoint, q1: PagesQuery, q2: PagesQuery)
    requires e != FunctionRequests
    requires TextOr(q1.zoneId, "*") != TextOr(q2.zoneId, "*")
    ensures CacheKey(e, q1) != CacheKey(e, q2)
  {
    var prefix := if e == BuildCount then "build-count:" else "cf-monthly:";
    assert CacheKey(e, q1)[|prefix|..] == TextOr(q1.zoneId, "*");
    assert CacheKey(e, q2)[|prefix|..] == TextOr(q2.zoneId, "*");
  }

  /**
   * The `Payload` of each call, before `JSON.stringify`: the literal `{}`;
   * `{ ZoneId, Interval: "hour", StartTime?, EndTime? }`; `{ ZoneId }`.
   */
  datatype Payload =
    | NoFields
    | RequestsPayload(zoneId: string, interval: string, startTime: Option<string>, endTime: Option<string>)
    | ZonePayload(zoneId: string)

  /** The `params` of a `DescribePagesResources` call. */
  datatype PagesParams = PagesParams(pagesInterface: string, zoneId: string, payload: Payload)

  /** One attempt: the action and its params, sent to one region. */
  datatype PagesCall = PagesCall(region: string, action: string, params: PagesParams)

  /** The `Interface` each route asks for. */
  function Interface(e: Endpoint): string {
    match e
    case BuildCount => "pages:DescribePagesDeploymentUsage"
    case FunctionRequests => "pages:DescribePagesFunctionsRequestDataByZone"
    case MonthlyStats => "pages:DescribeHistoryCloudFunctionStats"
  }

  /** `if (x) payload.X = x`: an optional text kept only when it is truthy. */
  function WhenTruthy(o: Option<string>): (r: Option<string>)
    ensures r.Some? <==> TruthyText(o)
    ensures r.Some? ==> r == o
  {
    if TruthyText(o) then o else None
  }

  /** The params of route `e` for the resolved zone `zoneId`. */
  function Params(e: Endpoint, zoneId: string, q: PagesQuery): (p: PagesParams)
    ensures p.pagesInterface == Interface(e) && p.zoneId == zoneId
    ensures p.payload.NoFields? <==> e == BuildCount
    ensures p.payload.ZonePayload? <==> e == MonthlyStats
    ensures !p.payload.NoFields? ==> p.payload.zoneId == zoneId
    ensures p.payload.RequestsPayload? ==>
      p.payload.interval == "hour" &&
      (p.payload.startTime.Some? <==> TruthyText(q.startTime)) &&
      (p.payload.endTime.Some? <==> TruthyText(q.endTime)) &&
      (p.payload.startTime.Some? ==> p.payload.startTime == q.startTime) &&
      (p.payload.endTime.Some? ==> p.payload.endTime == q.endTime)
  {
    var payload :=
      match e
      case BuildCount => NoFields
      case FunctionRequests => RequestsPayload(zoneId, "hour", WhenTruthy(q.startTime), WhenTruthy(q.endTime))
      case MonthlyStats => ZonePayload(zoneId);
    PagesParams(Interface(e), zoneId, payload)
  }

  /** The call in one region with fixed params, as the region fallback sees it. */
  function CallAt(call: PagesCall -> Outcome, p: PagesParams): string -> Outcome {
    (region: string) => call(PagesCall(region, PagesAction, p))
  }

  /** Whether `JSON.parse` is attempted on the answer: `data.Result` is truthy. */
  predicate HasResultText(data: map<string, Json>) {
    "Result" in data && Truthy(data["Result"])
  }

  /**
   * The answer as sent: `usedRegion` set to the region that answered, and
   * `parsedResult` set to `JSON.parse(data.Result)` when `Result` is truthy
   * and parses (`parse` gives `None` where `JSON.parse` throws).
   */
  function Annotated(data: map<string, Json>, region: string, parse: Json -> Option<Json>): (r: map<string, Json>)
    ensures "usedRegion" in r && r["usedRegion"] == Str(region)
    ensures forall k :: k in data && k != "usedRegion" && k != "parsedResult" ==> k in r && r[k] == data[k]
    ensures forall k :: k in r ==> k in data || k == "usedRegion" || k == "parsedResult"
    ensures HasResultText(data) && parse(data["Result"]).Some? ==>
      "parsedResult" in r && r["parsedResult"] == parse(data["Result"]).value
    ensures !(HasResultText(data) && parse(data["Result"]).Some?) ==>
      ("parsedResult" in r <==> "parsedResult" in data) &&
      ("parsedResult" in data ==> r["parsedResult"] == data["parsedResult"])
  {
    var tagged := data["usedRegion" := Str(region)];
    if HasResultText(data) && parse(data["Result"]).Some? then tagged["parsedResult" := parse(data["Result"]).value]
    else tagged
  }

  /** What handling one request produces: the reply, the params of the API call (if one was made), the cache left behind. */
  datatype Handled = Handled(reply: Reply, asked: Option<PagesParams>, cache: map<string, Entry>)

  /** Whether the cache answers: `noCache` unset and a live, truthy entry under the route's key. */
  predicate ServedFromCache(entries: map<string, Entry>, e: Endpoint, q: PagesQuery, nowMs: int) {
    !NoCacheRequested(q.noCache) &&
    Read(entries, CacheKey(e, q), nowMs).data.Some? && Truthy(Read(entries, CacheKey(e, q), nowMs).data.value)
  }

  /** The cache after the lookup: unchanged with `noCache`, otherwise without the key's expired entry. */
  function AfterLookup(entries: map<string, Entry>, e: Endpoint, q: PagesQuery, nowMs: int): map<string, Entry> {
    if NoCacheRequested(q.noCache) then entries else Read(entries, CacheKey(e, q), nowMs).rest
  }

  /** The reply for the outcome of the region fallback, and the cache it leaves. */
  function Settle(e: Endpoint, q: PagesQuery, after: map<string, Entry>, result: Fallback,
                  parse: Json -> Option<Json>, doneMs: int): (Reply, map<string, Entry>)
  {
    match result
    case Answered(data, region) =>
      var body := Obj(Annotated(data, region, parse));
      (DataReply(body),
       if NoCacheRequested(q.noCache) then after
       else Stored(after, PagesCacheLimit, CacheKey(e, q), body, doneMs + TtlMs(e)))
    case Rethrown(err) => (DetailedErrorReply(err), after)
    case Exhausted(err) => (DetailedErrorReply(err), after)
  }

  /**
   * Route `e` on the cache `entries`: `keys` is what `getKeys` returned,
   * `lookup` how the site lookup of `resolveZoneId` settled, `candidates` the
   * regions of `getPagesRegionCandidates`, `call` the outcome of each
   * attempt, `parse` what `JSON.parse` makes of a value, `nowMs` the clock
   * at arrival and `doneMs` the clock once the API answered.
   */
  function Pages(e: Endpoint, entries: map<string, Entry>, q: PagesQuery, keys: Keys, lookup: ZonesLookup,
                 candidates: seq<string>, call: PagesCall -> Outcome, parse: Json -> Option<Json>,
                 nowMs: int, doneMs: int): (h: Handled)
    ensures forall k :: k in h.cache && k != CacheKey(e, q) ==> k in entries && h.cache[k] == entries[k]
    ensures h.asked.None? ==> h.cache.Keys <= entries.Keys
    ensures h.asked.Some? ==>
      HasKeys(keys) && TruthyText(ResolveZoneId(q.zoneId, lookup)) &&
      h.asked.value == Params(e, ResolveZoneId(q.zoneId, lookup).value, q)
  {
    if ServedFromCache(entries, e, q, nowMs) then
      Handled(DataReply(Read(entries, CacheKey(e, q), nowMs).data.value), None, entries)
    else
      var after := AfterLookup(entries, e, q, nowMs);
      if !HasKeys(keys) then Handled(ErrorReply(500, Some(MissingCredentials)), None, after)
      else
        var zone := ResolveZoneId(q.zoneId, lookup);
        if !TruthyText(zone) then Handled(ErrorReply(400, Some(ZoneMissingMessage)), None, after)
        else
          var p := Params(e, zone.value, q);
          var settled := Settle(e, q, after, TryRegions(candidates, CallAt(call, p)).result, parse, doneMs);
          Handled(settled.0, Some(p), settled.1)
  }

  /** A live cached answer is served even when the keys are missing: the cache is consulted before the credentials. */
  lemma CacheCheckedBeforeCredentials(e: Endpoint, entries: map<string, Entry>, q: PagesQuery, keys: Keys,
                                      lookup: ZonesLookup, candidates: seq<string>, call: PagesCall -> Outcome,
                                      parse: Json -> Option<Json>, nowMs: int, doneMs: int)
    requires ServedFromCache(entries, e, q, nowMs)
    ensures var h := Pages(e, entries, q, keys, lookup, candidates, call, parse, nowMs, doneMs);
      h.asked.None? && h.cache == entries && h.reply.status == 200 &&
      h.reply.body == entries[CacheKey(e, q)].data
  {
  }

  /**
   * Without an answer from the cache the route fails with 500 when a key is
   * missing and with 400 when no zone is requested or discovered, in that
   * order and without calling the API; otherwise it calls the API with the
   * resolved zone.
   */
  lemma GuardsBeforeCall(e: Endpoint, entries: map<string, Entry>, q: PagesQuery, keys: Keys,
                         lookup: ZonesLookup, candidates: seq<string>, call: PagesCall -> Outcome,
                         parse: Json -> Option<Json>, nowMs: int, doneMs: int)
    requires !ServedFromCache(entries, e, q, nowMs)
    ensures var h := Pages(e, entries, q, keys, lookup, candidates, call, parse, nowMs, doneMs);
      !HasKeys(keys) ==> h.reply == ErrorReply(500, Some(MissingCredentials)) && h.asked.None?
    ensures var h := Pages(e, entries, q, keys, lookup, candidates, call, parse, nowMs, doneMs);
      HasKeys(keys) && !TruthyText(ResolveZoneId(q.zoneId, lookup)) ==>
        h.reply == ErrorReply(400, Some(ZoneMissingMessage)) && h.asked.None?
    ensures var h := Pages(e, entries, q, keys, lookup, candidates, call, parse, nowMs, doneMs);
      h.asked.Some? <==> HasKeys(keys) && TruthyText(ResolveZoneId(q.zoneId, lookup))
    ensures var h := Pages(e, entries, q, keys, lookup, candidates, call, parse, nowMs, doneMs);
      h.asked.Some? ==> h.asked.value == Params(e, ResolveZoneId(q.zoneId, lookup).value, q)
  {
  }

  /** A requested zone id is the one the API is asked about, whatever the site list holds. */
  lemma RequestedZoneUsed(e: Endpoint, entries: map<string, Entry>, q: PagesQuery, keys: Keys,
                          lookup: ZonesLookup, candidates: seq<string>, call: PagesCall -> Outcome,
                          parse: Json -> Option<Json>, nowMs: int, doneMs: int)
    requires !ServedFromCache(entries, e, q, nowMs) && HasKeys(keys) && TruthyText(q.zoneId)
    ensures var h := Pages(e, entries, q, keys, lookup, candidates, call, parse, nowMs, doneMs);
      h.asked.Some? && h.asked.value.zoneId == q.zoneId.value
  {
  }

  /**
   * An answer from the API is sent tagged with the region that gave it, and
   * (without `noCache`) served again from the cache for the route's TTL.
   */
  lemma AnsweredAndCached(e: Endpoint, entries: map<string, Entry>, q: PagesQuery, keys: Keys,
                          lookup: ZonesLookup, candidates: seq<string>, call: PagesCall -> Outcome,
                          parse: Json -> Option<Json>, nowMs: int, doneMs: int, laterMs: int)
    requires !ServedFromCache(entries, e, q, nowMs) && HasKeys(keys) && TruthyText(ResolveZoneId(q.zoneId, lookup))
    requires TryRegions(candidates, CallAt(call, Params(e, ResolveZoneId(q.zoneId, lookup).value, q))).result.Answered?
    ensures var a := TryRegions(candidates, CallAt(call, Params(e, ResolveZoneId(q.zoneId, lookup).value, q))).result;
      var h := Pages(e, entries, q, keys, lookup, candidates, call, parse, nowMs, doneMs);
      h.reply == DataReply(Obj(Annotated(a.data, a.region, parse))) &&
      a.region in candidates
    ensures var h := Pages(e, entries, q, keys, lookup, candidates, call, parse, nowMs, doneMs);
      !NoCacheRequested(q.noCache) ==>
        (ServedFromCache(h.cache, e, q, laterMs) <==> laterMs < doneMs + TtlMs(e)) &&
        (laterMs < doneMs + TtlMs(e) ==> Read(h.cache, CacheKey(e, q), laterMs).data == Some(h.reply.body))
  {
    var p := Params(e, ResolveZoneId(q.zoneId, lookup).value, q);
    var t := TryRegions(candidates, CallAt(call, p));
    var a := t.result;
    assert a.region == t.attempted[|t.attempted| - 1];
    assert a.region in candidates by {
      assert t.attempted == candidates[..|t.attempted|];
      assert candidates[|t.attempted| - 1] == a.region;
    }
    var body := Obj(Annotated(a.data, a.region, parse));
    if !NoCacheRequested(q.noCache) {
      ReadAfterStore(AfterLookup(entries, e, q, nowMs), PagesCacheLimit, CacheKey(e, q), body, doneMs + TtlMs(e), laterMs);
    }
  }

  /** An error from the API, or every candidate region refusing, is answered 500 with its details; nothing is stored. */
  lemma FailuresNotCached(e: Endpoint, entries: map<string, Entry>, q: PagesQuery, keys: Keys,
                          lookup: ZonesLookup, candidates: seq<string>, call: PagesCall -> Outcome,
                          parse: Json -> Option<Json>, nowMs: int, doneMs: int)
    requires !ServedFromCache(entries, e, q, nowMs) && HasKeys(keys) && TruthyText(ResolveZoneId(q.zoneId, lookup))
    requires !TryRegions(candidates, CallAt(call, Params(e, ResolveZoneId(q.zoneId, lookup).value, q))).result.Answered?
    ensures var a := TryRegions(candidates, CallAt(call, Params(e, ResolveZoneId(q.zoneId, lookup).value, q))).result;
      var h := Pages(e, entries, q, keys, lookup, candidates, call, parse, nowMs, doneMs);
      h.reply == DetailedErrorReply(a.err) && h.cache == AfterLookup(entries, e, q, nowMs)
  {
  }

  /** `noCache=1` neither reads nor writes the cache. */
  lemma NoCacheBypassesCache(e: Endpoint, entries: map<string, Entry>, q: PagesQuery, keys: Keys,
                             lookup: ZonesLookup, candidates: seq<string>, call: PagesCall -> Outcome,
                             parse: Json -> Option<Json>, nowMs: int, doneMs: int)
    requires NoCacheRequested(q.noCache)
    ensures Pages(e, entries, q, keys, lookup, candidates, call, parse, nowMs, doneMs).cache == entries
  {
  }

  /** The routes keep `PAGES_CACHE` within 201 entries. */
  lemma CacheStaysBounded(e: Endpoint, entries: map<string, Entry>, q: PagesQuery, keys: Keys,
                          lookup: ZonesLookup, candidates: seq<string>, call: PagesCall -> Outcome,
                          parse: Json -> Option<Json>, nowMs: int, doneMs: int)
    requires |entries| <= PagesCacheLimit + 1
    ensures |Pages(e, entries, q, keys, lookup, candidates, call, parse, nowMs, doneMs).cache| <= PagesCacheLimit + 1
  {
    var after := AfterLookup(entries, e, q, nowMs);
    assert |after| <= |entries|;
    if !ServedFromCache(entries, e, q, nowMs) && HasKeys(keys) && TruthyText(ResolveZoneId(q.zoneId, lookup)) {
      var p := Params(e, ResolveZoneId(q.zoneId, lookup).value, q);
      SettleBounded(e, q, after, TryRegions(candidates, CallAt(call, p)).result, parse, doneMs);
    }
  }

  /** Settling keeps a cache of at most 201 entries within that size. */
  lemma SettleBounded(e: Endpoint, q: PagesQuery, after: map<string, Entry>, result: Fallback,
                      parse: Json -> Option<Json>, doneMs: int)
    requires |after| <= PagesCacheLimit + 1
    ensures |Settle(e, q, after, result, parse, doneMs).1| <= PagesCacheLimit + 1
  {
  }

  /** Route `e` on the module's `PAGES_CACHE`; `asked` is the params of the API call it made, if any. */
  method HandlePages(cache: TtlCache, e: Endpoint, q: PagesQuery, keys: Keys, lookup: ZonesLookup,
                     candidates: seq<string>, call: PagesCall -> Outcome, parse: Json -> Option<Json>,
                     nowMs: int, doneMs: int)
    returns (reply: Reply, asked: Option<PagesParams>)
    requires cache.Valid() && cache.limit == PagesCacheLimit
    modifies cache
    ensures cache.Valid()
    ensures Handled(reply, asked, cache.entries) == Pages(e, old(cache.entries), q, keys, lookup, candidates, call, parse, nowMs, doneMs)
  {
    var noCache := NoCacheRequested(q.noCache);
    var key := CacheKey(e, q);
    if !noCache {
      var cached := cache.Get(key, nowMs);
      if cached.Some? && Truthy(cached.value) {
        return DataReply(cached.value), None;
      }
    }
    assert cache.entries == AfterLookup(old(cache.entries), e, q, nowMs);
    if !HasKeys(keys) {
      return ErrorReply(500, Some(MissingCredentials)), None;
    }
    var zone := ResolveZoneId(q.zoneId, lookup);
    if !TruthyText(zone) {
      return ErrorReply(400, Some(ZoneMissingMessage)), None;
    }
    var p := Params(e, zone.value, q);
    asked := Some(p);
    reply := CallAndSettle(cache, e, q, p, candidates, call, parse, doneMs);
  }

  /** The call through the region fallback, the reply, and the write of an answer to the cache. */
  method CallAndSettle(cache: TtlCache, e: Endpoint, q: PagesQuery, p: PagesParams,
                       candidates: seq<string>, call: PagesCall -> Outcome, parse: Json -> Option<Json>, doneMs: int)
    returns (reply: Reply)
    requires cache.Valid() && cache.limit == PagesCacheLimit
    modifies cache
    ensures cache.Valid()
    ensures (reply, cache.entries) == Settle(e, q, old(cache.entries), TryRegions(candidates, CallAt(call, p)).result, parse, doneMs)
  {
    var result, attempted := RequestWithRegionFallback(candidates, CallAt(call, p));
    match result
    case Answered(data, region) =>
      var body := Obj(Annotated(data, region, parse));
      if !NoCacheRequested(q.noCache) {
        cache.Set(CacheKey(e, q), body, TtlMs(e), doneMs);
      }
      reply := DataReply(body);
    case Rethrown(err) =>
      reply := DetailedErrorReply(err);
    case Exhausted(err) =>
      reply := DetailedErrorReply(err);
  }
}
