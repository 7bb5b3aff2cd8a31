/**
 * The `/traffic` route (`routes/traffic.js`): it reads the metric list of the
 * query, rejects a list that mixes API families, serves a cached answer when
 * it has a live one, rejects a batch of top-analysis metrics, and otherwise
 * calls the API action of the family and caches the answer for 30 seconds.
 */
module TrafficRoute {
  import opened Wrappers
  import opened JsText
  import opened JsValue
  import opened Civil
  import opened IsoDate
  import opened IsoRoundTrip
  import opened Upstream
  import opened Caches
  import opened Credentials
  import opened Metrics
  import RefreshPlan
  import Constants

  /** The size above which a write empties `TRAFFIC_CACHE`. */
  const TrafficCacheLimit: nat := 300

  /** How long an answer stays cached. */
  const TrafficTtlMs: nat := 30 * 1000

  /** The metric asked for when the query names none. */
  const DefaultMetric: string := "l7Flow_flux"

  /** How far before now the default window starts. */
  const DayMs: int := 24 * 60 * 60 * 1000

  const MixedFamiliesMessage: string :=
    "Mixed metric families are not supported in one request. Please group metrics by API family."

  const TopBatchMessage: string :=
    "Top analysis metrics do not support batching. Please request one metric per call."

  // ------------------------------------------------------------ the metric list

  /** A query parameter: absent, given once, or repeated (Express gives an array). */
  datatype QueryValue = Absent | Text(s: string) | List(items: seq<string>)

  /** A list of names, or none (`null`) when it is empty. */
  function NonEmpty(names: seq<string>): (r: Option<seq<string>>)
    ensures r.Some? <==> |names| > 0
    ensures r.Some? ==> r.value == names
  {
    if |names| > 0 then Some(names) else None
  }

  /**
   * `parseMetricsQuery`: a falsy parameter gives none; an array is joined
   * with commas; the text is split on commas, trimmed and emptied of blanks;
   * none again when nothing is left.
   */
  function ParseMetricsQuery(raw: QueryValue): (r: Option<seq<string>>)
    ensures raw.Absent? || raw == Text([]) ==> r.None?
    ensures r.Some? ==> |r.value| > 0
    ensures r.Some? ==> forall i :: 0 <= i < |r.value| ==> r.value[i] != [] && Trim(r.value[i]) == r.value[i]
  {
    match raw
    case Absent => None
    case Text(s) => if s == [] then None else NonEmpty(SplitList(s, ','))
    case List(items) => NonEmpty(SplitList(Join(items, ','), ','))
  }

  /** A repeated parameter reads like its values written in one comma-separated text. */
  lemma ListReadsAsText(items: seq<string>)
    ensures ParseMetricsQuery(List(items)) == ParseMetricsQuery(Text(Join(items, ',')))
  {
    if Join(items, ',') == [] {
      SplitListEmpty(',');
    }
  }

  /** Metric names the dashboard sends, comma-joined or repeated, are read back as sent. */
  lemma MetricsQueryRoundTrip(metrics: seq<string>)
    requires |metrics| > 0
    requires forall i :: 0 <= i < |metrics| ==> IsListName(metrics[i], ',')
    ensures ParseMetricsQuery(Text(Join(metrics, ','))) == Some(metrics)
    ensures ParseMetricsQuery(List(metrics)) == Some(metrics)
  {
    SplitListJoin(metrics, ',');
    assert Join(metrics, ',') != [] by {
      if |metrics| > 1 {
        assert Join(metrics, ',')[0] == metrics[0][0];
      }
    }
  }

  // ------------------------------------------------------------ families

  /** The API family a metric is served by. */
  datatype Family = Top | Security | Function | OriginPull | Timing

  /** `classifyMetricFamily`: the lists are consulted in the order top, security, function, origin pull; otherwise timing. */
  function ClassifyMetricFamily(m: string): (f: Family)
    ensures m in TopAnalysisFamily ==> f == Top
    ensures f == Timing ==>
      m !in TopAnalysisFamily && m !in SecurityFamily && m !in FunctionFamily && m !in OriginPullFamily
  {
    if m in TopAnalysisFamily then Top
    else if m in SecurityFamily then Security
    else if m in FunctionFamily then Function
    else if m in OriginPullFamily then OriginPull
    else Timing
  }

  /**
   * The lists being disjoint, the family is exactly the list the metric is
   * in, whatever the order of the tests.
   */
  lemma FamilyIsMembership(m: string)
    ensures ClassifyMetricFamily(m) == Top <==> m in TopAnalysisFamily
    ensures ClassifyMetricFamily(m) == Security <==> m in SecurityFamily
    ensures ClassifyMetricFamily(m) == Function <==> m in FunctionFamily
    ensures ClassifyMetricFamily(m) == OriginPull <==> m in OriginPullFamily
    ensures ClassifyMetricFamily(m) == Timing <==>
      m !in TopAnalysisFamily && m !in SecurityFamily && m !in FunctionFamily && m !in OriginPullFamily
  {
    FamiliesDisjoint(m);
  }

  /** The family's name in the cache key. */
  function FamilyName(f: Family): string {
    match f
    case Top => "top"
    case Security => "security"
    case Function => "function"
    case OriginPull => "originPull"
    case Timing => "timing"
  }

  /** `metrics.some((m) => classifyMetricFamily(m) !== family)`, the family being that of the first metric. */
  predicate MixedFamilies(metrics: seq<string>)
    requires |metrics| > 0
  {
    exists i :: 0 <= i < |metrics| && ClassifyMetricFamily(metrics[i]) != ClassifyMetricFamily(metrics[0])
  }

  /** A list whose every metric belongs to `f` is one batch of family `f`. */
  lemma SingleFamily(metrics: seq<string>, f: Family)
    requires |metrics| > 0
    requires forall i :: 0 <= i < |metrics| ==> ClassifyMetricFamily(metrics[i]) == f
    ensures !MixedFamilies(metrics) && ClassifyMetricFamily(metrics[0]) == f
  {
  }

  /**
   * The four batches the dashboard sends for a refresh each fall in one
   * family, and none of them is the top-analysis family, so the route never
   * rejects them.
   */
  lemma DashboardBatchesAccepted()
    ensures !MixedFamilies(RefreshPlan.TimingMetrics) && ClassifyMetricFamily(RefreshPlan.TimingMetrics[0]) == Timing
    ensures !MixedFamilies(Constants.OriginPullMetrics) && ClassifyMetricFamily(Constants.OriginPullMetrics[0]) == OriginPull
    ensures !MixedFamilies(Constants.EdgeFunctionsMetrics) && ClassifyMetricFamily(Constants.EdgeFunctionsMetrics[0]) == Function
    ensures !MixedFamilies(Constants.SecurityMetrics) && ClassifyMetricFamily(Constants.SecurityMetrics[0]) == Security
  {
    forall i | 0 <= i < |RefreshPlan.TimingMetrics|
      ensures ClassifyMetricFamily(RefreshPlan.TimingMetrics[i]) == Timing
    {
      TimingUnlisted(RefreshPlan.TimingMetrics[i]);
      FamilyIsMembership(RefreshPlan.TimingMetrics[i]);
    }
    SingleFamily(RefreshPlan.TimingMetrics, Timing);
    OriginPullReordered();
    SameFamiliesAsDashboard();
    forall i | 0 <= i < |Constants.OriginPullMetrics|
      ensures ClassifyMetricFamily(Constants.OriginPullMetrics[i]) == OriginPull
    {
      assert Constants.OriginPullMetrics[i] in set m | m in Constants.OriginPullMetrics;
      FamilyIsMembership(Constants.OriginPullMetrics[i]);
    }
    SingleFamily(Constants.OriginPullMetrics, OriginPull);
    forall i | 0 <= i < |Constants.EdgeFunctionsMetrics|
      ensures ClassifyMetricFamily(Constants.EdgeFunctionsMetrics[i]) == Function
    {
      assert Constants.EdgeFunctionsMetrics[i] in set m | m in Constants.EdgeFunctionsMetrics;
      FamilyIsMembership(Constants.EdgeFunctionsMetrics[i]);
    }
    SingleFamily(Constants.EdgeFunctionsMetrics, Function);
    forall i | 0 <= i < |Constants.SecurityMetrics|
      ensures ClassifyMetricFamily(Constants.SecurityMetrics[i]) == Security
    {
      assert Constants.SecurityMetrics[i] in set m | m in Constants.SecurityMetrics;
      FamilyIsMembership(Constants.SecurityMetrics[i]);
    }
    SingleFamily(Constants.SecurityMetrics, Security);
  }

  // ------------------------------------------------------------ the request

  /** The query parameters the route reads. */
  datatype TrafficQuery = TrafficQuery(
    metrics: QueryValue, metric: Option<string>, startTime: Option<string>, endTime: Option<string>,
    interval: Option<string>, zoneId: Option<string>, noCache: Option<string>)

  /** The request once the route's defaults are filled in. */
  datatype TrafficRequest = TrafficRequest(
    metrics: seq<string>, startTime: string, endTime: string,
    interval: Option<string>, zoneId: Option<string>, noCache: bool)

  /**
   * The defaults at `nowMs`: the parsed list, else the single `metric` (by
   * default `l7Flow_flux`); the window of the last 24 hours; `noCache=1`.
   */
  function WithDefaults(q: TrafficQuery, nowMs: int): (r: TrafficRequest)
    ensures |r.metrics| > 0
    ensures ParseMetricsQuery(q.metrics).Some? ==> r.metrics == ParseMetricsQuery(q.metrics).value
    ensures ParseMetricsQuery(q.metrics).None? ==> |r.metrics| == 1 && TruthyText(Some(r.metrics[0]))
    ensures ParseMetricsQuery(q.metrics).None? ==> r.metrics == [TextOr(q.metric, "l7Flow_flux")]
    ensures TruthyText(q.startTime) ==> r.startTime == q.startTime.value
    ensures TruthyText(q.endTime) ==> r.endTime == q.endTime.value
    ensures r.interval == q.interval && r.zoneId == q.zoneId
    ensures r.noCache <==> q.noCache == Some("1")
  {
    var parsed := ParseMetricsQuery(q.metrics);
    TrafficRequest(
      if parsed.Some? then parsed.value else [TextOr(q.metric, DefaultMetric)],
      TextOr(q.startTime, FormatDate(nowMs - DayMs)),
      TextOr(q.endTime, FormatDate(nowMs)),
      q.interval, q.zoneId, NoCacheRequested(q.noCache))
  }

  /** Without `startTime` and `endTime` the window is exactly the 24 hours before now, to the second. */
  lemma DefaultWindowIsOneDay(q: TrafficQuery, nowMs: int)
    requires !TruthyText(q.startTime) && !TruthyText(q.endTime)
    requires 0 <= Breakdown(nowMs - DayMs).date.year <= 9999
    requires 0 <= Breakdown(nowMs).date.year <= 9999
    ensures ParseDate(WithDefaults(q, nowMs).startTime).Some? && ParseDate(WithDefaults(q, nowMs).endTime).Some?
    ensures ParseDate(WithDefaults(q, nowMs).endTime).value - ParseDate(WithDefaults(q, nowMs).startTime).value == DayMs
    ensures ParseDate(WithDefaults(q, nowMs).endTime).value == nowMs - nowMs % 1000
  {
    var r := WithDefaults(q, nowMs);
    var a := nowMs - DayMs;
    assert r.startTime == FormatDate(a) && r.endTime == FormatDate(nowMs);
    DayInSeconds(a, nowMs);
    RefreshPlan.FormattedSpan(a, nowMs);
    FormatDateReadsBack(nowMs);
  }

  /** A day is a whole number of seconds. */
  lemma DayInSeconds(a: int, b: int)
    requires b - a == DayMs
    ensures (b - a) % 1000 == 0
  {
  }

  /** `${family}:${metrics}:${startTime}:${endTime}:${interval || ""}:${zoneId || "*"}`. */
  function CacheKey(f: Family, r: TrafficRequest): string {
    FamilyName(f) + ":" + Join(r.metrics, ',') + ":" + r.startTime + ":" + r.endTime + ":" +
    TextOr(r.interval, "") + ":" + TextOr(r.zoneId, "*")
  }

  /** Requests of two families never share a cache entry: the keys differ within their first two characters. */
  lemma CacheKeysSeparateFamilies(f1: Family, r1: TrafficRequest, f2: Family, r2: TrafficRequest)
    requires f1 != f2
    ensures CacheKey(f1, r1) != CacheKey(f2, r2)
  {
    KeyPrefix(f1, r1);
    KeyPrefix(f2, r2);
  }

  /** A cache key begins with the first two characters of its family's name, which no two families share. */
  lemma KeyPrefix(f: Family, r: TrafficRequest)
    ensures CacheKey(f, r)[..2] == FamilyName(f)[..2]
    ensures FamilyName(f)[..2] == (match f case Top => "to" case Security => "se" case Function => "fu"
                                         case OriginPull => "or" case Timing => "ti")
  {
    var rest := ":" + Join(r.metrics, ',') + ":" + r.startTime + ":" + r.endTime + ":" +
      TextOr(r.interval, "") + ":" + TextOr(r.zoneId, "*");
    assert CacheKey(f, r) == FamilyName(f) + rest;
    assert |FamilyName(f)| >= 2;
    assert (FamilyName(f) + rest)[..2] == FamilyName(f)[..2];
  }

  // ------------------------------------------------------------ the API call

  /** The API action a family is served by. */
  datatype Action =
    | DescribeTopL7AnalysisData
    | DescribeWebProtectionData
    | DescribeTimingFunctionAnalysisData
    | DescribeTimingL7OriginPullData
    | DescribeTimingL7AnalysisData

  /** The parameters: a single `MetricName` for the top action, `MetricNames` and an optional `Interval` otherwise. */
  datatype Params =
    | TopParams(startTime: string, endTime: string, metricName: string, zoneIds: seq<string>)
    | SeriesParams(startTime: string, endTime: string, metricNames: seq<string>, zoneIds: seq<string>, interval: Option<string>)

  datatype TrafficCall = TrafficCall(action: Action, params: Params)

  /** `if (interval && interval !== "auto") params.Interval = interval`. */
  function ForwardedInterval(interval: Option<string>): (r: Option<string>)
    ensures r.Some? <==> TruthyText(interval) && interval.value != "auto"
    ensures r.Some? ==> r == interval
  {
    if TruthyText(interval) && interval.value != "auto" then interval else None
  }

  /**
   * The edge-function metric names: `function_requestCount` is put in front
   * when `function_cpuCostTime` is asked for without it; the requested names
   * follow, unchanged and in order.
   */
  function FunctionMetricNames(metrics: seq<string>): (r: seq<string>)
    ensures |metrics| <= |r| <= |metrics| + 1 && r[|r| - |metrics|..] == metrics
    ensures |r| == |metrics| + 1 <==> "function_cpuCostTime" in metrics && "function_requestCount" !in metrics
    ensures |r| == |metrics| + 1 ==> r[0] == "function_requestCount"
    ensures "function_cpuCostTime" in r ==> "function_requestCount" in r
  {
    if "function_cpuCostTime" in metrics && "function_requestCount" !in metrics then
      assert (["function_requestCount"] + metrics)[1..] == metrics;
      ["function_requestCount"] + metrics
    else metrics
  }

  /** `zoneId ? [zoneId] : ["*"]`. */
  function ZoneIds(zoneId: Option<string>): seq<string> {
    if TruthyText(zoneId) then [zoneId.value] else ["*"]
  }

  /** The call the route makes for a request of family `f`. */
  function UpstreamCall(f: Family, r: TrafficRequest): (c: TrafficCall)
    requires |r.metrics| > 0
    ensures c.params.startTime == r.startTime && c.params.endTime == r.endTime
    ensures c.params.zoneIds == ZoneIds(r.zoneId)
    ensures c.params.TopParams? <==> f == Top
    ensures f == Top ==> c.action == DescribeTopL7AnalysisData && c.params.metricName == r.metrics[0]
    ensures f == Security ==> c.action == DescribeWebProtectionData && c.params.metricNames == r.metrics
    ensures f == Function ==> c.action == DescribeTimingFunctionAnalysisData && c.params.metricNames == FunctionMetricNames(r.metrics)
    ensures f == OriginPull ==> c.action == DescribeTimingL7OriginPullData && c.params.metricNames == r.metrics
    ensures f == Timing ==> c.action == DescribeTimingL7AnalysisData && c.params.metricNames == r.metrics
    ensures f != Top ==> c.params.interval == ForwardedInterval(r.interval)
  {
    var zones := ZoneIds(r.zoneId);
    var interval := ForwardedInterval(r.interval);
    match f
    case Top => TrafficCall(DescribeTopL7AnalysisData, TopParams(r.startTime, r.endTime, r.metrics[0], zones))
    case Security =>
      TrafficCall(DescribeWebProtectionData, SeriesParams(r.startTime, r.endTime, r.metrics, zones, interval))
    case Function =>
      TrafficCall(DescribeTimingFunctionAnalysisData,
                  SeriesParams(r.startTime, r.endTime, FunctionMetricNames(r.metrics), zones, interval))
    case OriginPull =>
      TrafficCall(DescribeTimingL7OriginPullData, SeriesParams(r.startTime, r.endTime, r.metrics, zones, interval))
    case Timing =>
      TrafficCall(DescribeTimingL7AnalysisData, SeriesParams(r.startTime, r.endTime, r.metrics, zones, interval))
  }

  // ------------------------------------------------------------ the route

  /** The family of a request: that of its first metric. */
  function FamilyOf(r: TrafficRequest): Family
    requires |r.metrics| > 0
  {
    ClassifyMetricFamily(r.metrics[0])
  }

  /** Whether the cache answers the request: `noCache` unset and a live, truthy entry under its key. */
  predicate ServedFromCache(entries: map<string, Entry>, r: TrafficRequest, nowMs: int)
    requires |r.metrics| > 0
  {
    !r.noCache &&
    Read(entries, CacheKey(FamilyOf(r), r), nowMs).data.Some? &&
    Truthy(Read(entries, CacheKey(FamilyOf(r), r), nowMs).data.value)
  }

  /** The cache after the lookup: unchanged with `noCache`, otherwise without the key's expired entry. */
  function AfterLookup(entries: map<string, Entry>, r: TrafficRequest, nowMs: int): map<string, Entry>
    requires |r.metrics| > 0
  {
    if r.noCache then entries else Read(entries, CacheKey(FamilyOf(r), r), nowMs).rest
  }

  /** What handling one request produces: the reply, the API call made (if any), and the cache left behind. */
  datatype Handled = Handled(reply: Reply, sent: Option<TrafficCall>, cache: map<string, Entry>)

  /**
   * The `/traffic` handler on the cache `entries`, for the request `r` with
   * its defaults filled in: `keys` is what `getKeys` returned, `nowMs` the
   * clock when the request arrived, `doneMs` the clock once the API
   * answered, and `call` the outcome of each API call.
   */
  function Traffic(entries: map<string, Entry>, r: TrafficRequest, keys: Keys, nowMs: int, doneMs: int,
                   call: TrafficCall -> Outcome): (h: Handled)
    requires |r.metrics| > 0
    ensures h.reply.status == 200 || h.reply.status == 400 || h.reply.status == 500
  {
    if !HasKeys(keys) then Handled(ErrorReply(500, Some(MissingCredentials)), None, entries)
    else
      if MixedFamilies(r.metrics) then Handled(ErrorReply(400, Some(MixedFamiliesMessage)), None, entries)
      else if ServedFromCache(entries, r, nowMs) then
        Handled(DataReply(Read(entries, CacheKey(FamilyOf(r), r), nowMs).data.value), None, entries)
      else if FamilyOf(r) == Top && |r.metrics| != 1 then
        Handled(ErrorReply(400, Some(TopBatchMessage)), None, AfterLookup(entries, r, nowMs))
      else
        var c := UpstreamCall(FamilyOf(r), r);
        match call(c)
        case Failed(err) => Handled(ErrorReply(500, err.message), Some(c), AfterLookup(entries, r, nowMs))
        case Succeeded(data) =>
          Handled(DataReply(Obj(data)), Some(c),
                  if r.noCache then entries
                  else Stored(AfterLookup(entries, r, nowMs), TrafficCacheLimit, CacheKey(FamilyOf(r), r),
                              Obj(data), doneMs + TrafficTtlMs))
  }

  /** A request touches only its own cache entry, and adds no entry without an API call. */
  lemma TrafficCacheFootprint(entries: map<string, Entry>, r: TrafficRequest, keys: Keys, nowMs: int, doneMs: int,
                              call: TrafficCall -> Outcome)
    requires |r.metrics| > 0
    ensures var h := Traffic(entries, r, keys, nowMs, doneMs, call); var key := CacheKey(FamilyOf(r), r);
      (forall k :: k in h.cache && k != key ==> k in entries && h.cache[k] == entries[k]) &&
      (h.sent.None? ==> h.cache.Keys <= entries.Keys)
  {
    if HasKeys(keys) && !MixedFamilies(r.metrics) && !ServedFromCache(entries, r, nowMs) {
      var key := CacheKey(FamilyOf(r), r);
      var after := AfterLookup(entries, r, nowMs);
      assert forall k :: k in after && k != key ==> k in entries && after[k] == entries[k];
    }
  }

  /** Unless `noCache` is set, whatever the route answers with 200 is what its key holds afterwards. */
  lemma TrafficAnswerCached(entries: map<string, Entry>, r: TrafficRequest, keys: Keys, nowMs: int, doneMs: int,
                            call: TrafficCall -> Outcome)
    requires |r.metrics| > 0
    ensures var h := Traffic(entries, r, keys, nowMs, doneMs, call); var key := CacheKey(FamilyOf(r), r);
      h.reply.status == 200 && !r.noCache ==> key in h.cache && h.cache[key].data == h.reply.body
  {
  }

  /** Without both keys the route answers 500 before anything else, and neither calls the API nor touches the cache. */
  lemma CredentialsCheckedFirst(entries: map<string, Entry>, r: TrafficRequest, keys: Keys, nowMs: int, doneMs: int,
                                call: TrafficCall -> Outcome)
    requires |r.metrics| > 0 && !HasKeys(keys)
    ensures Traffic(entries, r, keys, nowMs, doneMs, call) == Handled(ErrorReply(500, Some(MissingCredentials)), None, entries)
  {
  }

  /** A list mixing families is answered 400 before any cache lookup or API call. */
  lemma MixedFamiliesRejected(entries: map<string, Entry>, r: TrafficRequest, keys: Keys, nowMs: int, doneMs: int,
                              call: TrafficCall -> Outcome)
    requires |r.metrics| > 0 && HasKeys(keys) && MixedFamilies(r.metrics)
    ensures Traffic(entries, r, keys, nowMs, doneMs, call) == Handled(ErrorReply(400, Some(MixedFamiliesMessage)), None, entries)
  {
  }

  /** A batch of top-analysis metrics the cache does not answer is answered 400, without an API call. */
  lemma TopBatchRejected(entries: map<string, Entry>, r: TrafficRequest, keys: Keys, nowMs: int, doneMs: int,
                         call: TrafficCall -> Outcome)
    requires HasKeys(keys)
    requires |r.metrics| > 0
    requires !MixedFamilies(r.metrics) && !ServedFromCache(entries, r, nowMs) && FamilyOf(r) == Top && |r.metrics| > 1
    ensures Traffic(entries, r, keys, nowMs, doneMs, call).reply == ErrorReply(400, Some(TopBatchMessage))
    ensures Traffic(entries, r, keys, nowMs, doneMs, call).sent.None?
  {
  }

  /**
   * The API is called exactly when the keys are present, the families are
   * not mixed, the cache does not answer and a top-analysis request names a
   * single metric; the call is the one of the request's family.
   */
  lemma CallOnlyWhenAccepted(entries: map<string, Entry>, r: TrafficRequest, keys: Keys, nowMs: int, doneMs: int,
                             call: TrafficCall -> Outcome)
    requires |r.metrics| > 0
    ensures var h := Traffic(entries, r, keys, nowMs, doneMs, call);
      h.sent.Some? <==>
        HasKeys(keys) && !MixedFamilies(r.metrics) && !ServedFromCache(entries, r, nowMs) &&
        (FamilyOf(r) == Top ==> |r.metrics| == 1)
    ensures var h := Traffic(entries, r, keys, nowMs, doneMs, call);
      h.sent.Some? ==> h.sent.value == UpstreamCall(FamilyOf(r), r)
  {
  }

  /**
   * A failed API call is answered 500 with the error's message, and nothing
   * is stored: the cache keeps at most what it held before the lookup.
   */
  lemma TrafficFailureAnswered(entries: map<string, Entry>, r: TrafficRequest, keys: Keys, nowMs: int, doneMs: int,
                               call: TrafficCall -> Outcome)
    requires |r.metrics| > 0 && HasKeys(keys) && !MixedFamilies(r.metrics) && !ServedFromCache(entries, r, nowMs)
    requires FamilyOf(r) == Top ==> |r.metrics| == 1
    requires call(UpstreamCall(FamilyOf(r), r)).Failed?
    ensures var c := UpstreamCall(FamilyOf(r), r); var h := Traffic(entries, r, keys, nowMs, doneMs, call);
      h.reply == ErrorReply(500, call(c).err.message) && h.sent == Some(c) &&
      h.cache == AfterLookup(entries, r, nowMs)
    ensures var h := Traffic(entries, r, keys, nowMs, doneMs, call);
      forall k :: k in h.cache ==> k in entries && h.cache[k] == entries[k]
  {
  }

  /** `noCache=1` neither reads nor writes the cache. */
  lemma NoCacheBypassesCache(entries: map<string, Entry>, r: TrafficRequest, keys: Keys, nowMs: int, doneMs: int,
                             call: TrafficCall -> Outcome)
    requires |r.metrics| > 0 && r.noCache
    ensures Traffic(entries, r, keys, nowMs, doneMs, call).cache == entries
    ensures HasKeys(keys) && !MixedFamilies(r.metrics) &&
            (FamilyOf(r) == Top ==> |r.metrics| == 1) ==>
            Traffic(entries, r, keys, nowMs, doneMs, call).sent.Some?
  {
  }

  /**
   * A live cached answer is served as stored, without an API call; an
   * answer the API gives is stored and served again by every identical
   * request in the next 30 seconds.
   */
  lemma CachedAnswers(entries: map<string, Entry>, r: TrafficRequest, keys: Keys, nowMs: int, doneMs: int,
                      call: TrafficCall -> Outcome, laterMs: int)
    requires |r.metrics| > 0 && HasKeys(keys) && !MixedFamilies(r.metrics)
    ensures var h := Traffic(entries, r, keys, nowMs, doneMs, call);
      ServedFromCache(entries, r, nowMs) ==>
        h.sent.None? && h.cache == entries &&
        h.reply == DataReply(Read(entries, CacheKey(FamilyOf(r), r), nowMs).data.value)
    ensures var h := Traffic(entries, r, keys, nowMs, doneMs, call);
      h.sent.Some? && call(h.sent.value).Succeeded? && !r.noCache ==>
        h.reply == DataReply(Obj(call(h.sent.value).data)) &&
        (ServedFromCache(h.cache, r.(noCache := false), laterMs) <==> laterMs < doneMs + TrafficTtlMs)
  {
    var h := Traffic(entries, r, keys, nowMs, doneMs, call);
    if h.sent.Some? && call(h.sent.value).Succeeded? && !r.noCache {
      var key := CacheKey(FamilyOf(r), r);
      assert CacheKey(FamilyOf(r.(noCache := false)), r.(noCache := false)) == key;
      ReadAfterStore(AfterLookup(entries, r, nowMs), TrafficCacheLimit, key, Obj(call(h.sent.value).data),
                     doneMs + TrafficTtlMs, laterMs);
    }
  }

  /** The route keeps the cache within 301 entries. */
  lemma CacheStaysBounded(entries: map<string, Entry>, r: TrafficRequest, keys: Keys, nowMs: int, doneMs: int,
                          call: TrafficCall -> Outcome)
    requires |r.metrics| > 0 && |entries| <= TrafficCacheLimit + 1
    ensures |Traffic(entries, r, keys, nowMs, doneMs, call).cache| <= TrafficCacheLimit + 1
  {
    if HasKeys(keys) && !MixedFamilies(r.metrics) {
      assert |AfterLookup(entries, r, nowMs)| <= |entries|;
    }
  }

  /** The handler, on the module's `TRAFFIC_CACHE`; `sent` is the API call it made, if any. */
  method HandleTraffic(cache: TtlCache, q: TrafficQuery, keys: Keys, nowMs: int, doneMs: int, call: TrafficCall -> Outcome)
    returns (reply: Reply, sent: Option<TrafficCall>)
    requires cache.Valid() && cache.limit == TrafficCacheLimit
    modifies cache
    ensures cache.Valid()
    ensures Handled(reply, sent, cache.entries) == Traffic(old(cache.entries), WithDefaults(q, nowMs), keys, nowMs, doneMs, call)
  {
    var r := WithDefaults(q, nowMs);
    reply, sent := Serve(cache, r, keys, nowMs, doneMs, call);
  }

  /** The handler once the query's defaults are filled in. */
  method Serve(cache: TtlCache, r: TrafficRequest, keys: Keys, nowMs: int, doneMs: int, call: TrafficCall -> Outcome)
    returns (reply: Reply, sent: Option<TrafficCall>)
    requires |r.metrics| > 0
    requires cache.Valid() && cache.limit == TrafficCacheLimit
    modifies cache
    ensures cache.Valid()
    ensures Handled(reply, sent, cache.entries) == Traffic(old(cache.entries), r, keys, nowMs, doneMs, call)
  {
    if !HasKeys(keys) {
      return ErrorReply(500, Some(MissingCredentials)), None;
    }
    var family := ClassifyMetricFamily(r.metrics[0]);
    if MixedFamilies(r.metrics) {
      return ErrorReply(400, Some(MixedFamiliesMessage)), None;
    }
    var key := CacheKey(family, r);
    if !r.noCache {
      var cached := cache.Get(key, nowMs);
      if cached.Some? && Truthy(cached.value) {
        return DataReply(cached.value), None;
      }
    }
    assert cache.entries == AfterLookup(old(cache.entries), r, nowMs);
    if family == Top && |r.metrics| != 1 {
      return ErrorReply(400, Some(TopBatchMessage)), None;
    }
    var c := UpstreamCall(family, r);
    sent := Some(c);
    ghost var h := Traffic(old(cache.entries), r, keys, nowMs, doneMs, call);
    assert h.sent == sent && h.cache == (if call(c).Failed? || r.noCache then cache.entries
      else Stored(cache.entries, TrafficCacheLimit, key, Obj(call(c).data), doneMs + TrafficTtlMs));
    match call(c)
    case Failed(err) =>
      reply := ErrorReply(500, err.message);
    case Succeeded(data) =>
      if !r.noCache {
        cache.Set(key, Obj(data), TrafficTtlMs, doneMs);
      }
      reply := DataReply(Obj(data));
  }
}
