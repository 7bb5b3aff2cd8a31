/**
 * The dashboard's module state (assets/dashboard/main.js): the control
 * settings cached results are tagged with, the generation token that discards
 * stale top-analysis loads, the single pending chart rebuild, the zone
 * selector built from the cached zone list, and what a refresh requests and
 * stores.
 */
module Dashboard {
  import opened Wrappers
  import opened JsText
  import opened DashboardUtils
  import opened Api
  import opened Constants
  import opened RefreshPlan
  import opened TeoZones

  // ------------------------------------------------------------ control state

  /** The three controls cached results are tagged with. */
  datatype ControlState = ControlState(rangeKey: string, interval: string, zoneId: string)

  /** `el?.value || fallback` for an element that may be missing. */
  function ValueOr(v: Option<string>, fallback: string): (r: string)
    ensures v.Some? && v.value != "" ==> r == v.value
    ensures v.None? || v.value == "" ==> r == fallback
  {
    if v.Some? && v.value != "" then v.value else fallback
  }

  /**
   * `getControlState` from the values of the `timeRange`, `interval` and
   * `zoneId` elements (none: the element is missing): the range defaults to
   * `30min`, the interval to `auto`, and the zone is trimmed, defaulting to
   * the empty string.
   */
  function GetControlState(timeRange: Option<string>, interval: Option<string>, zoneId: Option<string>): (c: ControlState)
    ensures c.rangeKey != "" && c.interval != ""
    ensures c.rangeKey == (if timeRange.Some? && timeRange.value != "" then timeRange.value else "30min")
    ensures c.interval == (if interval.Some? && interval.value != "" then interval.value else "auto")
    ensures zoneId.None? ==> c.zoneId == ""
    ensures zoneId.Some? ==> c.zoneId == Trim(zoneId.value)
    ensures Trim(c.zoneId) == c.zoneId
  {
    TrimIdempotent(ValueOr(zoneId, ""));
    ControlState(ValueOr(timeRange, "30min"), ValueOr(interval, "auto"), Trim(ValueOr(zoneId, "")))
  }

  /**
   * `isSameControlState`: false when either side is missing, otherwise the
   * range, interval and zone all agree.
   */
  function IsSameControlState(a: Option<ControlState>, b: Option<ControlState>): (r: bool)
    ensures r <==> a.Some? && b.Some? && a.value == b.value
  {
    if a.None? || b.None? then false
    else a.value.rangeKey == b.value.rangeKey && a.value.interval == b.value.interval &&
         a.value.zoneId == b.value.zoneId
  }

  // ------------------------------------------------------------ the cache

  /** `dashboardCache.core`: what the last refresh produced, under the controls it ran with. */
  datatype CoreCache = CoreCache(controls: ControlState, results: map<string, Processed>,
                                 compareResults: map<string, Processed>)

  /** The controls of a top-analysis load: the three controls plus the window it fetched. */
  datatype TopControls = TopControls(controls: ControlState, range: TimeRange)

  /** `dashboardCache.topAnalysis`. */
  datatype TopCache = TopCache(controls: TopControls, results: map<string, Processed>)

  /**
   * `dashboardCache`, reduced to the parts this model follows; `zones` is
   * `null` (none) until the zone list arrived and after it failed to load.
   */
  datatype Cache = Cache(core: Option<CoreCache>, zones: Option<seq<Zone>>, topAnalysis: Option<TopCache>)

  // ------------------------------------------------------------ re-rendering from the cache

  /** What a re-render draws: the core sections from this cache, the pages KPIs, the top section from these results. */
  datatype Redraw = Redraw(core: Option<CoreCache>, pages: bool, top: Option<map<string, Processed>>)

  /**
   * The gating of `rerenderFromCache` once charts exist: the core sections
   * are redrawn only from a core cache taken under the current controls, the
   * pages KPIs only when asked for, and the top section only when asked for,
   * activated, and cached under the current controls.
   */
  function Rerendered(c: Cache, activated: bool, includeTop: bool, includePages: bool, current: ControlState): (r: Redraw)
    ensures r.core.Some? <==> c.core.Some? && IsSameControlState(Some(current), Some(c.core.value.controls))
    ensures r.core.Some? ==> r.core == c.core && r.core.value.controls == current
    ensures r.pages == includePages
    ensures r.top.Some? <==>
      includeTop && activated && c.topAnalysis.Some? &&
      IsSameControlState(Some(current), Some(c.topAnalysis.value.controls.controls))
    ensures r.top.Some? ==> r.top.value == c.topAnalysis.value.results
  {
    var core := if c.core.Some? && IsSameControlState(Some(current), Some(c.core.value.controls)) then c.core else None;
    var top :=
      if includeTop && activated && c.topAnalysis.Some? &&
         IsSameControlState(Some(current), Some(c.topAnalysis.value.controls.controls))
      then Some(c.topAnalysis.value.results)
      else None;
    Redraw(core, includePages, top)
  }

  // ------------------------------------------------------------ the zone selector

  /** One `<option>` of the zone selector. */
  datatype ZoneOption = ZoneOption(value: string, text: string)

  /** The translated texts the selector uses: `zones.loadFailed`, `zones.all` and `zones.pagesSuffix`. */
  datatype ZoneTexts = ZoneTexts(loadFailed: string, all: string, pagesSuffix: string)

  /** The option text of a zone: its name, with the pages suffix for `default-pages-zone`. */
  function ZoneText(z: Zone, pagesSuffix: string): string {
    if z.zoneName == PagesZoneName then z.zoneName + pagesSuffix else z.zoneName
  }

  /** The options of the zones, one per zone in list order. */
  function ZoneEntries(zones: seq<Zone>, pagesSuffix: string): (r: seq<ZoneOption>)
    ensures |r| == |zones|
    ensures forall i :: 0 <= i < |zones| ==> r[i] == ZoneOption(zones[i].zoneId, ZoneText(zones[i], pagesSuffix))
  {
    if |zones| == 0 then []
    else ZoneEntries(zones[..|zones| - 1], pagesSuffix) + [ZoneOption(zones[|zones| - 1].zoneId, ZoneText(zones[|zones| - 1], pagesSuffix))]
  }

  /**
   * The options `renderZonesFromCache` puts in the selector: the single
   * failure option when the zone list is missing, otherwise "all zones"
   * followed by one option per zone.
   */
  function ZoneOptions(zones: Option<seq<Zone>>, texts: ZoneTexts): (r: seq<ZoneOption>)
    ensures |r| >= 1 && r[0].value == "*"
    ensures zones.None? ==> r == [ZoneOption("*", texts.loadFailed)]
    ensures zones.Some? ==> r[0].text == texts.all && r[1..] == ZoneEntries(zones.value, texts.pagesSuffix)
  {
    match zones
    case None => [ZoneOption("*", texts.loadFailed)]
    case Some(zs) => [ZoneOption("*", texts.all)] + ZoneEntries(zs, texts.pagesSuffix)
  }

  /** Some option carries the value `v`. */
  predicate Offered(options: seq<ZoneOption>, v: string) {
    exists i :: 0 <= i < |options| && options[i].value == v
  }

  /** The selection after the options are rebuilt: the previous value when it is non-empty and still offered, else `*`. */
  function KeptSelection(options: seq<ZoneOption>, currentVal: string): (s: string)
    ensures s == currentVal || s == "*"
    ensures s == currentVal <==> currentVal == "*" || (currentVal != "" && Offered(options, currentVal))
  {
    if currentVal != "" && Offered(options, currentVal) then currentVal else "*"
  }

  /** Whatever the previous value, the selector ends on a value one of its options carries. */
  lemma SelectionIsOffered(zones: Option<seq<Zone>>, texts: ZoneTexts, currentVal: string)
    ensures Offered(ZoneOptions(zones, texts), KeptSelection(ZoneOptions(zones, texts), currentVal))
  {
    var options := ZoneOptions(zones, texts);
    if KeptSelection(options, currentVal) == "*" {
      assert options[0].value == "*";
    }
  }

  /**
   * With a zone list, the previous selection survives exactly when it is `*`
   * or the id of a listed zone.
   */
  lemma SelectionKeptIffListed(zones: seq<Zone>, texts: ZoneTexts, currentVal: string)
    ensures KeptSelection(ZoneOptions(Some(zones), texts), currentVal) == currentVal <==>
      currentVal == "*" || (currentVal != "" && exists i :: 0 <= i < |zones| && zones[i].zoneId == currentVal)
  {
    var options := ZoneOptions(Some(zones), texts);
    assert options[1..] == ZoneEntries(zones, texts.pagesSuffix);
    if currentVal != "" && currentVal != "*" {
      if Offered(options, currentVal) {
        var i :| 0 <= i < |options| && options[i].value == currentVal;
        assert i != 0;
        assert options[i] == options[1..][i - 1];
        assert zones[i - 1].zoneId == currentVal;
      }
      if exists i :: 0 <= i < |zones| && zones[i].zoneId == currentVal {
        var i :| 0 <= i < |zones| && zones[i].zoneId == currentVal;
        assert options[i + 1] == options[1..][i];
        assert options[i + 1].value == currentVal;
      }
    }
  }

  /** What `/api/zones` gave: a thrown request, or a body whose `Zones` is an array (some) or not (none). */
  datatype ZonesReply = ZonesThrew | ZonesBody(zones: Option<seq<Zone>>)

  /** The zone list `fetchZones` caches: `null` after a failure, the array, or `[]` when `Zones` is not one. */
  function CachedZones(reply: ZonesReply): (r: Option<seq<Zone>>)
    ensures r.None? <==> reply.ZonesThrew?
    ensures reply.ZonesBody? && reply.zones.Some? ==> r == reply.zones
    ensures reply.ZonesBody? && reply.zones.None? ==> r == Some([])
  {
    match reply
    case ZonesThrew => None
    case ZonesBody(zs) => Some(zs.GetOr([]))
  }

  // ------------------------------------------------------------ the dashboard

  /**
   * The module state of main.js. `chartsReady` is `charts !== null`,
   * `topChartsReady` says whether the top-analysis chart instances exist,
   * `chartBuilds` counts `initCharts` calls, and `rebuildPending` is
   * `rebuildPromise !== null`.
   */
  class DashboardState {
    var chartsReady: bool
    var topChartsReady: bool
    var chartBuilds: nat
    var topAnalysisActivated: bool
    var topAnalysisRequestId: nat
    var rebuildPending: bool
    var cache: Cache

    /**
     * Top charts exist only beside the main charts, a core cache only holds
     * time-series metrics, and a top cache only top-analysis metrics.
     */
    ghost predicate Valid()
      reads this
    {
      (topChartsReady ==> chartsReady) &&
      (cache.core.Some? ==>
         cache.core.value.results.Keys <= CoreMetricSet &&
         cache.core.value.compareResults.Keys <= CoreMetricSet) &&
      (cache.topAnalysis.Some? ==> cache.topAnalysis.value.results.Keys <= set m | m in TopAnalysisMetrics)
    }

    /** The state when the module loads: no charts, nothing cached, the token at 0. */
    constructor()
      ensures Valid()
      ensures !chartsReady && !topChartsReady && chartBuilds == 0
      ensures !topAnalysisActivated && topAnalysisRequestId == 0 && !rebuildPending
      ensures cache == Cache(None, None, None)
    {
      chartsReady := false;
      topChartsReady := false;
      chartBuilds := 0;
      topAnalysisActivated := false;
      topAnalysisRequestId := 0;
      rebuildPending := false;
      cache := Cache(None, None, None);
    }

    /** `charts = initCharts(theme, { includeTop: false })` in `initDashboard`, once ECharts is ready. */
    method InitCharts()
      requires Valid()
      modifies this
      ensures Valid()
      ensures chartsReady && !topChartsReady && chartBuilds == old(chartBuilds) + 1
      ensures topAnalysisActivated == old(topAnalysisActivated) && topAnalysisRequestId == old(topAnalysisRequestId)
      ensures rebuildPending == old(rebuildPending) && cache == old(cache)
    {
      chartsReady := true;
      topChartsReady := false;
      chartBuilds := chartBuilds + 1;
    }

    // -------------------------------------------------------- the top-analysis generation token

    /**
     * `loadTopAnalysisInBackground`: without charts nothing happens;
     * otherwise the token is advanced and the new id is the one the scheduled
     * load carries.
     */
    method LoadTopAnalysis() returns (requestId: Option<nat>)
      requires Valid()
      modifies this
      ensures Valid()
      ensures requestId.Some? <==> chartsReady
      ensures requestId.Some? ==>
        topAnalysisRequestId == old(topAnalysisRequestId) + 1 && requestId.value == topAnalysisRequestId
      ensures requestId.None? ==> topAnalysisRequestId == old(topAnalysisRequestId)
      ensures chartsReady == old(chartsReady) && topChartsReady == old(topChartsReady)
      ensures chartBuilds == old(chartBuilds) && topAnalysisActivated == old(topAnalysisActivated)
      ensures rebuildPending == old(rebuildPending) && cache == old(cache)
    {
      if !chartsReady {
        return None;
      }
      topAnalysisRequestId := topAnalysisRequestId + 1;
      requestId := Some(topAnalysisRequestId);
    }

    /**
     * The observer callback of `setupTopAnalysisLazyLoad`: the section came
     * into view, so top analysis is activated and a load is started.
     */
    method OnTopSectionVisible() returns (requestId: Option<nat>)
      requires Valid()
      modifies this
      ensures Valid()
      ensures topAnalysisActivated
      ensures requestId.Some? <==> chartsReady
      ensures requestId.Some? ==>
        topAnalysisRequestId == old(topAnalysisRequestId) + 1 && requestId.value == topAnalysisRequestId
      ensures requestId.None? ==> topAnalysisRequestId == old(topAnalysisRequestId)
      ensures chartsReady == old(chartsReady) && topChartsReady == old(topChartsReady)
      ensures chartBuilds == old(chartBuilds) && rebuildPending == old(rebuildPending) && cache == old(cache)
    {
      topAnalysisActivated := true;
      requestId := LoadTopAnalysis();
    }

    /**
     * The start of the frame callback of a load: it goes on only while charts
     * exist and its id is still the latest, and then makes sure the top
     * charts exist.
     */
    method TopFrameStart(requestId: nat) returns (proceed: bool)
      requires Valid()
      modifies this
      ensures Valid()
      ensures proceed <==> chartsReady && requestId == topAnalysisRequestId
      ensures topChartsReady == (old(topChartsReady) || proceed)
      ensures chartsReady == old(chartsReady) && chartBuilds == old(chartBuilds)
      ensures topAnalysisActivated == old(topAnalysisActivated) && topAnalysisRequestId == old(topAnalysisRequestId)
      ensures rebuildPending == old(rebuildPending) && cache == old(cache)
    {
      proceed := chartsReady && requestId == topAnalysisRequestId;
      if proceed {
        topChartsReady := true;
      }
    }

    /**
     * The end of the frame callback, once every top metric was fetched
     * (`fetched` holds the metrics whose `fetchData` was not `null`): the
     * results are committed only while charts exist and the id is still the
     * latest; a superseded load changes nothing.
     */
    method TopFrameFinish(requestId: nat, controls: TopControls, fetched: map<string, RawResponse>, ctx: LabelContext)
      returns (committed: bool)
      requires Valid()
      modifies this
      ensures Valid()
      ensures committed <==> chartsReady && requestId == topAnalysisRequestId
      ensures committed ==> cache == old(cache).(topAnalysis := Some(TopCache(controls, TopResults(fetched, ctx))))
      ensures !committed ==> cache == old(cache)
      ensures chartsReady == old(chartsReady) && topChartsReady == old(topChartsReady) && chartBuilds == old(chartBuilds)
      ensures topAnalysisActivated == old(topAnalysisActivated) && topAnalysisRequestId == old(topAnalysisRequestId)
      ensures rebuildPending == old(rebuildPending)
    {
      committed := chartsReady && requestId == topAnalysisRequestId;
      if committed {
        cache := cache.(topAnalysis := Some(TopCache(controls, TopResults(fetched, ctx))));
      }
    }

    /**
     * Two loads in a row: the first one's results are discarded whatever they
     * are, and the second one's are committed.
     */
    method SupersededLoad(c1: TopControls, f1: map<string, RawResponse>, c2: TopControls, f2: map<string, RawResponse>,
                          ctx: LabelContext)
      returns (first: bool, second: bool)
      requires Valid() && chartsReady
      modifies this
      ensures Valid()
      ensures !first && second
      ensures cache.topAnalysis == Some(TopCache(c2, TopResults(f2, ctx)))
    {
      var id1 := LoadTopAnalysis();
      var id2 := LoadTopAnalysis();
      first := TopFrameFinish(id1.value, c1, f1, ctx);
      second := TopFrameFinish(id2.value, c2, f2, ctx);
    }

    // -------------------------------------------------------- rebuilding the charts

    /** `scheduleChartsRebuild`: a no-op while a rebuild is pending, otherwise a rebuild becomes pending. */
    method ScheduleChartsRebuild() returns (scheduled: bool)
      requires Valid()
      modifies this
      ensures Valid()
      ensures scheduled <==> !old(rebuildPending)
      ensures rebuildPending
      ensures chartsReady == old(chartsReady) && topChartsReady == old(topChartsReady) && chartBuilds == old(chartBuilds)
      ensures topAnalysisActivated == old(topAnalysisActivated) && topAnalysisRequestId == old(topAnalysisRequestId)
      ensures cache == old(cache)
    {
      if rebuildPending {
        return false;
      }
      rebuildPending := true;
      scheduled := true;
    }

    /**
     * The scheduled rebuild itself: with charts, they are disposed and built
     * again (with the top charts exactly when top analysis is activated) and
     * everything is re-rendered from the cache; the pending flag is cleared
     * whatever happened.
     */
    method RunScheduledRebuild(current: ControlState) returns (drawn: Option<Redraw>)
      requires Valid() && rebuildPending
      modifies this
      ensures Valid()
      ensures !rebuildPending
      ensures drawn.Some? <==> old(chartsReady)
      ensures drawn.Some? ==>
        drawn.value == Rerendered(cache, topAnalysisActivated, true, true, current) &&
        chartBuilds == old(chartBuilds) + 1 && topChartsReady == topAnalysisActivated
      ensures drawn.None? ==> chartBuilds == old(chartBuilds) && topChartsReady == old(topChartsReady)
      ensures chartsReady == old(chartsReady)
      ensures topAnalysisActivated == old(topAnalysisActivated) && topAnalysisRequestId == old(topAnalysisRequestId)
      ensures cache == old(cache)
    {
      drawn := None;
      if chartsReady {
        chartBuilds := chartBuilds + 1;
        topChartsReady := topAnalysisActivated;
        var ok, redraw := RerenderFromCache(true, true, current);
        drawn := Some(redraw);
      }
      rebuildPending := false;
    }

    /**
     * `rerenderFromCache`: false without charts; otherwise true, with what
     * `Rerendered` allows drawn (drawing the top section makes sure its
     * charts exist).
     */
    method RerenderFromCache(includeTop: bool, includePages: bool, current: ControlState)
      returns (ok: bool, drawn: Redraw)
      requires Valid()
      modifies this
      ensures Valid()
      ensures ok <==> chartsReady
      ensures ok ==> drawn == Rerendered(cache, topAnalysisActivated, includeTop, includePages, current)
      ensures !ok ==> drawn == Redraw(None, false, None)
      ensures topChartsReady == (old(topChartsReady) || drawn.top.Some?)
      ensures chartsReady == old(chartsReady) && chartBuilds == old(chartBuilds)
      ensures topAnalysisActivated == old(topAnalysisActivated) && topAnalysisRequestId == old(topAnalysisRequestId)
      ensures rebuildPending == old(rebuildPending) && cache == old(cache)
    {
      if !chartsReady {
        return false, Redraw(None, false, None);
      }
      drawn := Rerendered(cache, topAnalysisActivated, includeTop, includePages, current);
      if drawn.top.Some? {
        topChartsReady := true;
      }
      ok := true;
    }

    // -------------------------------------------------------- zones

    /**
     * `renderZonesFromCache`: the options built one by one from the cached
     * zone list, and the value the selector ends on given its value before.
     */
    method RenderZonesFromCache(currentVal: string, texts: ZoneTexts) returns (options: seq<ZoneOption>, selected: string)
      ensures options == ZoneOptions(cache.zones, texts)
      ensures cache.zones.None? ==> selected == "*"
      ensures cache.zones.Some? ==> selected == KeptSelection(options, currentVal)
    {
      if cache.zones.None? {
        return [ZoneOption("*", texts.loadFailed)], "*";
      }
      var zones := cache.zones.value;
      options := [ZoneOption("*", texts.all)];
      for k := 0 to |zones|
        invariant options == [ZoneOption("*", texts.all)] + ZoneEntries(zones[..k], texts.pagesSuffix)
      {
        assert zones[..k + 1][..k] == zones[..k];
        options := options + [ZoneOption(zones[k].zoneId, ZoneText(zones[k], texts.pagesSuffix))];
      }
      assert zones[..|zones|] == zones;
      var found := false;
      for k := 0 to |options|
        invariant found <==> exists i :: 0 <= i < k && options[i].value == currentVal
      {
        if options[k].value == currentVal {
          found := true;
        }
      }
      selected := if currentVal != "" && found then currentVal else "*";
    }

    /** `fetchZones`: the reply's zone list is cached and the selector rebuilt from it. */
    method FetchZones(reply: ZonesReply, currentVal: string, texts: ZoneTexts)
      returns (options: seq<ZoneOption>, selected: string)
      requires Valid()
      modifies this
      ensures Valid()
      ensures cache == old(cache).(zones := CachedZones(reply))
      ensures options == ZoneOptions(CachedZones(reply), texts)
      ensures reply.ZonesThrew? ==> selected == "*"
      ensures reply.ZonesBody? ==> selected == KeptSelection(options, currentVal)
      ensures chartsReady == old(chartsReady) && topChartsReady == old(topChartsReady) && chartBuilds == old(chartBuilds)
      ensures topAnalysisActivated == old(topAnalysisActivated) && topAnalysisRequestId == old(topAnalysisRequestId)
      ensures rebuildPending == old(rebuildPending)
    {
      cache := cache.(zones := CachedZones(reply));
      options, selected := RenderZonesFromCache(currentVal, texts);
    }

    // -------------------------------------------------------- refreshing

    /**
     * `refreshData` for the controls `controls` and the window `range`
     * `calculateTimeRange` gave, at time `nowMs`; `answer` is what
     * `fetchBatchData` resolves to for each request. Without charts nothing
     * happens. Otherwise the batches of `PlanRefresh` are requested, the
     * results of each family are extracted, the core cache is replaced, and a
     * top-analysis load is started when top analysis is activated.
     */
    method RefreshData(controls: ControlState, range: TimeRange, nowMs: int,
                       answer: Fetch -> Option<RawResponse>, ctx: LabelContext)
      returns (plan: Option<Plan>, topRequest: Option<nat>)
      requires Valid()
      modifies this
      ensures Valid()
      ensures plan.Some? <==> old(chartsReady)
      ensures plan.Some? ==>
        plan.value == PlanRefresh(range, controls.rangeKey, nowMs) &&
        cache == old(cache).(core := Some(CoreCache(controls,
                                                    CurrentResults(plan.value, answer, ctx),
                                                    PreviousResults(plan.value, answer, ctx))))
      ensures plan.None? ==> cache == old(cache)
      ensures topRequest.Some? <==> old(chartsReady) && topAnalysisActivated
      ensures topRequest.Some? ==>
        topAnalysisRequestId == old(topAnalysisRequestId) + 1 && topRequest.value == topAnalysisRequestId
      ensures topRequest.None? ==> topAnalysisRequestId == old(topAnalysisRequestId)
      ensures chartsReady == old(chartsReady) && topChartsReady == old(topChartsReady) && chartBuilds == old(chartBuilds)
      ensures topAnalysisActivated == old(topAnalysisActivated) && rebuildPending == old(rebuildPending)
    {
      if !chartsReady {
        return None, None;
      }
      var p := PlanRefresh(range, controls.rangeKey, nowMs);
      var results: map<string, Processed> := map[];
      var compareResults: map<string, Processed> := map[];
      results, compareResults := ExtractFamily(p.timing.metrics, answer(p.timing), Answer(p.timingPrev, answer),
                                               ctx, results, compareResults);
      results, compareResults := ExtractFamily(p.originPull.metrics, answer(p.originPull), Answer(p.originPullPrev, answer),
                                               ctx, results, compareResults);
      results, compareResults := ExtractFamily(p.functions.metrics, answer(p.functions), Answer(p.functionsPrev, answer),
                                               ctx, results, compareResults);
      results, compareResults := ExtractFamily(SecurityBatch(p), Answer(p.security, answer), Answer(p.securityPrev, answer),
                                               ctx, results, compareResults);
      EmptyUnion(Extracted(answer(p.timing), p.timing.metrics, ctx));
      EmptyUnion(Extracted(Answer(p.timingPrev, answer), p.timing.metrics, ctx));
      assert results == CurrentResults(p, answer, ctx);
      assert compareResults == PreviousResults(p, answer, ctx);
      RefreshKeys(p, range, controls.rangeKey, nowMs, answer, ctx);
      cache := cache.(core := Some(CoreCache(controls, results, compareResults)));
      plan := Some(p);
      topRequest := None;
      if topAnalysisActivated {
        topRequest := LoadTopAnalysis();
      }
    }
  }

  /**
   * The results of a top-analysis load: every top metric whose fetch came
   * back, normalised for that metric.
   */
  function TopResults(fetched: map<string, RawResponse>, ctx: LabelContext): (r: map<string, Processed>)
    ensures r.Keys == (set m | m in TopAnalysisMetrics) * fetched.Keys
    ensures forall m :: m in r ==> r[m] == Process(fetched[m], m, ctx)
  {
    map m | m in TopAnalysisMetrics && m in fetched :: Process(fetched[m], m, ctx)
  }

  /**
   * One extraction loop of `refreshData`: for each metric of the family, the
   * current batch's record goes into `results` and the previous batch's into
   * `compareResults`, each only when its batch arrived.
   */
  method ExtractFamily(metrics: seq<string>, current: Option<RawResponse>, previous: Option<RawResponse>,
                       ctx: LabelContext, results: map<string, Processed>, compareResults: map<string, Processed>)
    returns (results': map<string, Processed>, compareResults': map<string, Processed>)
    ensures results' == results + Extracted(current, metrics, ctx)
    ensures compareResults' == compareResults + Extracted(previous, metrics, ctx)
  {
    results', compareResults' := results, compareResults;
    for k := 0 to |metrics|
      invariant results' == results + Extracted(current, metrics[..k], ctx)
      invariant compareResults' == compareResults + Extracted(previous, metrics[..k], ctx)
    {
      ExtractedStep(current, metrics, k, ctx);
      ExtractedStep(previous, metrics, k, ctx);
      if current.Some? {
        var record := ProcessData(current.value, metrics[k], ctx);
        UpdateUnion(results, Extracted(current, metrics[..k], ctx), metrics[k], record);
        results' := results'[metrics[k] := record];
      }
      if previous.Some? {
        var record := ProcessData(previous.value, metrics[k], ctx);
        UpdateUnion(compareResults, Extracted(previous, metrics[..k], ctx), metrics[k], record);
        compareResults' := compareResults'[metrics[k] := record];
      }
    }
    assert metrics[..|metrics|] == metrics;
  }

  /** One more metric of the family adds its record, when the batch arrived. */
  lemma ExtractedStep(response: Option<RawResponse>, metrics: seq<string>, k: nat, ctx: LabelContext)
    requires k < |metrics|
    ensures response.None? ==> Extracted(response, metrics[..k + 1], ctx) == Extracted(response, metrics[..k], ctx)
    ensures response.Some? ==>
      (Extracted(response, metrics[..k + 1], ctx) ==
       Extracted(response, metrics[..k], ctx)[metrics[k] := Process(response.value, metrics[k], ctx)])
  {
    if response.Some? {
      var before := Extracted(response, metrics[..k], ctx);
      var after := Extracted(response, metrics[..k + 1], ctx);
      assert metrics[..k + 1] == metrics[..k] + [metrics[k]];
      assert after.Keys == before.Keys + {metrics[k]};
    }
  }

  /** Writing a key after a union is writing it into the right-hand map. */
  lemma UpdateUnion<K, V>(base: map<K, V>, extra: map<K, V>, k: K, v: V)
    ensures (base + extra)[k := v] == base + extra[k := v]
  {
  }

  /** The empty map is the unit of union. */
  lemma EmptyUnion<K, V>(m: map<K, V>)
    ensures map[] + m == m
  {
  }
}
