/**
 * The top-analysis section (assets/dashboard/charts/topAnalysis.js): each top
 * list is sorted by value, cut to its ten largest rows and drawn bottom-up;
 * the axis unit follows the largest row, row names go through an optional
 * resolver, referer keys are cleaned, and the bar colour follows the metric
 * name. Chart drawing itself is a `setOption` call and stays outside the
 * model: each renderer here returns the data it would hand over.
 */
module TopAnalysis {
  import opened Wrappers
  import opened JsText
  import opened JsValue
  import opened DashboardUtils
  import opened Api
  import opened Constants
  import opened TopRanking
  import opened TopLabels

  // ---------------------------------------------------------- generic chart

  /** The unit of a generic top chart: a byte unit for `outFlux` metrics, a count unit otherwise. */
  datatype TopUnit = Bytes(pick: UnitPick) | Counts(count: CountUnit)

  /** The unit for the largest shown value. */
  function TopUnitOf(metric: string, rows: seq<TopItem>, locale: string, requestsWord: string): (u: TopUnit)
    ensures u.Bytes? <==> Contains(metric, "outFlux")
    ensures u.Bytes? ==> u.pick == GetBestUnit(Finite(TopMax(rows)), false)
    ensures u.Counts? ==> u.count == GetBestCountUnit(locale, Finite(TopMax(rows)), requestsWord)
    ensures DivisorOf(u).NaN? <==> u.Bytes? && TopMax(rows) < 0.0
    ensures DivisorOf(u).Finite? ==> DivisorOf(u).value >= 1.0
  {
    if Contains(metric, "outFlux") then Bytes(GetBestUnit(Finite(TopMax(rows)), false))
    else Counts(GetBestCountUnit(locale, Finite(TopMax(rows)), requestsWord))
  }

  /** The divisor of a unit; the unit of a negative byte value has none (`NaN`). */
  function DivisorOf(u: TopUnit): Num {
    match u
    case Bytes(Pick(_, _, divisor)) => Finite(divisor as real)
    case Bytes(Undefined) => NaN
    case Counts(c) => Finite(c.divisor as real)
  }

  /** The axis name of a unit: none when `getBestUnit` found no unit. */
  function UnitName(u: TopUnit): Option<string> {
    match u
    case Bytes(Pick(_, unit, _)) => Some(unit)
    case Bytes(Undefined) => None
    case Counts(c) => Some(c.unit)
  }

  /**
   * The bar length of a value: the value over the divisor, NaN over no
   * divisor. A zero divisor does not arise (`TopUnitOf`).
   */
  function BarValue(v: real, d: Num): (r: Num)
    ensures d.Finite? && d.value != 0.0 ==> r.Finite? && r.value * d.value == v
    ensures !d.Finite? ==> r.NaN?
  {
    if d.Finite? && d.value != 0.0 then Finite(v / d.value) else NaN
  }

  /** What a bar chart is given: series name, axis unit, row names and bar values bottom-up, and colour. */
  datatype BarChart = BarChart(name: string, unit: Option<string>, labels: seq<string>, values: seq<Num>, color: string)

  /** `results[metricName]` when it is a top list. */
  function TopItemsOf(results: map<string, Processed>, metric: string): (r: Option<seq<TopItem>>)
    ensures r.Some? <==> metric in results && results[metric].Top?
    ensures r.Some? ==> r.value == results[metric].items
  {
    if metric in results && results[metric].Top? then Some(results[metric].items) else None
  }

  /**
   * `renderTopChart`: nothing unless the metric's result is a top list;
   * otherwise the ten largest rows, bottom-up, named through the resolver and
   * scaled by the unit of the largest row.
   */
  function RenderTopChart(results: map<string, Processed>, metric: string, resolver: Resolver,
                          locale: string, requestsWord: string): (r: Option<BarChart>)
    ensures r.Some? <==> TopItemsOf(results, metric).Some?
  {
    match TopItemsOf(results, metric)
    case None => None
    case Some(items) =>
      var rows := TopRows(items);
      var unit := TopUnitOf(metric, rows, locale, requestsWord);
      var d := DivisorOf(unit);
      Some(BarChart(GetMetricLabel(metric, locale), UnitName(unit),
                    BottomUp(rows, (row: TopItem) => ResolveName(resolver, row.key)),
                    BottomUp(rows, (row: TopItem) => BarValue(row.value, d)),
                    ColorFor(metric)))
  }

  /**
   * A drawn chart shows at most ten rows, with as many names as values; the
   * bar at position `i` belongs to the row ranked `n - 1 - i`, so the largest
   * row is drawn last (at the top of the axis).
   */
  lemma TopChartRows(results: map<string, Processed>, metric: string, resolver: Resolver,
                     locale: string, requestsWord: string)
    requires TopItemsOf(results, metric).Some?
    ensures var c := RenderTopChart(results, metric, resolver, locale, requestsWord).value;
      var rows := TopRows(results[metric].items);
      var d := DivisorOf(TopUnitOf(metric, rows, locale, requestsWord));
      |c.labels| == |c.values| == |rows| <= TopLimit &&
      (forall i :: 0 <= i < |rows| ==>
         c.labels[i] == ResolveName(resolver, rows[|rows| - 1 - i].key) &&
         c.values[i] == BarValue(rows[|rows| - 1 - i].value, d)) &&
      c.color == ColorFor(metric)
  {
  }

  // ------------------------------------------------------------- referers

  /** The texts the referer charts take from the message table. */
  datatype RefererTexts = RefererTexts(missingField: string, traffic: string, requests: string, requestsUnit: string)

  /** Bytes per gigabyte, the fixed unit of the flux-referer chart. */
  const BytesPerGB: real := 1073741824.0

  /** A byte count in gigabytes. */
  function InGB(bytes: real): (r: real)
    ensures r * BytesPerGB == bytes
  {
    bytes / BytesPerGB
  }

  /** `updateTopRefererChart`: the ten largest flux referers, named by `FluxRefererLabel`, in gigabytes. */
  function FluxRefererChart(results: map<string, Processed>, texts: RefererTexts): (r: Option<BarChart>)
    ensures r.Some? <==> TopItemsOf(results, "l7Flow_outFlux_referers").Some?
    ensures r.Some? ==> var rows := TopRows(results["l7Flow_outFlux_referers"].items);
      |r.value.labels| == |r.value.values| == |rows| &&
      forall i :: 0 <= i < |rows| ==>
        r.value.labels[i] == FluxRefererLabel(rows[|rows| - 1 - i].key, texts.missingField) &&
        r.value.values[i] == Finite(InGB(rows[|rows| - 1 - i].value))
  {
    match TopItemsOf(results, "l7Flow_outFlux_referers")
    case None => None
    case Some(items) =>
      var rows := TopRows(items);
      Some(BarChart(texts.traffic, Some("GB"),
                    BottomUp(rows, (row: TopItem) => FluxRefererLabel(row.key, texts.missingField)),
                    BottomUp(rows, (row: TopItem) => Finite(InGB(row.value))),
                    Violet))
  }

  /** `updateTopRequestRefererChart`: the ten largest request referers, named by `RequestRefererLabel`, as raw counts. */
  function RequestRefererChart(results: map<string, Processed>, texts: RefererTexts): (r: Option<BarChart>)
    ensures r.Some? <==> TopItemsOf(results, "l7Flow_request_referers").Some?
    ensures r.Some? ==> var rows := TopRows(results["l7Flow_request_referers"].items);
      |r.value.labels| == |r.value.values| == |rows| &&
      forall i :: 0 <= i < |rows| ==>
        r.value.labels[i] == RequestRefererLabel(rows[|rows| - 1 - i].key, texts.missingField) &&
        r.value.values[i] == Finite(rows[|rows| - 1 - i].value)
  {
    match TopItemsOf(results, "l7Flow_request_referers")
    case None => None
    case Some(items) =>
      var rows := TopRows(items);
      Some(BarChart(texts.requests, Some(texts.requestsUnit),
                    BottomUp(rows, (row: TopItem) => RequestRefererLabel(row.key, texts.missingField)),
                    BottomUp(rows, (row: TopItem) => Finite(row.value)),
                    "#ec4899"))
  }

  // ------------------------------------------------------------ world map

  /** A point of the world map. */
  datatype MapPoint = MapPoint(name: string, value: real)

  /** What `updateTopMapChart` does: nothing, clear the chart (no world map loaded), or draw the points. */
  datatype MapOutcome = MapSkipped | MapCleared | MapDrawn(points: seq<MapPoint>, maxValue: real)

  /** The map name of a country code: the Chinese name for zh-Hans, the map's English name otherwise, else the code. */
  function MapName(locale: string, code: string, countryNames: map<string, string>, mapNames: map<string, string>): string {
    if locale == "zh-Hans" then TextOr(Get(countryNames, code), code) else TextOr(Get(mapNames, code), code)
  }

  /**
   * `updateTopMapChart`: every row of the country request list (not only the
   * top ten) becomes a point; the colour scale runs to the largest value, or
   * 0 for an empty list.
   */
  function TopMapChart(results: map<string, Processed>, locale: string, worldMapLoaded: bool,
                       countryNames: map<string, string>, mapNames: map<string, string>): (r: MapOutcome)
    ensures r.MapSkipped? <==> TopItemsOf(results, "l7Flow_request_country").None?
    ensures r.MapCleared? <==> TopItemsOf(results, "l7Flow_request_country").Some? && !worldMapLoaded
    ensures r.MapDrawn? ==> var items := results["l7Flow_request_country"].items;
      |r.points| == |items| &&
      (forall i :: 0 <= i < |items| ==> r.points[i] == MapPoint(MapName(locale, items[i].key, countryNames, mapNames), items[i].value)) &&
      (|items| == 0 ==> r.maxValue == 0.0) &&
      (forall i :: 0 <= i < |items| ==> items[i].value <= r.maxValue) &&
      (|items| > 0 ==> exists i :: 0 <= i < |items| && items[i].value == r.maxValue)
  {
    match TopItemsOf(results, "l7Flow_request_country")
    case None => MapSkipped
    case Some(items) =>
      if !worldMapLoaded then MapCleared
      else
        var points := seq(|items|, i requires 0 <= i < |items| => MapPoint(MapName(locale, items[i].key, countryNames, mapNames), items[i].value));
        var values := seq(|items|, i requires 0 <= i < |items| => items[i].value);
        var top := Largest(values);
        if top.Some? then
          assert forall i :: 0 <= i < |items| ==> values[i] == items[i].value;
          MapDrawn(points, top.value)
        else MapDrawn(points, 0.0)
  }

  // -------------------------------------------------------------- section

  /** How a chart of the section is drawn: generic with a name kind, or one of the two referer charts. */
  datatype Renderer = Generic(names: NameKind) | FluxReferers | RequestReferers

  /** The resolver a generic chart is given: country names, province names, or none. */
  datatype NameKind = RawKeys | RegionNames | ProvinceNames

  /** The section's charts in call order, with the metric each one draws. */
  const SectionPlan: seq<(string, Renderer)> := [
    ("l7Flow_outFlux_country", Generic(RegionNames)),
    ("l7Flow_outFlux_province", Generic(ProvinceNames)),
    ("l7Flow_outFlux_statusCode", Generic(RawKeys)),
    ("l7Flow_outFlux_domain", Generic(RawKeys)),
    ("l7Flow_outFlux_url", Generic(RawKeys)),
    ("l7Flow_outFlux_resourceType", Generic(RawKeys)),
    ("l7Flow_outFlux_sip", Generic(RawKeys)),
    ("l7Flow_outFlux_referers", FluxReferers),
    ("l7Flow_outFlux_ua_device", Generic(RawKeys)),
    ("l7Flow_outFlux_ua_browser", Generic(RawKeys)),
    ("l7Flow_outFlux_ua_os", Generic(RawKeys)),
    ("l7Flow_outFlux_ua", Generic(RawKeys)),
    ("l7Flow_request_country", Generic(RegionNames)),
    ("l7Flow_request_province", Generic(ProvinceNames)),
    ("l7Flow_request_statusCode", Generic(RawKeys)),
    ("l7Flow_request_domain", Generic(RawKeys)),
    ("l7Flow_request_url", Generic(RawKeys)),
    ("l7Flow_request_resourceType", Generic(RawKeys)),
    ("l7Flow_request_sip", Generic(RawKeys)),
    ("l7Flow_request_referers", RequestReferers),
    ("l7Flow_request_ua_device", Generic(RawKeys)),
    ("l7Flow_request_ua_browser", Generic(RawKeys)),
    ("l7Flow_request_ua_os", Generic(RawKeys)),
    ("l7Flow_request_ua", Generic(RawKeys))
  ]

  /** The section draws one chart for each top-analysis metric of the configuration, in the same order. */
  lemma SectionCoversTopAnalysis()
    ensures |SectionPlan| == |TopAnalysisMetrics|
    ensures forall k :: 0 <= k < |SectionPlan| ==> SectionPlan[k].0 == TopAnalysisMetrics[k]
  {
    OutFluxPlan();
    RequestPlan();
  }

  lemma OutFluxPlan()
    ensures forall k :: 0 <= k < 12 ==> SectionPlan[k].0 == TopAnalysisMetrics[k]
  {
  }

  lemma RequestPlan()
    ensures forall k :: 12 <= k < 24 ==> SectionPlan[k].0 == TopAnalysisMetrics[k]
  {
  }

  /** The name tables and platform answers the section's resolvers consult. */
  datatype NameTables = NameTables(countryNames: map<string, string>, mapNames: map<string, string>,
                                   provinceNames: map<string, string>, englishProvinces: map<string, string>,
                                   intl: string -> IntlRegion)

  /** The resolver a name kind stands for, in `locale`. */
  function ResolverOf(kind: NameKind, locale: string, tables: NameTables): Resolver {
    match kind
    case RawKeys => NoResolver
    case RegionNames => ByFunction(code => RegionDisplayName(locale, code, tables.countryNames, tables.mapNames, tables.intl(code)))
    case ProvinceNames => ByFunction(code => ProvinceDisplayName(locale, code, tables.provinceNames, tables.englishProvinces))
  }

  /** The chart one plan entry produces. */
  function ChartOf(entry: (string, Renderer), results: map<string, Processed>, locale: string,
                   tables: NameTables, texts: RefererTexts, requestsWord: string): Option<BarChart> {
    match entry.1
    case Generic(kind) => RenderTopChart(results, entry.0, ResolverOf(kind, locale, tables), locale, requestsWord)
    case FluxReferers => FluxRefererChart(results, texts)
    case RequestReferers => RequestRefererChart(results, texts)
  }

  /**
   * `updateTopAnalysisSection`: the world map, then one chart per plan entry;
   * a chart is drawn exactly when its metric's result is a top list.
   */
  function TopAnalysisSection(results: map<string, Processed>, locale: string, worldMapLoaded: bool,
                              tables: NameTables, texts: RefererTexts, requestsWord: string)
    : (r: (MapOutcome, seq<Option<BarChart>>))
    ensures |r.1| == |SectionPlan|
    ensures forall k :: 0 <= k < |SectionPlan| ==> (r.1[k].Some? <==> TopItemsOf(results, SectionPlan[k].0).Some?)
  {
    var charts := seq(|SectionPlan|, k requires 0 <= k < |SectionPlan| =>
                        ChartOf(SectionPlan[k], results, locale, tables, texts, requestsWord));
    assert forall k :: 0 <= k < |SectionPlan| ==> (charts[k].Some? <==> TopItemsOf(results, SectionPlan[k].0).Some?) by {
      forall k | 0 <= k < |SectionPlan|
        ensures charts[k].Some? <==> TopItemsOf(results, SectionPlan[k].0).Some?
      {
        PlanRenderers(k);
      }
    }
    (TopMapChart(results, locale, worldMapLoaded, tables.countryNames, tables.mapNames), charts)
  }

  /** The two referer entries draw exactly their own metrics. */
  lemma PlanRenderers(k: nat)
    requires k < |SectionPlan|
    ensures SectionPlan[k].1 == FluxReferers ==> SectionPlan[k].0 == "l7Flow_outFlux_referers"
    ensures SectionPlan[k].1 == RequestReferers ==> SectionPlan[k].0 == "l7Flow_request_referers"
  {
  }
}
