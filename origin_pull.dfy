/**
 * The origin-pull section (assets/dashboard/charts/originPull.js): the
 * per-group maxima that choose the chart units, one KPI with its compare line
 * and one chart series per metric that has a time series, the x-axis labels,
 * and the cache-hit rate with its own compare line.
 */
module OriginPull {
  import opened Wrappers
  import opened JsText
  import opened JsValue
  import opened DashboardUtils
  import opened Compare
  import opened Api
  import opened Constants

  // ------------------------------------------------------------ metric groups

  /** The unit family of a metric: traffic in bytes, bandwidth in bits per second, request counts, or none. */
  datatype Group = FluxGroup | BandwidthGroup | RequestGroup | OtherGroup

  /** The group a metric name selects: the first of `Flux`, `Bandwidth` and `request` that it contains. */
  function GroupOf(metric: string): Group {
    if Contains(metric, "Flux") then FluxGroup
    else if Contains(metric, "Bandwidth") then BandwidthGroup
    else if Contains(metric, "request") then RequestGroup
    else OtherGroup
  }

  /** `results[metric]` is present and a time series: the only results the section draws. */
  predicate Drawn(results: map<string, Processed>, metric: string) {
    metric in results && results[metric].Time?
  }

  /** A drawn metric of group `g`. */
  predicate InGroup(results: map<string, Processed>, metric: string, g: Group) {
    Drawn(results, metric) && GroupOf(metric) == g
  }

  // ------------------------------------------------------------ group maxima

  /** One step of a group maximum: a drawn metric of the group raises it to its own largest value, if larger. */
  function Raise(prev: real, results: map<string, Processed>, metric: string, g: Group): real {
    if InGroup(results, metric, g) then
      match Largest(results[metric].valueData)
      case Some(x) => if x > prev then x else prev
      case None => prev
    else prev
  }

  /**
   * The maximum of group `g` after visiting `metrics` in order, starting at 0.
   * It is never negative, bounds every value of every drawn metric of the
   * group, and is either 0 or one of those values.
   */
  function GroupMax(results: map<string, Processed>, metrics: seq<string>, g: Group): (r: real)
    ensures r >= 0.0
    ensures forall i, j :: 0 <= i < |metrics| && InGroup(results, metrics[i], g) &&
                           0 <= j < |results[metrics[i]].valueData| ==>
                             results[metrics[i]].valueData[j] <= r
    ensures r == 0.0 || exists i, j :: 0 <= i < |metrics| && InGroup(results, metrics[i], g) &&
                                       0 <= j < |results[metrics[i]].valueData| && results[metrics[i]].valueData[j] == r
  {
    if |metrics| == 0 then 0.0
    else
      var init := metrics[..|metrics| - 1];
      var m := metrics[|metrics| - 1];
      var prev := GroupMax(results, init, g);
      assert forall i :: 0 <= i < |init| ==> init[i] == metrics[i];
      if InGroup(results, m, g) && Largest(results[m].valueData).Some? then
        var x := Largest(results[m].valueData).value;
        var k :| 0 <= k < |results[m].valueData| && results[m].valueData[k] == x;
        assert results[metrics[|metrics| - 1]].valueData[k] == x;
        Raise(prev, results, m, g)
      else Raise(prev, results, m, g)
  }

  /** Extending the visited prefix by one metric applies one `Raise`. */
  lemma GroupMaxStep(results: map<string, Processed>, metrics: seq<string>, k: nat, g: Group)
    requires k < |metrics|
    ensures GroupMax(results, metrics[..k + 1], g) == Raise(GroupMax(results, metrics[..k], g), results, metrics[k], g)
  {
    assert metrics[..k + 1][..k] == metrics[..k];
  }

  /** The first pass: the three group maxima, each starting from 0. */
  method GroupMaxima(results: map<string, Processed>, metrics: seq<string>)
    returns (maxFlux: real, maxBandwidth: real, maxRequests: real)
    ensures maxFlux == GroupMax(results, metrics, FluxGroup)
    ensures maxBandwidth == GroupMax(results, metrics, BandwidthGroup)
    ensures maxRequests == GroupMax(results, metrics, RequestGroup)
  {
    maxFlux, maxBandwidth, maxRequests := 0.0, 0.0, 0.0;
    for k := 0 to |metrics|
      invariant maxFlux == GroupMax(results, metrics[..k], FluxGroup)
      invariant maxBandwidth == GroupMax(results, metrics[..k], BandwidthGroup)
      invariant maxRequests == GroupMax(results, metrics[..k], RequestGroup)
    {
      var metric := metrics[k];
      GroupMaxStep(results, metrics, k, FluxGroup);
      GroupMaxStep(results, metrics, k, BandwidthGroup);
      GroupMaxStep(results, metrics, k, RequestGroup);
      if metric in results && results[metric].Time? {
        var max := Largest(results[metric].valueData);
        match GroupOf(metric)
        case FluxGroup =>
          if max.Some? && max.value > maxFlux {
            maxFlux := max.value;
          }
        case BandwidthGroup =>
          if max.Some? && max.value > maxBandwidth {
            maxBandwidth := max.value;
          }
        case RequestGroup =>
          if max.Some? && max.value > maxRequests {
            maxRequests := max.value;
          }
        case OtherGroup =>
      }
    }
    assert metrics[..|metrics|] == metrics;
  }

  // ------------------------------------------------------------ KPIs

  /** What a KPI shows: a byte or bit-rate size, a count, or the value in the locale's own notation. */
  datatype KpiText = SizeKpi(size: SizeText) | CountKpi(count: CountText) | LocaleKpi(value: real)

  /** A metric's KPI: its text and its compare line. */
  datatype Kpi = Kpi(metric: string, text: KpiText, compare: CompareLine)

  /** The field a KPI shows and compares: `max` for bandwidth metrics, `sum` for every other metric. */
  function KpiField(metric: string, p: Processed): real
    requires p.Time?
  {
    if GroupOf(metric) == BandwidthGroup then p.max else p.sum
  }

  /**
   * `compareResults?.[metric]?.sum` (or `.max`) as a number: NaN when there are
   * no compare results, the metric is missing, or its result is a top list.
   */
  function PreviousField(compareResults: Option<map<string, Processed>>, metric: string): (n: Num)
    ensures n.IsFinite() <==> compareResults.Some? && Drawn(compareResults.value, metric)
    ensures n.IsFinite() ==> n.value == KpiField(metric, compareResults.value[metric])
  {
    if compareResults.Some? && Drawn(compareResults.value, metric)
    then Finite(KpiField(metric, compareResults.value[metric]))
    else NaN
  }

  /** The KPI of a drawn metric. */
  function KpiOf(metric: string, p: Processed, compareResults: Option<map<string, Processed>>,
                 compareEnabled: bool): Kpi
    requires p.Time?
  {
    var text := match GroupOf(metric)
      case FluxGroup => SizeKpi(FormatBytes(Finite(p.sum)))
      case BandwidthGroup => SizeKpi(FormatBps(Finite(p.max)))
      case RequestGroup => CountKpi(FormatCount(Finite(p.sum)))
      case OtherGroup => LocaleKpi(p.sum);
    Kpi(metric, text, CompareDecision(Finite(KpiField(metric, p)), PreviousField(compareResults, metric), compareEnabled))
  }

  /**
   * Traffic and request KPIs show and compare `sum`; bandwidth KPIs show and
   * compare `max`; the compare line is hidden whenever the previous period has
   * no time series for the metric, and otherwise compares the same field.
   */
  lemma KpiFieldChoice(metric: string, p: Processed, compareResults: Option<map<string, Processed>>,
                       compareEnabled: bool)
    requires p.Time?
    ensures var k := KpiOf(metric, p, compareResults, compareEnabled);
      (GroupOf(metric) == FluxGroup ==> k.text == SizeKpi(FormatBytes(Finite(p.sum)))) &&
      (GroupOf(metric) == BandwidthGroup ==> k.text == SizeKpi(FormatBps(Finite(p.max)))) &&
      (GroupOf(metric) == RequestGroup ==> k.text == CountKpi(FormatCount(Finite(p.sum)))) &&
      (k.compare.Hidden? <==> !compareEnabled || compareResults.None? || !Drawn(compareResults.value, metric)) &&
      (k.compare.Shown? ==>
        k.compare == CompareDecision(Finite(KpiField(metric, p)),
                                     Finite(KpiField(metric, compareResults.value[metric])), true))
  {
  }

  // ------------------------------------------------------------ series

  /** How the tooltip formats a series' raw values. */
  datatype ValueKind = BytesKind | BpsKind | CountKind | NumberKind

  /** A line of the chart: legend name, colour, unit, divisor and the raw values it is drawn from. */
  datatype Series = Series(name: string, color: Option<string>, unit: string, divisor: int,
                           kind: ValueKind, rawData: seq<real>)

  /** The three units chosen from the group maxima; the byte and bit-rate picks always exist. */
  datatype Units = Units(flux: UnitPick, bandwidth: UnitPick, requests: CountUnit)

  predicate ValidUnits(u: Units) {
    u.flux.Pick? && u.bandwidth.Pick?
  }

  /** The series of a drawn metric: its group's unit and divisor (none and 1 for other metrics). */
  function SeriesOf(metric: string, p: Processed, units: Units, locale: string): Series
    requires p.Time? && ValidUnits(units)
  {
    var color := MetricColor(metric);
    var name := GetMetricLabel(metric, locale);
    match GroupOf(metric)
    case FluxGroup => Series(name, color, units.flux.unit, units.flux.divisor, BytesKind, p.valueData)
    case BandwidthGroup => Series(name, color, units.bandwidth.unit, units.bandwidth.divisor, BpsKind, p.valueData)
    case RequestGroup => Series(name, color, units.requests.unit, units.requests.divisor, CountKind, p.valueData)
    case OtherGroup => Series(name, color, "", 1, NumberKind, p.valueData)
  }

  // ------------------------------------------------------------ the section

  /** The metrics of `metrics` that are drawn, in order. */
  function DrawnMetrics(results: map<string, Processed>, metrics: seq<string>): (r: seq<string>)
    ensures forall k :: 0 <= k < |r| ==> r[k] in metrics && Drawn(results, r[k])
    ensures forall m :: m in metrics && Drawn(results, m) ==> m in r
    ensures |r| <= |metrics|
  {
    if |metrics| == 0 then []
    else
      var init := DrawnMetrics(results, metrics[..|metrics| - 1]);
      var m := metrics[|metrics| - 1];
      assert forall x :: x in metrics[..|metrics| - 1] ==> x in metrics;
      assert forall x :: x in metrics ==> x in metrics[..|metrics| - 1] || x == m;
      if Drawn(results, m) then init + [m] else init
  }

  /** One metric is kept exactly when it is drawn. */
  lemma DrawnMetricsOne(results: map<string, Processed>, m: string)
    ensures DrawnMetrics(results, [m]) == if Drawn(results, m) then [m] else []
  {
    assert [m][..0] == [];
  }

  /** The filter works piece by piece, so the drawn metrics keep the order of `metrics`. */
  lemma {:induction false} DrawnMetricsConcat(results: map<string, Processed>, a: seq<string>, b: seq<string>)
    ensures DrawnMetrics(results, a + b) == DrawnMetrics(results, a) + DrawnMetrics(results, b)
  {
    if |b| == 0 {
      assert a + b == a;
    } else {
      var b' := b[..|b| - 1];
      assert (a + b)[..|a + b| - 1] == a + b';
      assert (a + b)[|a + b| - 1] == b[|b| - 1];
      DrawnMetricsConcat(results, a, b');
    }
  }

  /**
   * The x-axis labels: the `timeData` of the first drawn metric whose labels
   * are not empty (each drawn metric replaces an axis that is still empty).
   */
  function Axis(results: map<string, Processed>, metrics: seq<string>): (r: seq<string>)
    requires forall k :: 0 <= k < |metrics| ==> metrics[k] in results && results[metrics[k]].Time?
    ensures r == [] <==> forall k :: 0 <= k < |metrics| ==> results[metrics[k]].timeData == []
    ensures r != [] ==> exists k :: 0 <= k < |metrics| && r == results[metrics[k]].timeData &&
                                    forall j :: 0 <= j < k ==> results[metrics[j]].timeData == []
  {
    if |metrics| == 0 then []
    else
      var init := metrics[..|metrics| - 1];
      assert forall k :: 0 <= k < |init| ==> init[k] == metrics[k];
      var prev := Axis(results, init);
      if prev == [] then results[metrics[|metrics| - 1]].timeData else prev
  }

  /** What the section shows. */
  datatype Section = Section(kpis: seq<Kpi>, timeData: seq<string>, series: seq<Series>,
                             hitRate: Num, hitRateCompare: CompareLine)

  /**
   * The units of the section, chosen from the group maxima of `metrics`: the
   * byte unit and the bit-rate unit are the largest powers of 1024 not above
   * their group's maximum (the first unit below 1024, PB at most), and the
   * count unit is the largest tier not above the request maximum.
   */
  function UnitsOf(results: map<string, Processed>, metrics: seq<string>, locale: string,
                   requestsWord: string): (u: Units)
    ensures ValidUnits(u)
    ensures var m := GroupMax(results, metrics, FluxGroup);
      u.flux.index < 6 && u.flux.unit == ByteUnits[u.flux.index] && u.flux.divisor == Pow1024(u.flux.index) &&
      (u.flux.index == 0 || u.flux.divisor as real <= m) && (u.flux.index == 5 || m < 1024.0 * u.flux.divisor as real)
    ensures var m := GroupMax(results, metrics, BandwidthGroup);
      u.bandwidth.index < 6 && u.bandwidth.unit == BitUnits[u.bandwidth.index] &&
      u.bandwidth.divisor == Pow1024(u.bandwidth.index) &&
      (u.bandwidth.index == 0 || u.bandwidth.divisor as real <= m) &&
      (u.bandwidth.index == 5 || m < 1024.0 * u.bandwidth.divisor as real)
    ensures var m := GroupMax(results, metrics, RequestGroup);
      u.requests.divisor in CountTiers(locale) && (u.requests.divisor == 1 || u.requests.divisor as real <= m) &&
      forall d :: d in CountTiers(locale) && d as real <= m ==> d <= u.requests.divisor
  {
    Units(GetBestUnit(Finite(GroupMax(results, metrics, FluxGroup)), false),
          GetBestUnit(Finite(GroupMax(results, metrics, BandwidthGroup)), true),
          GetBestCountUnit(locale, Finite(GroupMax(results, metrics, RequestGroup)), requestsWord))
  }

  /** The KPIs of the drawn metrics, in order. */
  function Kpis(results: map<string, Processed>, drawn: seq<string>, compareResults: Option<map<string, Processed>>,
                compareEnabled: bool): (r: seq<Kpi>)
    requires forall k :: 0 <= k < |drawn| ==> drawn[k] in results && results[drawn[k]].Time?
    ensures |r| == |drawn|
  {
    seq(|drawn|, k requires 0 <= k < |drawn| => KpiOf(drawn[k], results[drawn[k]], compareResults, compareEnabled))
  }

  /** The series of the drawn metrics, in order. */
  function SeriesList(results: map<string, Processed>, drawn: seq<string>, units: Units, locale: string): (r: seq<Series>)
    requires forall k :: 0 <= k < |drawn| ==> drawn[k] in results && results[drawn[k]].Time?
    requires ValidUnits(units)
    ensures |r| == |drawn|
  {
    seq(|drawn|, k requires 0 <= k < |drawn| => SeriesOf(drawn[k], results[drawn[k]], units, locale))
  }

  // ------------------------------------------------------------ cache-hit rate

  /** The origin-response traffic metric and the edge-response traffic metric the hit rate compares. */
  const OriginFluxMetric: string := "l7Flow_inFlux_hy"
  const EdgeFluxMetric: string := "l7Flow_outFlux"

  /**
   * `1 - origin.sum / edge.sum` when both results are present and the edge
   * sum is a positive number; otherwise `fallback` (0 for the current period,
   * NaN for the previous one, which `HitRateOf` passes as `None`). A present
   * origin result that is a top list has no `sum`, which makes the rate NaN.
   */
  function HitRateOf(results: Option<map<string, Processed>>, fallback: Num): (r: Num)
    ensures !(results.Some? && OriginFluxMetric in results.value && Drawn(results.value, EdgeFluxMetric) &&
              results.value[EdgeFluxMetric].sum > 0.0) ==>
            r == fallback
    ensures results.Some? && OriginFluxMetric in results.value && Drawn(results.value, EdgeFluxMetric) &&
            results.value[EdgeFluxMetric].sum > 0.0 ==>
            var origin := results.value[OriginFluxMetric];
            var e := results.value[EdgeFluxMetric].sum;
            (origin.Time? ==> r.Finite? && r.value * e == e - origin.sum) &&
            (origin.Top? ==> r == NaN)
  {
    if results.Some? && OriginFluxMetric in results.value && Drawn(results.value, EdgeFluxMetric) &&
       results.value[EdgeFluxMetric].sum > 0.0
    then
      var origin := results.value[OriginFluxMetric];
      if origin.Time? then Finite(1.0 - origin.sum / results.value[EdgeFluxMetric].sum) else NaN
    else fallback
  }

  /** The current hit rate: `1 - origin/edge` when the guard holds, 0 when it does not. */
  function HitRate(results: map<string, Processed>): (r: Num)
    ensures !(OriginFluxMetric in results && Drawn(results, EdgeFluxMetric) && results[EdgeFluxMetric].sum > 0.0) ==>
            r == Finite(0.0)
    ensures Drawn(results, OriginFluxMetric) && Drawn(results, EdgeFluxMetric) && results[EdgeFluxMetric].sum > 0.0 ==>
            r.Finite? && r.value * results[EdgeFluxMetric].sum ==
                         results[EdgeFluxMetric].sum - results[OriginFluxMetric].sum
  {
    HitRateOf(Some(results), Finite(0.0))
  }

  /** The previous hit rate: `1 - origin/edge` of the compare results when the guard holds for them, NaN otherwise. */
  function PreviousHitRate(compareResults: Option<map<string, Processed>>): (r: Num)
    ensures compareResults.None? ==> r == NaN
    ensures compareResults.Some? &&
            !(OriginFluxMetric in compareResults.value && Drawn(compareResults.value, EdgeFluxMetric) &&
              compareResults.value[EdgeFluxMetric].sum > 0.0) ==>
            r == NaN
    ensures compareResults.Some? && Drawn(compareResults.value, OriginFluxMetric) &&
            Drawn(compareResults.value, EdgeFluxMetric) && compareResults.value[EdgeFluxMetric].sum > 0.0 ==>
            r.Finite? && r.value * compareResults.value[EdgeFluxMetric].sum ==
                         compareResults.value[EdgeFluxMetric].sum - compareResults.value[OriginFluxMetric].sum
  {
    HitRateOf(compareResults, NaN)
  }

  /** The current hit rate is the share of edge traffic not pulled from the origin: 200 of 1000 bytes gives 0.8. */
  lemma HitRateExample()
    ensures var results := map[OriginFluxMetric := Time([], [200.0], 200.0, 200.0, 200.0),
                               EdgeFluxMetric := Time([], [1000.0], 1000.0, 1000.0, 1000.0)];
      HitRate(results) == Finite(0.8)
  {
    var results := map[OriginFluxMetric := Time([], [200.0], 200.0, 200.0, 200.0),
                       EdgeFluxMetric := Time([], [1000.0], 1000.0, 1000.0, 1000.0)];
    assert OriginFluxMetric != EdgeFluxMetric;
    assert results[OriginFluxMetric].sum == 200.0 && results[EdgeFluxMetric].sum == 1000.0;
  }

  /** A present origin result that is a top list makes the current rate NaN, not 0. */
  lemma HitRateTopOriginIsNaN(results: map<string, Processed>)
    requires OriginFluxMetric in results && results[OriginFluxMetric].Top?
    requires Drawn(results, EdgeFluxMetric) && results[EdgeFluxMetric].sum > 0.0
    ensures HitRate(results) == NaN
  {
  }

  /** The rate is not clamped: an origin sum above the edge sum gives a negative rate. */
  lemma HitRateNotClamped(results: map<string, Processed>)
    requires Drawn(results, OriginFluxMetric) && Drawn(results, EdgeFluxMetric)
    requires results[OriginFluxMetric].sum > results[EdgeFluxMetric].sum > 0.0
    ensures HitRate(results).Finite? && HitRate(results).value < 0.0
  {
    var o := results[OriginFluxMetric].sum;
    var e := results[EdgeFluxMetric].sum;
    assert o / e > 1.0 by {
      assert o / e * e == o;
    }
  }

  /** An origin sum between 0 and a positive edge sum gives a rate between 0 and 1. */
  lemma HitRateInUnitRange(results: map<string, Processed>)
    requires Drawn(results, OriginFluxMetric) && Drawn(results, EdgeFluxMetric)
    requires 0.0 <= results[OriginFluxMetric].sum <= results[EdgeFluxMetric].sum
    requires results[EdgeFluxMetric].sum > 0.0
    ensures HitRate(results).Finite? && 0.0 <= HitRate(results).value <= 1.0
  {
    var o := results[OriginFluxMetric].sum;
    var e := results[EdgeFluxMetric].sum;
    assert 0.0 <= o / e <= 1.0 by {
      assert o / e * e == o;
    }
  }

  /**
   * The hit-rate compare line is hidden whenever the previous period lacks
   * either result or its edge sum is not positive, since the previous rate is
   * then NaN.
   */
  lemma HitRateCompareHidden(results: map<string, Processed>, compareResults: Option<map<string, Processed>>,
                             compareEnabled: bool)
    requires !(compareResults.Some? && OriginFluxMetric in compareResults.value &&
               Drawn(compareResults.value, EdgeFluxMetric) && compareResults.value[EdgeFluxMetric].sum > 0.0)
    ensures CompareDecision(HitRate(results), PreviousHitRate(compareResults), compareEnabled) == Hidden
  {
  }

  /** `updateOriginPullSection` as a value: what it draws for the origin-pull metrics of `metricsConfig`. */
  function SectionOf(results: map<string, Processed>, compareResults: Option<map<string, Processed>>,
                     compareEnabled: bool, locale: string, requestsWord: string): Section
  {
    var drawn := DrawnMetrics(results, OriginPullMetrics);
    var units := UnitsOf(results, OriginPullMetrics, locale, requestsWord);
    Section(Kpis(results, drawn, compareResults, compareEnabled), Axis(results, drawn),
            SeriesList(results, drawn, units, locale), HitRate(results),
            CompareDecision(HitRate(results), PreviousHitRate(compareResults), compareEnabled))
  }

  /**
   * `updateOriginPullSection`: a first pass for the group maxima and the units
   * they select, a second pass that draws each metric, then the hit rates.
   */
  method UpdateOriginPullSection(results: map<string, Processed>, compareResults: Option<map<string, Processed>>,
                                 compareEnabled: bool, locale: string, requestsWord: string)
    returns (s: Section)
    ensures s == SectionOf(results, compareResults, compareEnabled, locale, requestsWord)
  {
    var maxFlux, maxBandwidth, maxRequests := GroupMaxima(results, OriginPullMetrics);
    var units := Units(GetBestUnit(Finite(maxFlux), false), GetBestUnit(Finite(maxBandwidth), true),
                       GetBestCountUnit(locale, Finite(maxRequests), requestsWord));
    var kpis, timeData, series := DrawMetrics(results, OriginPullMetrics, compareResults, compareEnabled, units, locale);
    var hitRate := HitRateOf(Some(results), Finite(0.0));
    var prevHitRate := HitRateOf(compareResults, NaN);
    s := Section(kpis, timeData, series, hitRate, CompareDecision(hitRate, prevHitRate, compareEnabled));
  }

  /** The second pass: a KPI and a series for each drawn metric, and the axis of the first one with labels. */
  method DrawMetrics(results: map<string, Processed>, metrics: seq<string>,
                     compareResults: Option<map<string, Processed>>, compareEnabled: bool, units: Units, locale: string)
    returns (kpis: seq<Kpi>, timeData: seq<string>, series: seq<Series>)
    requires ValidUnits(units)
    ensures kpis == Kpis(results, DrawnMetrics(results, metrics), compareResults, compareEnabled)
    ensures timeData == Axis(results, DrawnMetrics(results, metrics))
    ensures series == SeriesList(results, DrawnMetrics(results, metrics), units, locale)
  {
    kpis, timeData, series := [], [], [];
    for k := 0 to |metrics|
      invariant kpis == Kpis(results, DrawnMetrics(results, metrics[..k]), compareResults, compareEnabled)
      invariant series == SeriesList(results, DrawnMetrics(results, metrics[..k]), units, locale)
      invariant timeData == Axis(results, DrawnMetrics(results, metrics[..k]))
    {
      var metric := metrics[k];
      var before := DrawnMetrics(results, metrics[..k]);
      assert metrics[..k + 1][..k] == metrics[..k];
      if metric in results && results[metric].Time? {
        var data := results[metric];
        AppendKpi(results, before, metric, compareResults, compareEnabled);
        AppendSeries(results, before, metric, units, locale);
        AppendAxis(results, before, metric);
        kpis := kpis + [KpiOf(metric, data, compareResults, compareEnabled)];
        if timeData == [] {
          timeData := data.timeData;
        }
        series := series + [SeriesOf(metric, data, units, locale)];
      }
    }
    assert metrics[..|metrics|] == metrics;
  }

  /** Adding one drawn metric appends its KPI. */
  lemma AppendKpi(results: map<string, Processed>, drawn: seq<string>, metric: string,
                  compareResults: Option<map<string, Processed>>, compareEnabled: bool)
    requires forall k :: 0 <= k < |drawn| ==> drawn[k] in results && results[drawn[k]].Time?
    requires Drawn(results, metric)
    ensures Kpis(results, drawn + [metric], compareResults, compareEnabled) ==
      Kpis(results, drawn, compareResults, compareEnabled) + [KpiOf(metric, results[metric], compareResults, compareEnabled)]
  {
    var longer := drawn + [metric];
    assert forall k :: 0 <= k < |drawn| ==> longer[k] == drawn[k];
  }

  /** Adding one drawn metric appends its series. */
  lemma AppendSeries(results: map<string, Processed>, drawn: seq<string>, metric: string, units: Units, locale: string)
    requires forall k :: 0 <= k < |drawn| ==> drawn[k] in results && results[drawn[k]].Time?
    requires Drawn(results, metric) && ValidUnits(units)
    ensures SeriesList(results, drawn + [metric], units, locale) ==
      SeriesList(results, drawn, units, locale) + [SeriesOf(metric, results[metric], units, locale)]
  {
    var longer := drawn + [metric];
    assert forall k :: 0 <= k < |drawn| ==> longer[k] == drawn[k];
  }

  /** Adding one drawn metric fills an axis that is still empty. */
  lemma AppendAxis(results: map<string, Processed>, drawn: seq<string>, metric: string)
    requires forall k :: 0 <= k < |drawn| ==> drawn[k] in results && results[drawn[k]].Time?
    requires Drawn(results, metric)
    ensures Axis(results, drawn + [metric]) ==
      if Axis(results, drawn) == [] then results[metric].timeData else Axis(results, drawn)
  {
    assert (drawn + [metric])[..|drawn|] == drawn;
  }
}
