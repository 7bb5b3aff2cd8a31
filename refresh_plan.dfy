/**
 * The batches `refreshData` (assets/dashboard/main.js) requests from the
 * traffic API for one window: the timing, origin-pull and edge-function
 * families for the current and the previous period, and the security
 * family only when the window is short enough, its previous period only when
 * that period is still eligible for comparison.
 */
module RefreshPlan {
  import opened Wrappers
  import opened Civil
  import opened IsoDate
  import opened IsoRoundTrip
  import opened DashboardUtils
  import opened Compare
  import opened Constants
  import opened Api

  /** The longest window security metrics are fetched for: 14 days and one minute. */
  const SecuritySpanLimitMs: int := 14 * 24 * 60 * 60 * 1000 + 60000

  /**
   * `isSecuritySupported`: both ends parse and the end lies no more than 14
   * days and a minute after the start (a text that does not parse gives NaN,
   * and every comparison with NaN is false).
   */
  predicate SecuritySupported(range: TimeRange) {
    ParseDate(range.startTime).Some? && ParseDate(range.endTime).Some? &&
    ParseDate(range.endTime).value - ParseDate(range.startTime).value <= SecuritySpanLimitMs
  }

  /** The timing batch: traffic, bandwidth, requests and performance metrics, in that order. */
  const TimingMetrics: seq<string> := TrafficMetrics + BandwidthMetrics + RequestsMetrics + PerformanceMetrics

  /** One `fetchBatchData` call: its metrics, and the previous window it is asked for (none: the current window). */
  datatype Fetch = Fetch(metrics: seq<string>, previous: Option<TimeRange>)

  /** The eight slots of the `Promise.all` in `refreshData`; a slot with no fetch resolves to `null`. */
  datatype Plan = Plan(
    timing: Fetch, timingPrev: Option<Fetch>,
    originPull: Fetch, originPullPrev: Option<Fetch>,
    functions: Fetch, functionsPrev: Option<Fetch>,
    security: Option<Fetch>, securityPrev: Option<Fetch>)

  /** The previous-period fetch of a family: present exactly when the previous range is. */
  function PreviousFetch(metrics: seq<string>, prevRange: Option<TimeRange>): (r: Option<Fetch>)
    ensures r.Some? <==> prevRange.Some?
    ensures r.Some? ==> r.value.metrics == metrics && r.value.previous == prevRange
  {
    match prevRange
    case Some(_) => Some(Fetch(metrics, prevRange))
    case None => None
  }

  /**
   * The requests of `refreshData` for the window `range` chosen under
   * `rangeKey`, at time `nowMs`.
   */
  function PlanRefresh(range: TimeRange, rangeKey: string, nowMs: int): (p: Plan)
    ensures var prev := CalculatePreviousTimeRange(range.startTime, range.endTime, rangeKey);
      p.timing.metrics == TimingMetrics && p.originPull.metrics == OriginPullMetrics &&
      p.functions.metrics == EdgeFunctionsMetrics &&
      p.timing.previous.None? && p.originPull.previous.None? && p.functions.previous.None? &&
      p.timingPrev == PreviousFetch(TimingMetrics, prev) &&
      p.originPullPrev == PreviousFetch(OriginPullMetrics, prev) &&
      p.functionsPrev == PreviousFetch(EdgeFunctionsMetrics, prev)
    ensures p.security.Some? <==> SecuritySupported(range)
    ensures p.security.Some? ==> p.security.value == Fetch(SecurityMetrics, None)
    ensures p.securityPrev.Some? <==>
      SecuritySupported(range) &&
      CalculatePreviousTimeRange(range.startTime, range.endTime, rangeKey).Some? &&
      IsSecurityCompareAllowed(CalculatePreviousTimeRange(range.startTime, range.endTime, rangeKey).value.startTime, nowMs)
    ensures p.securityPrev.Some? ==>
      (p.security.Some? &&
       p.securityPrev.value == Fetch(SecurityMetrics, CalculatePreviousTimeRange(range.startTime, range.endTime, rangeKey)))
  {
    var prev := CalculatePreviousTimeRange(range.startTime, range.endTime, rangeKey);
    var securityCompare := prev.Some? && IsSecurityCompareAllowed(prev.value.startTime, nowMs);
    var security := if SecuritySupported(range) then SecurityMetrics else [];
    Plan(
      Fetch(TimingMetrics, None), PreviousFetch(TimingMetrics, prev),
      Fetch(OriginPullMetrics, None), PreviousFetch(OriginPullMetrics, prev),
      Fetch(EdgeFunctionsMetrics, None), PreviousFetch(EdgeFunctionsMetrics, prev),
      if |security| > 0 then Some(Fetch(security, None)) else None,
      if |security| > 0 && securityCompare then Some(Fetch(security, prev)) else None)
  }

  /**
   * Every fixed span is a whole number of seconds, and only `31d` exceeds the
   * security limit (`14d` lies inside it; the extra minute is not needed for it).
   * With `NamedWindows` and `SpanSecurityGate`: security metrics are fetched
   * for every fixed key except `31d`.
   */
  lemma FixedSpansInSeconds(rangeKey: string)
    requires rangeKey in FixedSpans
    ensures FixedSpans[rangeKey] % 1000 == 0
    ensures FixedSpans[rangeKey] <= SecuritySpanLimitMs <==> rangeKey != "31d"
  {
  }

  /**
   * A window of whole seconds reads back, through `formatDate`, to exactly
   * its length, so the security gate compares that length with the limit.
   */
  lemma SpanSecurityGate(startMs: int, endMs: int)
    requires (endMs - startMs) % 1000 == 0
    requires 0 <= Breakdown(startMs).date.year <= 9999
    requires 0 <= Breakdown(endMs).date.year <= 9999
    ensures SecuritySupported(WindowText(Window(startMs, endMs))) <==> endMs - startMs <= SecuritySpanLimitMs
  {
    FormattedSpan(startMs, endMs);
  }

  /** Two instants a whole number of seconds apart read back, through `formatDate`, exactly that far apart. */
  lemma FormattedSpan(startMs: int, endMs: int)
    requires (endMs - startMs) % 1000 == 0
    requires 0 <= Breakdown(startMs).date.year <= 9999
    requires 0 <= Breakdown(endMs).date.year <= 9999
    ensures ParseDate(FormatDate(startMs)).Some? && ParseDate(FormatDate(endMs)).Some?
    ensures ParseDate(FormatDate(endMs)).value - ParseDate(FormatDate(startMs)).value == endMs - startMs
  {
    ParseFormatDate(startMs);
    ParseFormatDate(endMs);
    SameMillis(startMs, endMs);
  }

  /** Two instants a whole number of seconds apart are as far apart once both are truncated to the second. */
  lemma SameMillis(a: int, b: int)
    requires (b - a) % 1000 == 0
    ensures (b - b % 1000) - (a - a % 1000) == b - a
  {
  }

  // ------------------------------------------------------------ what the batches produce

  /** What the `Promise.all` slot of a fetch resolves to: the batch answer, or `null` for a skipped slot. */
  function Answer(f: Option<Fetch>, answer: Fetch -> Option<RawResponse>): (r: Option<RawResponse>)
    ensures f.None? ==> r.None?
    ensures f.Some? ==> r == answer(f.value)
  {
    match f
    case Some(fetch) => answer(fetch)
    case None => None
  }

  /**
   * What one extraction loop writes for one batch response: every metric of
   * the family normalised from the response when it arrived
   * (`if (timingRes) results[m] = processData(timingRes, m)`), nothing when the
   * response is `null`.
   */
  function Extracted(response: Option<RawResponse>, metrics: seq<string>, ctx: LabelContext): (r: map<string, Processed>)
    ensures response.None? ==> r == map[]
    ensures r.Keys <= set m | m in metrics
    ensures response.Some? ==> r.Keys == set m | m in metrics
    ensures response.Some? ==> forall m :: m in metrics ==> r[m] == Process(response.value, m, ctx)
  {
    match response
    case Some(res) => map m | m in metrics :: Process(res, m, ctx)
    case None => map[]
  }

  /** `securityMetrics`: the security family when it is fetched, otherwise empty. */
  function SecurityBatch(p: Plan): seq<string> {
    if p.security.Some? then p.security.value.metrics else []
  }

  /** `results` after the four extraction loops: the current-window batches, family by family. */
  function CurrentResults(p: Plan, answer: Fetch -> Option<RawResponse>, ctx: LabelContext): map<string, Processed> {
    Extracted(answer(p.timing), p.timing.metrics, ctx) +
    Extracted(answer(p.originPull), p.originPull.metrics, ctx) +
    Extracted(answer(p.functions), p.functions.metrics, ctx) +
    Extracted(Answer(p.security, answer), SecurityBatch(p), ctx)
  }

  /** `compareResults` after the four extraction loops: the previous-period batches, family by family. */
  function PreviousResults(p: Plan, answer: Fetch -> Option<RawResponse>, ctx: LabelContext): map<string, Processed> {
    Extracted(Answer(p.timingPrev, answer), p.timing.metrics, ctx) +
    Extracted(Answer(p.originPullPrev, answer), p.originPull.metrics, ctx) +
    Extracted(Answer(p.functionsPrev, answer), p.functions.metrics, ctx) +
    Extracted(Answer(p.securityPrev, answer), SecurityBatch(p), ctx)
  }

  /** The metrics a refresh can produce results for: every time-series family of `metricsConfig`. */
  ghost const CoreMetricSet: set<string> :=
    (set m | m in TimingMetrics) + (set m | m in OriginPullMetrics) +
    (set m | m in EdgeFunctionsMetrics) + (set m | m in SecurityMetrics)

  /** A refresh only ever fills in time-series metrics, never a top-analysis one. */
  lemma RefreshKeys(p: Plan, range: TimeRange, rangeKey: string, nowMs: int,
                    answer: Fetch -> Option<RawResponse>, ctx: LabelContext)
    requires p == PlanRefresh(range, rangeKey, nowMs)
    ensures CurrentResults(p, answer, ctx).Keys <= CoreMetricSet
    ensures PreviousResults(p, answer, ctx).Keys <= CoreMetricSet
  {
    assert (set m | m in SecurityBatch(p)) <= set m | m in SecurityMetrics;
  }

  /**
   * Security results for the previous period exist only when the window was
   * short enough, a previous range exists and its start is still eligible;
   * the other families never hold a security metric.
   */
  lemma SecurityComparedOnlyWhenEligible(range: TimeRange, rangeKey: string, nowMs: int,
                                         answer: Fetch -> Option<RawResponse>, ctx: LabelContext, m: string)
    requires m in SecurityMetrics
    requires m in PreviousResults(PlanRefresh(range, rangeKey, nowMs), answer, ctx)
    ensures SecuritySupported(range)
    ensures CalculatePreviousTimeRange(range.startTime, range.endTime, rangeKey).Some?
    ensures IsSecurityCompareAllowed(CalculatePreviousTimeRange(range.startTime, range.endTime, rangeKey).value.startTime, nowMs)
  {
    var p := PlanRefresh(range, rangeKey, nowMs);
    SecurityApart(m);
    assert m in Extracted(Answer(p.securityPrev, answer), SecurityBatch(p), ctx);
  }

  /**
   * The security results of the current window exist only when the window
   * is at most 14 days and a minute long.
   */
  lemma SecurityFetchedOnlyForShortWindows(range: TimeRange, rangeKey: string, nowMs: int,
                                           answer: Fetch -> Option<RawResponse>, ctx: LabelContext, m: string)
    requires m in SecurityMetrics
    requires m in CurrentResults(PlanRefresh(range, rangeKey, nowMs), answer, ctx)
    ensures SecuritySupported(range)
  {
    var p := PlanRefresh(range, rangeKey, nowMs);
    SecurityApart(m);
    assert m in Extracted(Answer(p.security, answer), SecurityBatch(p), ctx);
  }

  /** No security metric belongs to another family of the refresh. */
  lemma SecurityApart(m: string)
    requires m in SecurityMetrics
    ensures m !in TimingMetrics && m !in OriginPullMetrics && m !in EdgeFunctionsMetrics
  {
  }
}
