/**
 * The metric families the traffic route tells apart (`lib/metrics.js`), and
 * how they relate to the dashboard's own `metricsConfig`.
 */
module Metrics {
  import Constants
  import RefreshPlan

  /** `ORIGIN_PULL_METRICS`: the metrics of `DescribeTimingL7OriginPullData`. */
  const OriginPullFamily: seq<string> := [
    "l7Flow_outFlux_hy",
    "l7Flow_outBandwidth_hy",
    "l7Flow_request_hy",
    "l7Flow_inFlux_hy",
    "l7Flow_inBandwidth_hy"
  ]

  /** `TOP_ANALYSIS_METRICS`: the metrics of `DescribeTopL7AnalysisData`. */
  const TopAnalysisFamily: seq<string> := [
    "l7Flow_outFlux_country",
    "l7Flow_outFlux_province",
    "l7Flow_outFlux_statusCode",
    "l7Flow_outFlux_domain",
    "l7Flow_outFlux_url",
    "l7Flow_outFlux_resourceType",
    "l7Flow_outFlux_sip",
    "l7Flow_outFlux_referers",
    "l7Flow_outFlux_ua_device",
    "l7Flow_outFlux_ua_browser",
    "l7Flow_outFlux_ua_os",
    "l7Flow_outFlux_ua",
    "l7Flow_request_country",
    "l7Flow_request_province",
    "l7Flow_request_statusCode",
    "l7Flow_request_domain",
    "l7Flow_request_url",
    "l7Flow_request_resourceType",
    "l7Flow_request_sip",
    "l7Flow_request_referers",
    "l7Flow_request_ua_device",
    "l7Flow_request_ua_browser",
    "l7Flow_request_ua_os",
    "l7Flow_request_ua"
  ]

  /** `SECURITY_METRICS`: the metrics of `DescribeWebProtectionData`. */
  const SecurityFamily: seq<string> := ["ccAcl_interceptNum", "ccManage_interceptNum", "ccRate_interceptNum"]

  /** `FUNCTION_METRICS`: the metrics of `DescribeTimingFunctionAnalysisData`. */
  const FunctionFamily: seq<string> := ["function_requestCount", "function_cpuCostTime"]

  /** No metric belongs to two of the four lists. */
  lemma FamiliesDisjoint(m: string)
    ensures m in TopAnalysisFamily ==> m !in SecurityFamily && m !in FunctionFamily && m !in OriginPullFamily
    ensures m in SecurityFamily ==> m !in FunctionFamily && m !in OriginPullFamily
    ensures m in FunctionFamily ==> m !in OriginPullFamily
  {
  }

  /** The top-analysis, security and function lists hold exactly the dashboard's families of the same name. */
  lemma SameFamiliesAsDashboard()
    ensures (set m | m in TopAnalysisFamily) == set m | m in Constants.TopAnalysisMetrics
    ensures (set m | m in SecurityFamily) == set m | m in Constants.SecurityMetrics
    ensures (set m | m in FunctionFamily) == set m | m in Constants.EdgeFunctionsMetrics
  {
    assert TopAnalysisFamily == Constants.TopAnalysisMetrics;
  }

  /** The origin-pull list holds the dashboard's origin-pull family, listed in another order. */
  lemma OriginPullReordered()
    ensures (set m | m in OriginPullFamily) == set m | m in Constants.OriginPullMetrics
    ensures OriginPullFamily != Constants.OriginPullMetrics
  {
    assert OriginPullFamily[1] != Constants.OriginPullMetrics[1];
  }

  /** No metric of the dashboard's timing batch belongs to any of the four lists. */
  lemma TimingUnlisted(m: string)
    requires m in RefreshPlan.TimingMetrics
    ensures m !in TopAnalysisFamily && m !in SecurityFamily && m !in FunctionFamily && m !in OriginPullFamily
  {
    TimingNotTop(m);
    TimingNotSeries(m);
  }

  /** The top-analysis half of `TimingUnlisted`. */
  lemma TimingNotTop(m: string)
    requires m in RefreshPlan.TimingMetrics
    ensures m !in TopAnalysisFamily
  {
  }

  /** The time-series half of `TimingUnlisted`. */
  lemma TimingNotSeries(m: string)
    requires m in RefreshPlan.TimingMetrics
    ensures m !in SecurityFamily && m !in FunctionFamily && m !in OriginPullFamily
  {
  }
}
