/**
 * The dashboard's static tables (assets/dashboard/constants.js): the metric
 * families of `metricsConfig`, the two metric-label tables, the metric
 * colours, `getMetricLabel`, and the construction of `worldNameMap`.
 */
module Constants {
  import opened Wrappers

  // ------------------------------------------------------------ metricsConfig
  const TrafficMetrics: seq<string> := ["l7Flow_flux", "l7Flow_inFlux", "l7Flow_outFlux"]
  const BandwidthMetrics: seq<string> := ["l7Flow_bandwidth", "l7Flow_inBandwidth", "l7Flow_outBandwidth"]
  const OriginPullMetrics: seq<string> := ["l7Flow_outFlux_hy", "l7Flow_inFlux_hy", "l7Flow_outBandwidth_hy", "l7Flow_inBandwidth_hy", "l7Flow_request_hy"]
  const RequestsMetrics: seq<string> := ["l7Flow_request"]
  const PerformanceMetrics: seq<string> := ["l7Flow_avgResponseTime", "l7Flow_avgFirstByteResponseTime"]
  const EdgeFunctionsMetrics: seq<string> := ["function_requestCount", "function_cpuCostTime"]
  const SecurityMetrics: seq<string> := ["ccAcl_interceptNum", "ccManage_interceptNum", "ccRate_interceptNum"]
  const TopAnalysisMetrics: seq<string> := [
    "l7Flow_outFlux_country",
    "l7Flow_outFlux_province",
    "l7Flow_outFlux_statusCode",
    "l7Flow_outFlux_domain",
    "l7Flow_outFlux_url",
    "l7Flow_outFlux_resourceType",
    "l7Flow_outFlux_sip",
    "l7Flow_outFlux_referers",
    "l7Flow_outFlux_ua_device",
    "l7Flow_outFlux_ua_browser",
    "l7Flow_outFlux_ua_os",
    "l7Flow_outFlux_ua",
    "l7Flow_request_country",
    "l7Flow_request_province",
    "l7Flow_request_statusCode",
    "l7Flow_request_domain",
    "l7Flow_request_url",
    "l7Flow_request_resourceType",
    "l7Flow_request_sip",
    "l7Flow_request_referers",
    "l7Flow_request_ua_device",
    "l7Flow_request_ua_browser",
    "l7Flow_request_ua_os",
    "l7Flow_request_ua"
  ]

  /** The eight families of `metricsConfig`, in declaration order. */
  const ConfigFamilies: seq<seq<string>> :=
    [TrafficMetrics, BandwidthMetrics, OriginPullMetrics, RequestsMetrics,
     PerformanceMetrics, EdgeFunctionsMetrics, SecurityMetrics, TopAnalysisMetrics]

  /** A metric some family of `metricsConfig` lists. */
  predicate IsConfigured(m: string) {
    exists i :: 0 <= i < |ConfigFamilies| && m in ConfigFamilies[i]
  }

  // ------------------------------------------------------------ label and colour tables

  /**
   * Property lookup `table[key]` on a JavaScript object literal written as its
   * entries in source order: the value of the last entry for `key`, or none
   * (`undefined`) when no entry has that key.
   */
  function Lookup(entries: seq<(string, string)>, key: string): (r: Option<string>)
    ensures r.Some? <==> exists i :: 0 <= i < |entries| && entries[i].0 == key
    ensures r.Some? ==> exists i :: 0 <= i < |entries| && entries[i] == (key, r.value)
  {
    if |entries| == 0 then None
    else
      var last := entries[|entries| - 1];
      var init := entries[..|entries| - 1];
      assert forall i :: 0 <= i < |init| ==> init[i] == entries[i];
      if last.0 == key then Some(last.1) else Lookup(init, key)
  }

  /** The Chinese metric labels (`metricLabelsZhHans`), entry by entry. */
  const LabelsZhHansEntries: seq<(string, string)> := [
    ("l7Flow_flux", "总流量"),
    ("l7Flow_inFlux", "客户端请求流量"),
    ("l7Flow_outFlux", "响应流量"),
    ("l7Flow_bandwidth", "总带宽"),
    ("l7Flow_inBandwidth", "请求带宽"),
    ("l7Flow_outBandwidth", "响应带宽"),
    ("l7Flow_outFlux_hy", "回源请求流量"),
    ("l7Flow_inFlux_hy", "回源响应流量"),
    ("l7Flow_outBandwidth_hy", "回源请求带宽"),
    ("l7Flow_inBandwidth_hy", "回源响应带宽"),
    ("l7Flow_request_hy", "回源请求数"),
    ("l7Flow_request", "请求数"),
    ("l7Flow_avgResponseTime", "平均响应耗时"),
    ("l7Flow_avgFirstByteResponseTime", "平均首字节耗时"),
    ("function_requestCount", "Edge Functions 请求数"),
    ("function_cpuCostTime", "Edge Functions CPU 时间"),
    ("ccAcl_interceptNum", "精确防护拦截"),
    ("ccManage_interceptNum", "托管规则拦截"),
    ("ccRate_interceptNum", "速率限制拦截"),
    ("l7Flow_outFlux_country", "国家/地区流量"),
    ("l7Flow_outFlux_province", "国内省份流量"),
    ("l7Flow_outFlux_statusCode", "状态码流量"),
    ("l7Flow_outFlux_domain", "域名流量"),
    ("l7Flow_outFlux_url", "URL 流量"),
    ("l7Flow_outFlux_resourceType", "资源类型流量"),
    ("l7Flow_outFlux_sip", "客户端IP流量"),
    ("l7Flow_outFlux_referers", "Referer 流量"),
    ("l7Flow_outFlux_ua_device", "设备类型流量"),
    ("l7Flow_outFlux_ua_browser", "浏览器流量"),
    ("l7Flow_outFlux_ua_os", "操作系统流量"),
    ("l7Flow_outFlux_ua", "User Agent 流量"),
    ("l7Flow_request_country", "国家/地区请求数"),
    ("l7Flow_request_province", "国内省份请求数"),
    ("l7Flow_request_statusCode", "状态码请求数"),
    ("l7Flow_request_domain", "域名请求数"),
    ("l7Flow_request_url", "URL 请求数"),
    ("l7Flow_request_resourceType", "资源类型请求数"),
    ("l7Flow_request_sip", "客户端IP请求数"),
    ("l7Flow_request_referers", "Referer 请求数"),
    ("l7Flow_request_ua_device", "设备类型请求数"),
    ("l7Flow_request_ua_browser", "浏览器请求数"),
    ("l7Flow_request_ua_os", "操作系统请求数"),
    ("l7Flow_request_ua", "User Agent 请求数")
  ]

  /** The English metric labels (`metricLabelsEnUS`), entry by entry. */
  const LabelsEnUSEntries: seq<(string, string)> := [
    ("l7Flow_flux", "Total traffic"),
    ("l7Flow_inFlux", "Client request traffic"),
    ("l7Flow_outFlux", "Response traffic"),
    ("l7Flow_bandwidth", "Total bandwidth"),
    ("l7Flow_inBandwidth", "Request bandwidth"),
    ("l7Flow_outBandwidth", "Response bandwidth"),
    ("l7Flow_outFlux_hy", "Origin request traffic"),
    ("l7Flow_inFlux_hy", "Origin response traffic"),
    ("l7Flow_outBandwidth_hy", "Origin request bandwidth"),
    ("l7Flow_inBandwidth_hy", "Origin response bandwidth"),
    ("l7Flow_request_hy", "Origin requests"),
    ("l7Flow_request", "Requests"),
    ("l7Flow_avgResponseTime", "Avg response time"),
    ("l7Flow_avgFirstByteResponseTime", "Avg TTFB"),
    ("function_requestCount", "Edge Functions requests"),
    ("function_cpuCostTime", "Edge Functions CPU time"),
    ("ccAcl_interceptNum", "Precise protection hits"),
    ("ccManage_interceptNum", "Managed rules hits"),
    ("ccRate_interceptNum", "Rate limiting hits"),
    ("l7Flow_outFlux_country", "Traffic by country/region"),
    ("l7Flow_outFlux_province", "Traffic by province"),
    ("l7Flow_outFlux_statusCode", "Traffic by status code"),
    ("l7Flow_outFlux_domain", "Traffic by domain"),
    ("l7Flow_outFlux_url", "Traffic by URL"),
    ("l7Flow_outFlux_resourceType", "Traffic by resource type"),
    ("l7Flow_outFlux_sip", "Traffic by client IP"),
    ("l7Flow_outFlux_referers", "Traffic by referer"),
    ("l7Flow_outFlux_ua_device", "Traffic by device type"),
    ("l7Flow_outFlux_ua_browser", "Traffic by browser"),
    ("l7Flow_outFlux_ua_os", "Traffic by OS"),
    ("l7Flow_outFlux_ua", "Traffic by User Agent"),
    ("l7Flow_request_country", "Requests by country/region"),
    ("l7Flow_request_province", "Requests by province"),
    ("l7Flow_request_statusCode", "Requests by status code"),
    ("l7Flow_request_domain", "Requests by domain"),
    ("l7Flow_request_url", "Requests by URL"),
    ("l7Flow_request_resourceType", "Requests by resource type"),
    ("l7Flow_request_sip", "Requests by client IP"),
    ("l7Flow_request_referers", "Requests by referer"),
    ("l7Flow_request_ua_device", "Requests by device type"),
    ("l7Flow_request_ua_browser", "Requests by browser"),
    ("l7Flow_request_ua_os", "Requests by OS"),
    ("l7Flow_request_ua", "Requests by User Agent")
  ]

  /** The chart colour of each metric (`metricColors`), entry by entry. */
  const MetricColorsEntries: seq<(string, string)> := [
    ("l7Flow_flux", "#3b82f6"),
    ("l7Flow_inFlux", "#f59e0b"),
    ("l7Flow_outFlux", "#10b981"),
    ("l7Flow_bandwidth", "#8b5cf6"),
    ("l7Flow_inBandwidth", "#ec4899"),
    ("l7Flow_outBandwidth", "#06b6d4"),
    ("l7Flow_outFlux_hy", "#3b82f6"),
    ("l7Flow_inFlux_hy", "#10b981"),
    ("l7Flow_outBandwidth_hy", "#8b5cf6"),
    ("l7Flow_inBandwidth_hy", "#ec4899"),
    ("l7Flow_request_hy", "#f43f5e"),
    ("l7Flow_request", "#f43f5e"),
    ("l7Flow_avgResponseTime", "#ef4444"),
    ("l7Flow_avgFirstByteResponseTime", "#f97316"),
    ("function_requestCount", "#8b5cf6"),
    ("function_cpuCostTime", "#06b6d4"),
    ("ccAcl_interceptNum", "#ef4444"),
    ("ccManage_interceptNum", "#f59e0b"),
    ("ccRate_interceptNum", "#3b82f6"),
    ("l7Flow_outFlux_country", "#3b82f6"),
    ("l7Flow_outFlux_province", "#f59e0b"),
    ("l7Flow_outFlux_statusCode", "#8b5cf6"),
    ("l7Flow_outFlux_domain", "#06b6d4"),
    ("l7Flow_outFlux_url", "#10b981"),
    ("l7Flow_outFlux_resourceType", "#f59e0b"),
    ("l7Flow_outFlux_sip", "#ef4444"),
    ("l7Flow_outFlux_referers", "#8b5cf6"),
    ("l7Flow_outFlux_ua_device", "#06b6d4"),
    ("l7Flow_outFlux_ua_browser", "#f59e0b"),
    ("l7Flow_outFlux_ua_os", "#10b981"),
    ("l7Flow_outFlux_ua", "#8b5cf6"),
    ("l7Flow_request_country", "#3b82f6"),
    ("l7Flow_request_province", "#f59e0b"),
    ("l7Flow_request_statusCode", "#8b5cf6"),
    ("l7Flow_request_domain", "#06b6d4"),
    ("l7Flow_request_url", "#10b981"),
    ("l7Flow_request_resourceType", "#f59e0b"),
    ("l7Flow_request_sip", "#8b5cf6"),
    ("l7Flow_request_referers", "#ec4899"),
    ("l7Flow_request_ua_device", "#06b6d4"),
    ("l7Flow_request_ua_browser", "#10b981"),
    ("l7Flow_request_ua_os", "#f59e0b"),
    ("l7Flow_request_ua", "#8b5cf6")
  ]

  /**
   * `getMetricLabel`: the English table for `en-US`, the Chinese table for
   * every other locale, and the metric name itself when the table has no
   * (non-empty) label.
   */
  function GetMetricLabel(metric: string, locale: string): (r: string)
    ensures r == metric || (r != "" && exists i :: 0 <= i < |LabelTable(locale)| && LabelTable(locale)[i] == (metric, r))
    ensures (forall i :: 0 <= i < |LabelTable(locale)| && LabelTable(locale)[i].0 == metric ==> LabelTable(locale)[i].1 == "") ==> r == metric
    ensures var text := Lookup(LabelTable(locale), metric); text.Some? && text.value != "" ==> r == text.value
  {
    var text := Lookup(LabelTable(locale), metric);
    if text.Some? && text.value != "" then text.value else metric
  }

  /** The label table `getMetricLabel` consults for `locale`. */
  function LabelTable(locale: string): seq<(string, string)> {
    if locale == "en-US" then LabelsEnUSEntries else LabelsZhHansEntries
  }

  /** Every label of `entries` is non-empty and differs from its key. */
  predicate ProperLabels(entries: seq<(string, string)>) {
    forall i :: 0 <= i < |entries| ==> entries[i].1 != "" && entries[i].1 != entries[i].0
  }

  lemma LabelsZhHansProper() ensures ProperLabels(LabelsZhHansEntries) {}
  lemma LabelsEnUSProper() ensures ProperLabels(LabelsEnUSEntries) {}

  /** Every metric of `metricsConfig` has a label in both tables and a colour. */
  lemma ConfiguredInTables(metric: string)
    requires IsConfigured(metric)
    ensures InTables(metric)
  {
    var f :| 0 <= f < |ConfigFamilies| && metric in ConfigFamilies[f];
    var k :| 0 <= k < |ConfigFamilies[f]| && ConfigFamilies[f][k] == metric;
    FamilyIsTabled(f);
  }

  lemma FamilyIsTabled(f: nat)
    requires f < |ConfigFamilies|
    ensures Tabled(ConfigFamilies[f])
  {
    ConfigComplete();
    if f < 4 {
      assert ConfigFamilies[f] in [TrafficMetrics, BandwidthMetrics, OriginPullMetrics, RequestsMetrics];
    } else {
      assert ConfigFamilies[f] in [PerformanceMetrics, EdgeFunctionsMetrics, SecurityMetrics, TopAnalysisMetrics];
    }
  }

  /**
   * Every metric of `metricsConfig` is shown with its own label: the English
   * one under `en-US`, the Chinese one under any other locale, and never the
   * bare metric name.
   */
  lemma ConfiguredMetricLabel(metric: string, locale: string)
    requires IsConfigured(metric)
    ensures locale == "en-US" ==>
      Lookup(LabelsEnUSEntries, metric).Some? && GetMetricLabel(metric, locale) == Lookup(LabelsEnUSEntries, metric).value
    ensures locale != "en-US" ==>
      Lookup(LabelsZhHansEntries, metric).Some? && GetMetricLabel(metric, locale) == Lookup(LabelsZhHansEntries, metric).value
    ensures GetMetricLabel(metric, locale) != metric
  {
    ConfiguredInTables(metric);
    LabelsZhHansProper();
    LabelsEnUSProper();
    var table := LabelTable(locale);
    var text := Lookup(table, metric);
    var j :| 0 <= j < |table| && table[j] == (metric, text.value);
    assert ProperLabels(table);
  }

  /** `metricColors[metric]`: the metric's chart colour, if it has one. */
  function MetricColor(metric: string): Option<string> {
    Lookup(MetricColorsEntries, metric)
  }

  /** `metric` has an entry in both label tables and a colour. */
  predicate InTables(metric: string) {
    Lookup(LabelsZhHansEntries, metric).Some? && Lookup(LabelsEnUSEntries, metric).Some? &&
    MetricColor(metric).Some?
  }

  /** Every metric of `ms` is in the tables. */
  predicate Tabled(ms: seq<string>) {
    forall k :: 0 <= k < |ms| ==> InTables(ms[k])
  }

  /** The metrics of `ms` are the keys of `entries` from position `offset` on, in order. */
  predicate ListedAt(ms: seq<string>, entries: seq<(string, string)>, offset: nat) {
    offset + |ms| <= |entries| && forall k :: 0 <= k < |ms| ==> entries[offset + k].0 == ms[k]
  }

  /** Metrics listed as keys of an object literal's entries are found in the object. */
  lemma ListedInObject(ms: seq<string>, entries: seq<(string, string)>, offset: nat)
    requires ListedAt(ms, entries, offset)
    ensures forall k :: 0 <= k < |ms| ==> Lookup(entries, ms[k]).Some?
  {
    forall k | 0 <= k < |ms|
      ensures Lookup(entries, ms[k]).Some?
    {
      assert entries[offset + k].0 == ms[k];
    }
  }

  /** Where each family of `metricsConfig` starts in the (identically ordered) tables. */
  const FamilyOffsets: seq<nat> := [0, 3, 6, 11, 12, 14, 16, 19]

  /** A family listed in all three tables is covered by them. */
  lemma FamilyTabled(i: nat)
    requires i < |ConfigFamilies|
    requires ListedAt(ConfigFamilies[i], LabelsZhHansEntries, FamilyOffsets[i])
    requires ListedAt(ConfigFamilies[i], LabelsEnUSEntries, FamilyOffsets[i])
    requires ListedAt(ConfigFamilies[i], MetricColorsEntries, FamilyOffsets[i])
    ensures Tabled(ConfigFamilies[i])
  {
    ListedInObject(ConfigFamilies[i], LabelsZhHansEntries, FamilyOffsets[i]);
    ListedInObject(ConfigFamilies[i], LabelsEnUSEntries, FamilyOffsets[i]);
    ListedInObject(ConfigFamilies[i], MetricColorsEntries, FamilyOffsets[i]);
  }

  /** Every family of `metricsConfig` is fully covered by the label and colour tables. */
  lemma ConfigComplete()
    ensures Tabled(TrafficMetrics) && Tabled(BandwidthMetrics) && Tabled(OriginPullMetrics)
    ensures Tabled(RequestsMetrics) && Tabled(PerformanceMetrics) && Tabled(EdgeFunctionsMetrics)
    ensures Tabled(SecurityMetrics) && Tabled(TopAnalysisMetrics)
  {
    TrafficTabled();
    BandwidthTabled();
    OriginPullTabled();
    RequestsTabled();
    PerformanceTabled();
    EdgeFunctionsTabled();
    SecurityTabled();
    TopAnalysisTabled();
  }

  lemma TrafficTabled()
    ensures Tabled(TrafficMetrics)
  {
    LabelsZhHansTraffic();
    LabelsEnUSTraffic();
    MetricColorsTraffic();
    FamilyTabled(0);
  }

  lemma BandwidthTabled()
    ensures Tabled(BandwidthMetrics)
  {
    LabelsZhHansBandwidth();
    LabelsEnUSBandwidth();
    MetricColorsBandwidth();
    FamilyTabled(1);
  }

  lemma OriginPullTabled()
    ensures Tabled(OriginPullMetrics)
  {
    LabelsZhHansOriginPull();
    LabelsEnUSOriginPull();
    MetricColorsOriginPull();
    FamilyTabled(2);
  }

  lemma RequestsTabled()
    ensures Tabled(RequestsMetrics)
  {
    LabelsZhHansRequests();
    LabelsEnUSRequests();
    MetricColorsRequests();
    FamilyTabled(3);
  }

  lemma PerformanceTabled()
    ensures Tabled(PerformanceMetrics)
  {
    LabelsZhHansPerformance();
    LabelsEnUSPerformance();
    MetricColorsPerformance();
    FamilyTabled(4);
  }

  lemma EdgeFunctionsTabled()
    ensures Tabled(EdgeFunctionsMetrics)
  {
    LabelsZhHansEdgeFunctions();
    LabelsEnUSEdgeFunctions();
    MetricColorsEdgeFunctions();
    FamilyTabled(5);
  }

  lemma SecurityTabled()
    ensures Tabled(SecurityMetrics)
  {
    LabelsZhHansSecurity();
    LabelsEnUSSecurity();
    MetricColorsSecurity();
    FamilyTabled(6);
  }

  lemma TopAnalysisTabled()
    ensures Tabled(TopAnalysisMetrics)
  {
    LabelsZhHansTopAnalysis();
    LabelsEnUSTopAnalysis();
    MetricColorsTopAnalysis();
    FamilyTabled(7);
  }

  // The listing facts, one table and one family at a time: each compares a
  // handful of literal keys, which keeps every proof small.
  lemma LabelsZhHansTraffic() ensures ListedAt(TrafficMetrics, LabelsZhHansEntries, 0) {}
  lemma LabelsEnUSTraffic() ensures ListedAt(TrafficMetrics, LabelsEnUSEntries, 0) {}
  lemma MetricColorsTraffic() ensures ListedAt(TrafficMetrics, MetricColorsEntries, 0) {}
  lemma LabelsZhHansBandwidth() ensures ListedAt(BandwidthMetrics, LabelsZhHansEntries, 3) {}
  lemma LabelsEnUSBandwidth() ensures ListedAt(BandwidthMetrics, LabelsEnUSEntries, 3) {}
  lemma MetricColorsBandwidth() ensures ListedAt(BandwidthMetrics, MetricColorsEntries, 3) {}
  lemma LabelsZhHansOriginPull() ensures ListedAt(OriginPullMetrics, LabelsZhHansEntries, 6) {}
  lemma LabelsEnUSOriginPull() ensures ListedAt(OriginPullMetrics, LabelsEnUSEntries, 6) {}
  lemma MetricColorsOriginPull() ensures ListedAt(OriginPullMetrics, MetricColorsEntries, 6) {}
  lemma LabelsZhHansRequests() ensures ListedAt(RequestsMetrics, LabelsZhHansEntries, 11) {}
  lemma LabelsEnUSRequests() ensures ListedAt(RequestsMetrics, LabelsEnUSEntries, 11) {}
  lemma MetricColorsRequests() ensures ListedAt(RequestsMetrics, MetricColorsEntries, 11) {}
  lemma LabelsZhHansPerformance() ensures ListedAt(PerformanceMetrics, LabelsZhHansEntries, 12) {}
  lemma LabelsEnUSPerformance() ensures ListedAt(PerformanceMetrics, LabelsEnUSEntries, 12) {}
  lemma MetricColorsPerformance() ensures ListedAt(PerformanceMetrics, MetricColorsEntries, 12) {}
  lemma LabelsZhHansEdgeFunctions() ensures ListedAt(EdgeFunctionsMetrics, LabelsZhHansEntries, 14) {}
  lemma LabelsEnUSEdgeFunctions() ensures ListedAt(EdgeFunctionsMetrics, LabelsEnUSEntries, 14) {}
  lemma MetricColorsEdgeFunctions() ensures ListedAt(EdgeFunctionsMetrics, MetricColorsEntries, 14) {}
  lemma LabelsZhHansSecurity() ensures ListedAt(SecurityMetrics, LabelsZhHansEntries, 16) {}
  lemma LabelsEnUSSecurity() ensures ListedAt(SecurityMetrics, LabelsEnUSEntries, 16) {}
  lemma MetricColorsSecurity() ensures ListedAt(SecurityMetrics, MetricColorsEntries, 16) {}
  lemma LabelsZhHansTopAnalysis()
    ensures ListedAt(TopAnalysisMetrics, LabelsZhHansEntries, 19)
  {
    LabelsZhHansOutFluxTop();
    LabelsZhHansRequestTop();
  }

  lemma LabelsZhHansOutFluxTop()
    ensures forall k :: 0 <= k < 12 ==> LabelsZhHansEntries[19 + k].0 == TopAnalysisMetrics[k]
  {
  }

  lemma LabelsZhHansRequestTop()
    ensures forall k :: 12 <= k < 24 ==> LabelsZhHansEntries[19 + k].0 == TopAnalysisMetrics[k]
  {
  }

  lemma LabelsEnUSTopAnalysis()
    ensures ListedAt(TopAnalysisMetrics, LabelsEnUSEntries, 19)
  {
    LabelsEnUSOutFluxTop();
    LabelsEnUSRequestTop();
  }

  lemma LabelsEnUSOutFluxTop()
    ensures forall k :: 0 <= k < 12 ==> LabelsEnUSEntries[19 + k].0 == TopAnalysisMetrics[k]
  {
  }

  lemma LabelsEnUSRequestTop()
    ensures forall k :: 12 <= k < 24 ==> LabelsEnUSEntries[19 + k].0 == TopAnalysisMetrics[k]
  {
  }

  lemma MetricColorsTopAnalysis()
    ensures ListedAt(TopAnalysisMetrics, MetricColorsEntries, 19)
  {
    MetricColorsOutFluxTop();
    MetricColorsRequestTop();
  }

  lemma MetricColorsOutFluxTop()
    ensures forall k :: 0 <= k < 12 ==> MetricColorsEntries[19 + k].0 == TopAnalysisMetrics[k]
  {
  }

  lemma MetricColorsRequestTop()
    ensures forall k :: 12 <= k < 24 ==> MetricColorsEntries[19 + k].0 == TopAnalysisMetrics[k]
  {
  }


  /** No element of `a` is an element of `b`. */
  predicate Apart(a: seq<string>, b: seq<string>) {
    forall k, l :: 0 <= k < |a| && 0 <= l < |b| ==> a[k] != b[l]
  }

  /** The families of `metricsConfig` are pairwise disjoint. */
  lemma ConfigDisjoint()
    ensures forall i, j :: 0 <= i < j < |ConfigFamilies| ==> Apart(ConfigFamilies[i], ConfigFamilies[j])
  {
    SeriesFamiliesApart();
    TopAnalysisApartFromTraffic();
    TopAnalysisApartFromTiming();
  }

  lemma SeriesFamiliesApart()
    ensures forall i, j :: 0 <= i < j < 7 ==> Apart(ConfigFamilies[i], ConfigFamilies[j])
  {
  }

  lemma TopAnalysisApartFromTraffic()
    ensures forall j :: 0 <= j < 4 ==> Apart(ConfigFamilies[j], TopAnalysisMetrics)
  {
  }

  lemma TopAnalysisApartFromTiming()
    ensures forall j :: 4 <= j < 7 ==> Apart(ConfigFamilies[j], TopAnalysisMetrics)
  {
  }

  // ------------------------------------------------------------ worldNameMap

  /** A country code is kept when `countryMap` has a (non-empty) name for it. */
  predicate HasCountryName(countryMap: map<string, string>, code: string) {
    code in countryMap && countryMap[code] != ""
  }

  /**
   * The map `worldNameMap` ends up as, for `codeToMapName` given as its
   * entries in key order: each map name of a code with a Chinese country
   * name, mapped to that name; a later entry overwrites an earlier one.
   */
  function WorldNames(codeToMapName: seq<(string, string)>, countryMap: map<string, string>): (r: map<string, string>)
    ensures r.Keys == set p | p in codeToMapName && HasCountryName(countryMap, p.0) :: p.1
  {
    if codeToMapName == [] then map[]
    else
      var init := codeToMapName[..|codeToMapName| - 1];
      var last := codeToMapName[|codeToMapName| - 1];
      var m := WorldNames(init, countryMap);
      assert forall p :: p in codeToMapName <==> p in init || p == last;
      if HasCountryName(countryMap, last.0) then m[last.1 := countryMap[last.0]] else m
  }

  /** Distinct codes carry distinct map names (true of the shipped table). */
  predicate NamesDistinct(codeToMapName: seq<(string, string)>) {
    forall i, j :: 0 <= i < j < |codeToMapName| ==> codeToMapName[i].1 != codeToMapName[j].1
  }

  /**
   * With distinct map names, `worldNameMap` maps the map name of every code
   * present in both tables to exactly that code's Chinese name.
   */
  lemma {:induction false} WorldNamesExact(codeToMapName: seq<(string, string)>, countryMap: map<string, string>, i: nat)
    requires NamesDistinct(codeToMapName)
    requires i < |codeToMapName| && HasCountryName(countryMap, codeToMapName[i].0)
    ensures codeToMapName[i].1 in WorldNames(codeToMapName, countryMap)
    ensures WorldNames(codeToMapName, countryMap)[codeToMapName[i].1] == countryMap[codeToMapName[i].0]
  {
    var n := |codeToMapName|;
    if i < n - 1 {
      var init := codeToMapName[..n - 1];
      assert init[i] == codeToMapName[i];
      WorldNamesExact(init, countryMap, i);
      assert codeToMapName[n - 1].1 != codeToMapName[i].1;
    }
  }

  /** The `forEach` that fills `worldNameMap`, entry by entry. */
  method BuildWorldNameMap(codeToMapName: seq<(string, string)>, countryMap: map<string, string>)
    returns (worldNameMap: map<string, string>)
    ensures worldNameMap == WorldNames(codeToMapName, countryMap)
  {
    worldNameMap := map[];
    for k := 0 to |codeToMapName|
      invariant worldNameMap == WorldNames(codeToMapName[..k], countryMap)
    {
      var code := codeToMapName[k].0;
      if code in countryMap && countryMap[code] != "" {
        worldNameMap := worldNameMap[codeToMapName[k].1 := countryMap[code]];
      }
      assert codeToMapName[..k + 1][..k] == codeToMapName[..k];
    }
    assert codeToMapName[..|codeToMapName|] == codeToMapName;
  }
}
