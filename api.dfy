/**
 * The response normaliser of the dashboard (assets/dashboard/api.js):
 * `processData` turns one provider response into either a top list or an
 * aligned time series with labels, and `fetchData` reduces a request to its
 * payload or `null`.
 */
module Api {
  import opened Wrappers
  import opened JsText
  import opened JsValue
  import opened Civil

  // ------------------------------------------------------------ response shapes

  /** One sample of a series: `Timestamp` in epoch seconds and its `Value`. */
  datatype Point = Point(timestamp: int, value: real)

  /** One metric of a `TypeValue` or `Value` list; absent fields are `None`. */
  datatype MetricEntry = MetricEntry(
    metricName: string,
    detail: Option<seq<Point>>,
    sum: Option<real>,
    max: Option<real>,
    avg: Option<real>)

  /** One row of a top list (`DetailData`). */
  datatype TopItem = TopItem(key: string, value: real)

  /** One element of `Data` or `TimingDataRecords`. */
  datatype DataItem = DataItem(
    detailData: Option<seq<TopItem>>,
    typeValue: Option<seq<MetricEntry>>,
    value: Option<seq<MetricEntry>>)

  /** A provider response: the two lists the normaliser looks at. */
  datatype RawResponse = RawResponse(data: Option<seq<DataItem>>, timingDataRecords: Option<seq<DataItem>>)

  /** What `processData` returns: `{type:'top', data}` or `{timeData, valueData, sum, max, avg, type:'time'}`. */
  datatype Processed =
    | Top(items: seq<TopItem>)
    | Time(timeData: seq<string>, valueData: seq<real>, sum: real, max: real, avg: real)

  /** The record returned for an empty data list. */
  const ZeroRecord: Processed := Time([], [], 0.0, 0.0, 0.0)

  /** `result?.Data?.[0]?.DetailData`. */
  function TopData(result: RawResponse): Option<seq<TopItem>> {
    if result.data.Some? && |result.data.value| > 0 then result.data.value[0].detailData else None
  }

  /** `result?.Data || result?.TimingDataRecords || []`: a present array is truthy even when empty. */
  function DataList(result: RawResponse): (r: seq<DataItem>)
    ensures result.data.Some? ==> r == result.data.value
    ensures result.data.None? && result.timingDataRecords.Some? ==> r == result.timingDataRecords.value
    ensures result.data.None? && result.timingDataRecords.None? ==> r == []
  {
    if result.data.Some? then result.data.value
    else if result.timingDataRecords.Some? then result.timingDataRecords.value
    else []
  }

  // ------------------------------------------------------------ entry selection

  /** Index of the first entry named `name`, as `Array.prototype.find` scans. */
  function FirstNamed(entries: seq<MetricEntry>, name: string): (r: Option<nat>)
    ensures r.Some? ==> r.value < |entries| && entries[r.value].metricName == name
    ensures r.Some? ==> forall j :: 0 <= j < r.value ==> entries[j].metricName != name
    ensures r.None? ==> forall j :: 0 <= j < |entries| ==> entries[j].metricName != name
  {
    if entries == [] then None
    else if entries[0].metricName == name then Some(0)
    else match FirstNamed(entries[1..], name)
      case None => None
      case Some(i) => Some(i + 1)
  }

  /** `entries.find(item => item.MetricName === name)`. */
  function Find(entries: seq<MetricEntry>, name: string): Option<MetricEntry> {
    match FirstNamed(entries, name)
    case None => None
    case Some(i) => Some(entries[i])
  }

  /** `xs?.[0]` on an optional list. */
  function FirstOf(xs: Option<seq<MetricEntry>>): Option<MetricEntry> {
    if xs.Some? && |xs.value| > 0 then Some(xs.value[0]) else None
  }

  /**
   * The metric entry `processData` reads from the first data item: with a
   * target, a search of `TypeValue` when it is present, else of `Value`;
   * when nothing matched, the first entry of `TypeValue`, else of `Value`.
   */
  function SelectEntry(item: DataItem, targetMetric: string): (r: Option<MetricEntry>)
    ensures r.None? <==> FirstOf(item.typeValue).None? && FirstOf(item.value).None?
    ensures targetMetric != "" && item.typeValue.Some? && Find(item.typeValue.value, targetMetric).Some? ==>
      r == Find(item.typeValue.value, targetMetric)
    ensures targetMetric != "" && item.typeValue.None? && item.value.Some? && Find(item.value.value, targetMetric).Some? ==>
      r == Find(item.value.value, targetMetric)
    ensures (targetMetric == "" || item.typeValue.Some?) && FirstOf(item.typeValue).Some? &&
            (targetMetric == "" || Find(item.typeValue.value, targetMetric).None?) ==>
      r == FirstOf(item.typeValue)
  {
    var found :=
      if targetMetric == "" then None
      else if item.typeValue.Some? then Find(item.typeValue.value, targetMetric)
      else if item.value.Some? then Find(item.value.value, targetMetric)
      else None;
    if found.Some? then found
    else if FirstOf(item.typeValue).Some? then FirstOf(item.typeValue)
    else FirstOf(item.value)
  }

  /**
   * Once `TypeValue` is present, `Value` is never searched: when no entry of
   * `TypeValue` matches, a matching entry in `Value` is ignored and the
   * first entry of `TypeValue` (or of `Value` when `TypeValue` is empty) is used.
   */
  lemma TypeValueShadowsValue(item: DataItem, targetMetric: string)
    requires item.typeValue.Some? && Find(item.typeValue.value, targetMetric).None?
    ensures SelectEntry(item, targetMetric) ==
      (if item.typeValue.value != [] then Some(item.typeValue.value[0]) else FirstOf(item.value))
  {
  }

  /** `typeValue?.Detail || []`. */
  function DetailsOf(e: Option<MetricEntry>): seq<Point> {
    if e.Some? && e.value.detail.Some? then e.value.detail.value else []
  }

  /** `typeValue?.Sum || 0`, `typeValue?.Max || 0` and `typeValue?.Avg || 0`: an absent entry or field gives 0. */
  function SumOf(e: Option<MetricEntry>): real {
    if e.Some? then e.value.sum.GetOr(0.0) else 0.0
  }

  function MaxOf(e: Option<MetricEntry>): real {
    if e.Some? then e.value.max.GetOr(0.0) else 0.0
  }

  function AvgOf(e: Option<MetricEntry>): real {
    if e.Some? then e.value.avg.GetOr(0.0) else 0.0
  }

  // ------------------------------------------------------------ labels

  /** The three label layouts: `YYYY-MM-DD`, `MM-DD HH:mm` and `HH:mm`. */
  datatype LabelStyle = DayLabel | MonthDayTime | TimeOfDay

  /** The samples are one day apart when their first gap is at least 23 hours. */
  const DayGapSeconds: int := 82800

  /**
   * `isDayInterval`: an explicit `day` interval; or `auto` with a first gap of
   * at least 82800 seconds; or `auto` on a 14d/31d range with at most 32 samples.
   */
  function IsDayInterval(interval: string, range: string, details: seq<Point>): (r: bool)
    ensures interval != "day" && interval != "auto" ==> !r
    ensures interval == "day" ==> r
    ensures interval == "auto" ==>
      (r <==> (|details| > 1 && details[1].timestamp - details[0].timestamp >= DayGapSeconds) ||
              ((range == "14d" || range == "31d") && |details| <= 32))
  {
    var byName := interval == "day";
    var byGap := interval == "auto" && |details| > 1 && details[1].timestamp - details[0].timestamp >= DayGapSeconds;
    var byRange := interval == "auto" && (range == "14d" || range == "31d") && |details| <= 32;
    byName || byGap || byRange
  }

  /** Seconds between the first and the last sample, 0 without samples. */
  function Span(details: seq<Point>): int {
    if |details| > 0 then details[|details| - 1].timestamp - details[0].timestamp else 0
  }

  /** The ranges that always show the date next to the time. */
  predicate IsLongRange(range: string) {
    range == "3d" || range == "7d" || range == "14d" || range == "31d"
  }

  /**
   * The label layout: the date for day data; otherwise the date and time when
   * the data spans more than a day or the range is long; otherwise the time.
   * The `custom` test of the source adds nothing to the span test.
   */
  function ChooseStyle(isDay: bool, span: int, range: string): (r: LabelStyle)
    ensures r == DayLabel <==> isDay
    ensures r == MonthDayTime <==> !isDay && (span > 86400 || IsLongRange(range))
  {
    if isDay then DayLabel
    else if span > 86400 || IsLongRange(range) || (range == "custom" && span > 86400) then MonthDayTime
    else TimeOfDay
  }

  /** The label of local calendar fields `t` in a layout. */
  function LabelText(t: DateTime, style: LabelStyle): string
    requires ValidDateTime(t)
  {
    match style
    case DayLabel => IntToString(t.date.year) + "-" + Pad(t.date.month, 2) + "-" + Pad(t.date.day, 2)
    case MonthDayTime => Pad(t.date.month, 2) + "-" + Pad(t.date.day, 2) + " " + Pad(t.hour, 2) + ":" + Pad(t.minute, 2)
    case TimeOfDay => Pad(t.hour, 2) + ":" + Pad(t.minute, 2)
  }

  /** The label of a sample taken at `timestamp` seconds, read in local time. */
  function Label(timestamp: int, style: LabelStyle, offsetMs: int): string {
    LabelText(LocalBreakdown(timestamp * 1000, offsetMs), style)
  }

  /** `HH:mm`: five characters, a colon in the middle, hour and minute read back from their digits. */
  lemma TimeOfDayShape(t: DateTime)
    requires ValidDateTime(t)
    ensures var s := LabelText(t, TimeOfDay);
      |s| == 5 && s[2] == ':' && AllDigits(s[0..2]) && AllDigits(s[3..5]) &&
      DigitsValue(s[0..2]) == t.hour && DigitsValue(s[3..5]) == t.minute
  {
    PadRoundTrip(t.hour, 2);
    PadRoundTrip(t.minute, 2);
    var s := LabelText(t, TimeOfDay);
    assert s[0..2] == Pad(t.hour, 2);
    assert s[3..5] == Pad(t.minute, 2);
  }

  /** `MM-DD HH:mm`: eleven characters with every field read back from its two digits. */
  lemma MonthDayTimeShape(t: DateTime)
    requires ValidDateTime(t)
    ensures var s := LabelText(t, MonthDayTime);
      |s| == 11 && s[2] == '-' && s[5] == ' ' && s[8] == ':' &&
      AllDigits(s[0..2]) && AllDigits(s[3..5]) && AllDigits(s[6..8]) && AllDigits(s[9..11]) &&
      DigitsValue(s[0..2]) == t.date.month && DigitsValue(s[3..5]) == t.date.day &&
      DigitsValue(s[6..8]) == t.hour && DigitsValue(s[9..11]) == t.minute
  {
    PadRoundTrip(t.date.month, 2);
    PadRoundTrip(t.date.day, 2);
    PadRoundTrip(t.hour, 2);
    PadRoundTrip(t.minute, 2);
    var s := LabelText(t, MonthDayTime);
    assert s[0..2] == Pad(t.date.month, 2);
    assert s[3..5] == Pad(t.date.day, 2);
    assert s[6..8] == Pad(t.hour, 2);
    assert s[9..11] == Pad(t.minute, 2);
  }

  /** `YYYY-MM-DD` for a year from 0 on: the year's digits, then two-digit month and day. */
  lemma DayLabelShape(t: DateTime)
    requires ValidDateTime(t) && t.date.year >= 0
    ensures var s := LabelText(t, DayLabel); var n := |s|;
      n >= 7 && s[n - 6] == '-' && s[n - 3] == '-' &&
      AllDigits(s[..n - 6]) && AllDigits(s[n - 5..n - 3]) && AllDigits(s[n - 2..]) &&
      DigitsValue(s[..n - 6]) == t.date.year &&
      DigitsValue(s[n - 5..n - 3]) == t.date.month && DigitsValue(s[n - 2..]) == t.date.day
  {
    PadRoundTrip(t.date.month, 2);
    PadRoundTrip(t.date.day, 2);
    NatToStringValue(t.date.year);
    var y := NatToString(t.date.year);
    var s := LabelText(t, DayLabel);
    var n := |s|;
    assert s == y + "-" + Pad(t.date.month, 2) + "-" + Pad(t.date.day, 2);
    assert s[..n - 6] == y;
    assert s[n - 5..n - 3] == Pad(t.date.month, 2);
    assert s[n - 2..] == Pad(t.date.day, 2);
  }

  // ------------------------------------------------------------ processData

  /** The controls `processData` reads: the range (default `30min`) and the interval (default `auto`). */
  datatype LabelContext = LabelContext(range: string, interval: string, offsetMs: int)

  /** `timeRange.value || '30min'` and `interval.value || 'auto'`, with the viewer's clock offset. */
  function ContextOf(rangeSetting: Option<string>, intervalSetting: Option<string>, offsetMs: int): (c: LabelContext)
    ensures c.range != "" && c.interval != ""
  {
    LabelContext(TextOr(rangeSetting, "30min"), TextOr(intervalSetting, "auto"), offsetMs)
  }

  /** The labels of a series, one per sample, in order. */
  function Labels(details: seq<Point>, style: LabelStyle, offsetMs: int): (r: seq<string>)
    ensures |r| == |details|
    ensures forall i :: 0 <= i < |details| ==> r[i] == Label(details[i].timestamp, style, offsetMs)
  {
    seq(|details|, i requires 0 <= i < |details| => Label(details[i].timestamp, style, offsetMs))
  }

  /** The values of a series, in order. */
  function Values(details: seq<Point>): (r: seq<real>)
    ensures |r| == |details|
    ensures forall i :: 0 <= i < |details| ==> r[i] == details[i].value
  {
    seq(|details|, i requires 0 <= i < |details| => details[i].value)
  }

  /** The layout `processData` picks for a series. */
  function StyleOf(details: seq<Point>, ctx: LabelContext): LabelStyle {
    ChooseStyle(IsDayInterval(ctx.interval, ctx.range, details), Span(details), ctx.range)
  }

  /**
   * `processData(result, targetMetric)`: a top list when `Data[0].DetailData`
   * is present, whatever else the response holds; otherwise the zero record
   * for an empty data list; otherwise the selected entry's samples, labelled,
   * with its sum, max and average (0 when absent).
   */
  function Process(result: RawResponse, targetMetric: string, ctx: LabelContext): (r: Processed)
    ensures TopData(result).Some? ==> r == Top(TopData(result).value)
    ensures TopData(result).None? && DataList(result) == [] ==> r == ZeroRecord
    ensures TopData(result).None? && DataList(result) != [] ==>
      var e := SelectEntry(DataList(result)[0], targetMetric);
      var details := DetailsOf(e);
      r.Time? && |r.timeData| == |details| && |r.valueData| == |details| &&
      (forall i :: 0 <= i < |details| ==> r.valueData[i] == details[i].value) &&
      (forall i :: 0 <= i < |details| ==>
         r.timeData[i] == Label(details[i].timestamp, StyleOf(details, ctx), ctx.offsetMs)) &&
      r.sum == SumOf(e) && r.max == MaxOf(e) && r.avg == AvgOf(e)
  {
    match TopData(result)
    case Some(items) => Top(items)
    case None =>
      var dataList := DataList(result);
      if dataList == [] then ZeroRecord
      else
        var e := SelectEntry(dataList[0], targetMetric);
        var details := DetailsOf(e);
        Time(Labels(details, StyleOf(details, ctx), ctx.offsetMs), Values(details),
             SumOf(e), MaxOf(e), AvgOf(e))
  }

  /** A present but empty `Data` list gives the zero record, even when `TimingDataRecords` has data. */
  lemma EmptyDataIsZero(result: RawResponse, targetMetric: string, ctx: LabelContext)
    requires result.data == Some([])
    ensures Process(result, targetMetric, ctx) == ZeroRecord
  {
  }

  /**
   * The normaliser as the source runs it: the labels and values are pushed
   * sample by sample, and the result is the record `Process` describes.
   */
  method ProcessData(result: RawResponse, targetMetric: string, ctx: LabelContext) returns (r: Processed)
    ensures r == Process(result, targetMetric, ctx)
  {
    var top := TopData(result);
    if top.Some? {
      return Top(top.value);
    }
    var dataList := DataList(result);
    if |dataList| == 0 {
      return ZeroRecord;
    }
    var e := SelectEntry(dataList[0], targetMetric);
    var details := DetailsOf(e);
    var style := StyleOf(details, ctx);
    var timeData: seq<string> := [];
    var valueData: seq<real> := [];
    var k := 0;
    while k < |details|
      invariant 0 <= k <= |details|
      invariant timeData == Labels(details[..k], style, ctx.offsetMs)
      invariant valueData == Values(details[..k])
    {
      assert details[..k + 1] == details[..k] + [details[k]];
      timeData := timeData + [Label(details[k].timestamp, style, ctx.offsetMs)];
      valueData := valueData + [details[k].value];
      k := k + 1;
    }
    assert details[..k] == details;
    r := Time(timeData, valueData, SumOf(e), MaxOf(e), AvgOf(e));
  }

  // ------------------------------------------------------------ fetchData

  /** The JSON the API route answered with: an optional `error` next to the response. */
  datatype Payload = Payload(error: Option<string>, body: RawResponse)

  /** What the request did: it threw (network or parse failure) or it answered. */
  datatype FetchOutcome = Threw | Answered(payload: Payload)

  /** `fetchData`: `null` when the request threw or the payload carries an error, else the payload. */
  function FetchData(outcome: FetchOutcome): (r: Option<Payload>)
    ensures r.None? <==> outcome.Threw? || TruthyText(outcome.payload.error)
    ensures r.Some? ==> r.value == outcome.payload && !TruthyText(r.value.error)
  {
    match outcome
    case Threw => None
    case Answered(p) => if TruthyText(p.error) then None else Some(p)
  }
}
