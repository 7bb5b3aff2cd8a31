/**
 * Period-over-period comparison (assets/dashboard/compare.js): the previous
 * window for the current one, the 14-day eligibility of security metrics for
 * comparison, and what a KPI's compare line shows.
 */
module Compare {
  import opened Wrappers
  import opened JsValue
  import opened Civil
  import opened IsoDate
  import opened IsoRoundTrip
  import opened DashboardUtils

  /** The shift applied to `today` and `yesterday`: one day. */
  const DayShiftMs: int := 24 * 60 * 60 * 1000

  /** The keys compared with the same natural day one day earlier. */
  predicate IsDayShiftKey(rangeKey: string) {
    rangeKey == "today" || rangeKey == "yesterday"
  }

  /**
   * The previous window of `[startMs, endMs]`: the same window one day
   * earlier for today/yesterday; otherwise the window of equal length that
   * ends where this one starts, or none when the length is not positive.
   */
  function PreviousWindow(startMs: int, endMs: int, rangeKey: string): (r: Option<Window>)
    ensures IsDayShiftKey(rangeKey) ==>
      r == Some(Window(startMs - MsPerDay, endMs - MsPerDay))
    ensures !IsDayShiftKey(rangeKey) ==> (r.Some? <==> startMs < endMs)
    ensures !IsDayShiftKey(rangeKey) && r.Some? ==>
      r.value.endMs == startMs && r.value.endMs - r.value.startMs == endMs - startMs
  {
    if IsDayShiftKey(rangeKey) then Some(Window(startMs - DayShiftMs, endMs - DayShiftMs))
    else
      var duration := endMs - startMs;
      if duration <= 0 then None
      else Some(Window(startMs - duration, endMs - duration))
  }

  /**
   * The parsing half of `calculatePreviousTimeRange`: none when either text
   * does not parse as a date, otherwise the previous window of the parsed
   * instants.
   */
  function PreviousWindowOfTexts(startTime: string, endTime: string, rangeKey: string): (r: Option<Window>)
    ensures ParseDate(startTime).None? || ParseDate(endTime).None? ==> r.None?
  {
    match (ParseDate(startTime), ParseDate(endTime))
    case (Some(s), Some(e)) => PreviousWindow(s, e, rangeKey)
    case _ => None
  }

  /** `calculatePreviousTimeRange`: the previous window of the parsed texts, written with `formatDate`. */
  function CalculatePreviousTimeRange(startTime: string, endTime: string, rangeKey: string): (r: Option<TimeRange>)
    ensures r.Some? <==> PreviousWindowOfTexts(startTime, endTime, rangeKey).Some?
    ensures r.Some? ==> |r.value.startTime| == 20 && |r.value.endTime| == 20
  {
    match PreviousWindowOfTexts(startTime, endTime, rangeKey)
    case Some(w) => Some(WindowText(w))
    case None => None
  }

  /**
   * The previous range's texts read back exactly to the previous window, for
   * ends in the years 0..9999: parsed texts are whole seconds and every shift
   * is a whole number of seconds, so `formatDate` drops nothing.
   */
  lemma PreviousRangeReadsBack(startTime: string, endTime: string, rangeKey: string)
    requires CalculatePreviousTimeRange(startTime, endTime, rangeKey).Some?
    ensures var r := CalculatePreviousTimeRange(startTime, endTime, rangeKey).value;
      var w := PreviousWindowOfTexts(startTime, endTime, rangeKey).value;
      (0 <= Breakdown(w.startMs).date.year <= 9999 ==>
        ParseDate(r.startTime).Some? && ParseDate(r.startTime).value == w.startMs) &&
      (0 <= Breakdown(w.endMs).date.year <= 9999 ==>
        ParseDate(r.endTime).Some? && ParseDate(r.endTime).value == w.endMs)
  {
    var w := PreviousWindowOfTexts(startTime, endTime, rangeKey).value;
    PreviousWindowWholeSeconds(startTime, endTime, rangeKey);
    WholeSecondReadsBack(w.startMs);
    WholeSecondReadsBack(w.endMs);
  }

  /** The previous window of two parsed texts has whole-second ends. */
  lemma PreviousWindowWholeSeconds(startTime: string, endTime: string, rangeKey: string)
    requires PreviousWindowOfTexts(startTime, endTime, rangeKey).Some?
    ensures var w := PreviousWindowOfTexts(startTime, endTime, rangeKey).value;
      w.startMs % 1000 == 0 && w.endMs % 1000 == 0
  {
    var s := ParseDate(startTime).value;
    var e := ParseDate(endTime).value;
    ParseWholeSecond(startTime);
    ParseWholeSecond(endTime);
    assert PreviousWindowOfTexts(startTime, endTime, rangeKey) == PreviousWindow(s, e, rangeKey);
    PreviousWindowWholeMs(s, e, rangeKey);
  }

  /** Shifting whole-second ends by a whole-second amount keeps them whole seconds. */
  lemma PreviousWindowWholeMs(s: int, e: int, rangeKey: string)
    requires s % 1000 == 0 && e % 1000 == 0 && PreviousWindow(s, e, rangeKey).Some?
    ensures PreviousWindow(s, e, rangeKey).value.startMs % 1000 == 0
    ensures PreviousWindow(s, e, rangeKey).value.endMs % 1000 == 0
  {
  }

  /** Today and yesterday always have a previous range once both texts parse, whatever their order. */
  lemma DayShiftNeverNull(startTime: string, endTime: string, rangeKey: string)
    requires IsDayShiftKey(rangeKey)
    requires ParseDate(startTime).Some? && ParseDate(endTime).Some?
    ensures CalculatePreviousTimeRange(startTime, endTime, rangeKey).Some?
    ensures PreviousWindowOfTexts(startTime, endTime, rangeKey).value ==
      Window(ParseDate(startTime).value - MsPerDay, ParseDate(endTime).value - MsPerDay)
  {
  }

  /**
   * For the other keys, once both texts parse and the window is non-empty,
   * the previous window has the same length and ends at the current start.
   */
  lemma PreviousRangeWindow(startTime: string, endTime: string, rangeKey: string)
    requires !IsDayShiftKey(rangeKey)
    requires ParseDate(startTime).Some? && ParseDate(endTime).Some?
    requires ParseDate(startTime).value < ParseDate(endTime).value
    ensures CalculatePreviousTimeRange(startTime, endTime, rangeKey).Some?
    ensures var s := ParseDate(startTime).value; var e := ParseDate(endTime).value;
      PreviousWindowOfTexts(startTime, endTime, rangeKey).value == Window(s - (e - s), s)
  {
  }

  /** For the other keys a window that is empty or reversed has no previous range. */
  lemma PreviousRangeNeedsPositiveLength(startTime: string, endTime: string, rangeKey: string)
    requires !IsDayShiftKey(rangeKey)
    requires ParseDate(startTime).Some? && ParseDate(endTime).Some?
    requires ParseDate(endTime).value <= ParseDate(startTime).value
    ensures CalculatePreviousTimeRange(startTime, endTime, rangeKey).None?
  {
  }

  /** How far back the start of a comparison window may reach for security metrics: 14 days and one minute. */
  const SecurityCompareMaxAgeMs: int := 14 * 24 * 60 * 60 * 1000 + 60 * 1000

  /** `isSecurityCompareAllowed`: the start parses and lies no more than 14 days and a minute before `nowMs`. */
  function IsSecurityCompareAllowed(compareStartTime: string, nowMs: int): (r: bool)
    ensures r <==> ParseDate(compareStartTime).Some? &&
                   nowMs - ParseDate(compareStartTime).value <= SecurityCompareMaxAgeMs
  {
    match ParseDate(compareStartTime)
    case None => false
    case Some(start) => start >= nowMs - SecurityCompareMaxAgeMs
  }

  /** Once a start is too old it stays too old as time goes on. */
  lemma SecurityCompareExpires(compareStartTime: string, now1: int, now2: int)
    requires now1 <= now2 && !IsSecurityCompareAllowed(compareStartTime, now1)
    ensures !IsSecurityCompareAllowed(compareStartTime, now2)
  {
  }

  /** The arrow and colour of a compare line. */
  datatype Direction = Up | Down | Neutral

  /** The percentage shown: a finite magnitude, or `∞` when growing from zero. */
  datatype Magnitude = Percent(p: real) | Infinite

  /** The compare line next to a KPI: hidden with no text, or shown with a direction and a magnitude. */
  datatype CompareLine = Hidden | Shown(direction: Direction, magnitude: Magnitude)

  /** The number `formatPercentAbs(pct)` renders: `|pct * 100|`. */
  function PercentAbs(pct: real): (r: real)
    ensures r >= 0.0
    ensures r == pct * 100.0 || r == -(pct * 100.0)
  {
    if pct * 100.0 >= 0.0 then pct * 100.0 else -(pct * 100.0)
  }

  /** The relative change `(cur - prev) / prev`. */
  function RelativeChange(cur: real, prev: real): (r: real)
    requires prev != 0.0
    ensures r * prev == cur - prev
  {
    (cur - prev) / prev
  }

  /** The decision inside `updateKpiCompareByKpiId` for the numbers `Number(current)` and `Number(previous)`. */
  function CompareDecision(cur: Num, prev: Num, enabled: bool): (r: CompareLine)
    ensures r.Hidden? <==> !enabled || !cur.IsFinite() || !prev.IsFinite()
    ensures r.Shown? && prev.value == 0.0 ==>
      r == (if cur.value == 0.0 then Shown(Neutral, Percent(0.0)) else Shown(Up, Infinite))
    ensures r.Shown? && r.magnitude.Percent? ==> r.magnitude.p >= 0.0
    ensures r.Shown? && prev.value != 0.0 ==>
      r.magnitude == Percent(PercentAbs(RelativeChange(cur.value, prev.value))) &&
      (r.direction == Up <==> RelativeChange(cur.value, prev.value) > 0.0) &&
      (r.direction == Down <==> RelativeChange(cur.value, prev.value) < 0.0)
  {
    if !enabled then Hidden
    else if !cur.IsFinite() || !prev.IsFinite() then Hidden
    else if prev.value == 0.0 then
      if cur.value == 0.0 then Shown(Neutral, Percent(PercentAbs(0.0))) else Shown(Up, Infinite)
    else
      var pct := RelativeChange(cur.value, prev.value);
      var kind := if pct > 0.0 then Up else if pct < 0.0 then Down else Neutral;
      Shown(kind, Percent(PercentAbs(pct)))
  }

  /**
   * Against a positive previous value the arrow follows the change itself and
   * the magnitude is the change as a percentage of the previous value; against
   * a negative previous value the arrow is reversed.
   */
  lemma CompareDirection(cur: real, prev: real)
    requires prev != 0.0
    ensures var r := CompareDecision(Finite(cur), Finite(prev), true);
      r.Shown? && r.magnitude.Percent? &&
      (prev > 0.0 ==> (r.direction == Up <==> cur > prev) && (r.direction == Down <==> cur < prev)) &&
      (prev < 0.0 ==> (r.direction == Up <==> cur < prev) && (r.direction == Down <==> cur > prev)) &&
      (r.direction == Neutral <==> cur == prev) &&
      (prev > 0.0 ==> r.magnitude.p * prev == 100.0 * (if cur >= prev then cur - prev else prev - cur))
  {
    var pct := RelativeChange(cur, prev);
    assert pct * prev == cur - prev;
    if prev > 0.0 {
      assert pct > 0.0 <==> cur > prev;
      assert pct < 0.0 <==> cur < prev;
    } else {
      assert pct > 0.0 <==> cur < prev;
      assert pct < 0.0 <==> cur > prev;
    }
  }

  /** The arrow written before the percentage. */
  function Arrow(d: Direction): string {
    match d
    case Up => "↑"
    case Down => "↓"
    case Neutral => "→"
  }

  /** The colour classes `setCompareElStyle` leaves on the line. */
  datatype Style = Muted | Emerald | Red

  /** The style of a line: green for up, red for down, muted for flat and hidden lines. */
  function LineStyle(line: CompareLine): (s: Style)
    ensures s == Emerald <==> line.Shown? && line.direction == Up
    ensures s == Red <==> line.Shown? && line.direction == Down
  {
    match line
    case Hidden => Muted
    case Shown(d, _) => if d == Up then Emerald else if d == Down then Red else Muted
  }

  /**
   * The text of a line: empty when hidden, `↑ ∞%` when growing from zero, and
   * otherwise the arrow, a space and the locale's rendering of the percentage
   * (`formatPercent`, a parameter here) followed by `%`.
   */
  function LineText(line: CompareLine, formatPercent: real -> string): (t: string)
    ensures line.Hidden? <==> t == ""
  {
    match line
    case Hidden => ""
    case Shown(_, Infinite) => "↑ ∞%"
    case Shown(d, Percent(p)) => Arrow(d) + " " + formatPercent(p) + "%"
  }
}
