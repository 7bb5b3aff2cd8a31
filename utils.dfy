/**
 * The dashboard's shared helpers (assets/dashboard/utils.js): the query
 * window for each time-range key, `parseInt` on the custom-range inputs, the
 * count and byte/bit unit pickers, and the branch structure of the
 * byte/bit/count formatters.
 */
module DashboardUtils {
  import opened Wrappers
  import opened JsText
  import opened JsValue
  import opened Civil
  import opened IsoDate
  import opened IsoRoundTrip

  // ---------------------------------------------------------------- parseInt

  predicate IsRadixDigit(c: char, hex: bool) {
    IsDigit(c) || (hex && (('a' <= c <= 'f') || ('A' <= c <= 'F')))
  }

  function RadixDigitValue(c: char, hex: bool): nat
    requires IsRadixDigit(c, hex)
  {
    if IsDigit(c) then c as int - '0' as int
    else if 'a' <= c <= 'f' then c as int - 'a' as int + 10
    else c as int - 'A' as int + 10
  }

  /** Length of the longest prefix of `s` made of digits of the radix. */
  function DigitRunLength(s: string, hex: bool): (n: nat)
    ensures n <= |s|
    ensures forall i :: 0 <= i < n ==> IsRadixDigit(s[i], hex)
    ensures n == |s| || !IsRadixDigit(s[n], hex)
  {
    if s != [] && IsRadixDigit(s[0], hex) then 1 + DigitRunLength(s[1..], hex) else 0
  }

  function RadixValue(s: string, hex: bool): nat
    requires forall i :: 0 <= i < |s| ==> IsRadixDigit(s[i], hex)
  {
    if s == [] then 0
    else RadixValue(s[..|s| - 1], hex) * (if hex then 16 else 10) + RadixDigitValue(s[|s| - 1], hex)
  }

  /**
   * `parseInt(text)` with no radix: leading white space skipped, an optional
   * sign, a `0x`/`0X` prefix switching to base 16, then the longest run of
   * digits; `None` is NaN (no digit at all).
   */
  function ParseInt(text: string): (r: Option<int>)
    ensures r.None? <==> DigitRunLength(ParseIntBody(text), ParseIntHex(text)) == 0
  {
    var body := ParseIntBody(text);
    var hex := ParseIntHex(text);
    var n := DigitRunLength(body, hex);
    if n == 0 then None
    else
      var magnitude := RadixValue(body[..n], hex);
      Some(if ParseIntNegative(text) then -(magnitude as int) else magnitude)
  }

  /** The text after white space and sign. */
  function ParseIntUnsigned(text: string): string {
    var t := TrimStart(text);
    if t != [] && (t[0] == '-' || t[0] == '+') then t[1..] else t
  }

  predicate ParseIntNegative(text: string) {
    var t := TrimStart(text);
    t != [] && t[0] == '-'
  }

  predicate ParseIntHex(text: string) {
    var u := ParseIntUnsigned(text);
    |u| >= 2 && u[0] == '0' && (u[1] == 'x' || u[1] == 'X')
  }

  /** The digits parseInt reads from, after the optional `0x` prefix. */
  function ParseIntBody(text: string): string {
    var u := ParseIntUnsigned(text);
    if ParseIntHex(text) then u[2..] else u
  }

  /** `parseInt(text) || 0`: NaN and zero both become 0. */
  function ParseIntOrZero(text: string): int {
    ParseInt(text).GetOr(0)
  }

  lemma {:induction false} RadixValueDecimal(s: string)
    requires AllDigits(s)
    ensures RadixValue(s, false) == DigitsValue(s)
  {
    if s != [] {
      RadixValueDecimal(s[..|s| - 1]);
    }
  }

  /** A non-empty run of decimal digits parses to its decimal value. */
  lemma ParseIntDecimal(s: string)
    requires s != [] && AllDigits(s)
    ensures ParseInt(s) == Some(DigitsValue(s))
  {
    assert !IsJsSpace(s[0]);
    assert TrimStart(s) == s;
    assert ParseIntBody(s) == s;
    assert s[..|s|] == s;
    RadixValueDecimal(s);
  }

  /** The text of a natural number parses back to it, so `parseInt(String(n)) || 0 == n`. */
  lemma ParseIntOfNatText(n: nat)
    ensures ParseInt(NatToString(n)) == Some(n)
    ensures ParseIntOrZero(NatToString(n)) == n
  {
    NatToStringValue(n);
    ParseIntDecimal(NatToString(n));
  }

  /** Text without any digit reads as 0 (the `|| 0` fallback). */
  lemma ParseIntNoDigits(text: string)
    requires forall i :: 0 <= i < |text| ==> !IsRadixDigit(text[i], true)
    ensures ParseIntOrZero(text) == 0
  {
    var u := ParseIntUnsigned(text);
    assert forall i :: 0 <= i < |u| ==> u[i] in text;
    assert !ParseIntHex(text) by {
      if u != [] {
        assert u[0] in text;
      }
    }
    if u != [] {
      assert u[0] in text;
    }
  }

  // ------------------------------------------------------------ time windows

  /** A query window in epoch milliseconds. */
  datatype Window = Window(startMs: int, endMs: int)

  /** What the custom-range error line is set to: left alone, cleared, or the "range too large" message. */
  datatype ErrorNote = Untouched | Cleared | TooLarge

  datatype WindowResult = WindowResult(window: Window, note: ErrorNote)

  /** The four custom-range input fields, as typed. */
  datatype CustomInputs = CustomInputs(days: string, hours: string, minutes: string, seconds: string)

  /** The keys whose window is a fixed span ending now. */
  const FixedSpans: map<string, int> := map[
    "30min" := 30 * MsPerMinute,
    "1h" := MsPerHour,
    "6h" := 6 * MsPerHour,
    "3d" := 3 * MsPerDay,
    "7d" := 7 * MsPerDay,
    "14d" := 14 * MsPerDay,
    "31d" := 31 * MsPerDay
  ]

  /** The custom range is capped at 31 days. */
  const MaxCustomMs: int := 31 * MsPerDay

  /** `new Date(ms).setHours(h, mi, s, milli)` in the viewer's local time. */
  function SetHours(ms: int, offsetMs: int, h: int, mi: int, s: int, milli: int): (r: int)
    requires 0 <= h < 24 && 0 <= mi < 60 && 0 <= s < 60 && 0 <= milli < 1000
    ensures LocalDay(r, offsetMs) == LocalDay(ms, offsetMs)
    ensures LocalMsOfDay(r, offsetMs) == h * MsPerHour + mi * MsPerMinute + s * MsPerSecond + milli
  {
    var r := LocalMidnight(ms, offsetMs) + h * MsPerHour + mi * MsPerMinute + s * MsPerSecond + milli;
    assert r + offsetMs == (LocalDay(ms, offsetMs)) * MsPerDay + (h * MsPerHour + mi * MsPerMinute + s * MsPerSecond + milli);
    r
  }

  /** `d.setDate(d.getDate() - 1)`: one local calendar day earlier, same local time (no daylight saving). */
  function DayBefore(ms: int): int {
    ms - MsPerDay
  }

  /** The duration typed into the custom fields: `((d*86400 + h*3600 + m*60 + s) * 1000)`. */
  function CustomTotalMs(c: CustomInputs): int {
    (ParseIntOrZero(c.days) * 86400 + ParseIntOrZero(c.hours) * 3600 +
     ParseIntOrZero(c.minutes) * 60 + ParseIntOrZero(c.seconds)) * 1000
  }

  /**
   * `calculateTimeRange` as instants: the window for `rangeKey` at time
   * `nowMs` for a viewer `offsetMs` ahead of UTC, and what happens to the
   * custom-range error line. Every window is non-empty-or-instant, ends no
   * later than now, and spans at most 31 days.
   */
  function CalculateWindow(rangeKey: string, nowMs: int, offsetMs: int, custom: CustomInputs): (r: WindowResult)
    ensures r.window.startMs <= r.window.endMs <= nowMs
    ensures r.window.endMs - r.window.startMs <= MaxCustomMs
    ensures r.note != Untouched <==> rangeKey == "custom"
    ensures rangeKey != "yesterday" ==> r.window.endMs == nowMs
  {
    if rangeKey in FixedSpans then
      WindowResult(Window(nowMs - FixedSpans[rangeKey], nowMs), Untouched)
    else if rangeKey == "today" then
      WindowResult(Window(SetHours(nowMs, offsetMs, 0, 0, 0, 0), nowMs), Untouched)
    else if rangeKey == "yesterday" then
      var day := DayBefore(nowMs);
      WindowResult(Window(SetHours(day, offsetMs, 0, 0, 0, 0), SetHours(day, offsetMs, 23, 59, 59, 999)), Untouched)
    else if rangeKey == "custom" then
      var total := CustomTotalMs(custom);
      var capped := if total > MaxCustomMs then MaxCustomMs else total;
      var note := if total > MaxCustomMs then TooLarge else Cleared;
      WindowResult(Window(nowMs - (if capped > 0 then capped else MsPerHour), nowMs), note)
    else
      WindowResult(Window(nowMs - 24 * MsPerHour, nowMs), Untouched)
  }

  /** The window `calculateTimeRange` returns, as the text the API is sent. */
  datatype TimeRange = TimeRange(startTime: string, endTime: string)

  /** A window written as text: both ends through `formatDate`. */
  function WindowText(w: Window): (r: TimeRange)
    ensures |r.startTime| == 20 && |r.endTime| == 20
  {
    TimeRange(FormatDate(w.startMs), FormatDate(w.endMs))
  }

  /** Each text reads back to its end truncated to the whole second, for ends in the years 0..9999. */
  lemma WindowTextReadsBack(w: Window)
    ensures 0 <= Breakdown(w.startMs).date.year <= 9999 ==>
      ParseDate(WindowText(w).startTime).Some? &&
      ParseDate(WindowText(w).startTime).value == w.startMs - w.startMs % 1000
    ensures 0 <= Breakdown(w.endMs).date.year <= 9999 ==>
      ParseDate(WindowText(w).endTime).Some? &&
      ParseDate(WindowText(w).endTime).value == w.endMs - w.endMs % 1000
  {
    FormatDateReadsBack(w.startMs);
    FormatDateReadsBack(w.endMs);
  }

  /** `calculateTimeRange`: the window for the key, as text. */
  function CalculateTimeRange(rangeKey: string, nowMs: int, offsetMs: int, custom: CustomInputs): (r: TimeRange)
    ensures |r.startTime| == 20 && |r.endTime| == 20
  {
    WindowText(CalculateWindow(rangeKey, nowMs, offsetMs, custom).window)
  }

  /** Every key but `yesterday` ends at the current second, as read back from the text. */
  lemma TimeRangeEndsNow(rangeKey: string, nowMs: int, offsetMs: int, custom: CustomInputs)
    requires rangeKey != "yesterday" && 0 <= Breakdown(nowMs).date.year <= 9999
    ensures ParseDate(CalculateTimeRange(rangeKey, nowMs, offsetMs, custom).endTime).Some?
    ensures ParseDate(CalculateTimeRange(rangeKey, nowMs, offsetMs, custom).endTime).value == nowMs - nowMs % 1000
  {
    assert CalculateTimeRange(rangeKey, nowMs, offsetMs, custom).endTime == FormatDate(nowMs);
    FormatDateReadsBack(nowMs);
  }

  /** The fixed keys end now and reach back their span; any key the switch does not know reaches back 24 hours. */
  lemma NamedWindows(rangeKey: string, nowMs: int, offsetMs: int, custom: CustomInputs)
    ensures var w := CalculateWindow(rangeKey, nowMs, offsetMs, custom).window;
      (rangeKey in FixedSpans ==> w == Window(nowMs - FixedSpans[rangeKey], nowMs)) &&
      (rangeKey !in FixedSpans && rangeKey !in {"today", "yesterday", "custom"} ==>
         w == Window(nowMs - 24 * MsPerHour, nowMs))
  {
  }

  /** `today` runs from the viewer's local midnight of the current day up to now. */
  lemma TodayWindow(nowMs: int, offsetMs: int, custom: CustomInputs)
    ensures var w := CalculateWindow("today", nowMs, offsetMs, custom).window;
      w.endMs == nowMs && LocalDay(w.startMs, offsetMs) == LocalDay(nowMs, offsetMs) &&
      LocalMsOfDay(w.startMs, offsetMs) == 0
  {
    assert "today" !in FixedSpans;
  }

  /**
   * `yesterday` covers the previous local calendar day from 00:00:00.000 to
   * 23:59:59.999, and its calendar fields read exactly so.
   */
  lemma YesterdayWindow(nowMs: int, offsetMs: int, custom: CustomInputs)
    ensures var w := CalculateWindow("yesterday", nowMs, offsetMs, custom).window;
      LocalDay(w.startMs, offsetMs) == LocalDay(nowMs, offsetMs) - 1 &&
      LocalDay(w.endMs, offsetMs) == LocalDay(nowMs, offsetMs) - 1 &&
      LocalMsOfDay(w.startMs, offsetMs) == 0 && LocalMsOfDay(w.endMs, offsetMs) == MsPerDay - 1 &&
      w.endMs - w.startMs == MsPerDay - 1
  {
    assert "yesterday" !in FixedSpans;
    var day := DayBefore(nowMs);
    assert LocalDay(day, offsetMs) == LocalDay(nowMs, offsetMs) - 1 by {
      assert day + offsetMs == (nowMs + offsetMs) + (-1) * MsPerDay;
    }
  }

  /** The `yesterday` window depends only on the local day of `now`, not on the time of day. */
  lemma YesterdayIgnoresTimeOfDay(now1: int, now2: int, offsetMs: int, c1: CustomInputs, c2: CustomInputs)
    requires LocalDay(now1, offsetMs) == LocalDay(now2, offsetMs)
    ensures CalculateWindow("yesterday", now1, offsetMs, c1) == CalculateWindow("yesterday", now2, offsetMs, c2)
  {
    YesterdayWindow(now1, offsetMs, c1);
    YesterdayWindow(now2, offsetMs, c2);
    var w1 := CalculateWindow("yesterday", now1, offsetMs, c1).window;
    var w2 := CalculateWindow("yesterday", now2, offsetMs, c2).window;
    SameLocalInstant(w1.startMs, w2.startMs, offsetMs);
    SameLocalInstant(w1.endMs, w2.endMs, offsetMs);
  }

  /** Two instants with the same local day and local time of day are the same instant. */
  lemma SameLocalInstant(a: int, b: int, offsetMs: int)
    requires LocalDay(a, offsetMs) == LocalDay(b, offsetMs)
    requires LocalMsOfDay(a, offsetMs) == LocalMsOfDay(b, offsetMs)
    ensures a == b
  {
    assert a + offsetMs == LocalDay(a, offsetMs) * MsPerDay + LocalMsOfDay(a, offsetMs);
    assert b + offsetMs == LocalDay(b, offsetMs) * MsPerDay + LocalMsOfDay(b, offsetMs);
  }

  /**
   * A custom window ends now and lasts the typed duration, capped at 31 days
   * (with the error line set exactly when capping happens), or one hour when
   * the typed duration is not positive.
   */
  lemma CustomWindow(nowMs: int, offsetMs: int, custom: CustomInputs)
    ensures var r := CalculateWindow("custom", nowMs, offsetMs, custom);
      var total := CustomTotalMs(custom);
      r.window.endMs == nowMs &&
      (r.note == TooLarge <==> total > MaxCustomMs) &&
      (r.note == Cleared <==> total <= MaxCustomMs) &&
      (total > MaxCustomMs ==> r.window.endMs - r.window.startMs == MaxCustomMs) &&
      (0 < total <= MaxCustomMs ==> r.window.endMs - r.window.startMs == total) &&
      (total <= 0 ==> r.window.endMs - r.window.startMs == MsPerHour) &&
      0 < r.window.endMs - r.window.startMs
  {
    assert "custom" !in FixedSpans;
  }

  /** Whole-number custom fields give the duration they spell out, e.g. `1` day and `2` hours. */
  lemma CustomFromDigits(d: nat, h: nat, m: nat, s: nat)
    ensures CustomTotalMs(CustomInputs(NatToString(d), NatToString(h), NatToString(m), NatToString(s)))
         == d * MsPerDay + h * MsPerHour + m * MsPerMinute + s * MsPerSecond
  {
    ParseIntOfNatText(d);
    ParseIntOfNatText(h);
    ParseIntOfNatText(m);
    ParseIntOfNatText(s);
  }

  // ------------------------------------------------------------ unit pickers

  /** A count unit: its label and the divisor applied to every value. */
  datatype CountUnit = CountUnit(unit: string, divisor: int)

  /** The divisors `getBestCountUnit` chooses from; each is also the threshold at which it starts. */
  function CountTiers(locale: string): seq<int> {
    if locale == "en-US" then [1, 1000, 1000000, 1000000000] else [1, 1000, 10000, 100000000]
  }

  /**
   * `getBestCountUnit(maxValue)`: the largest tier not above the value (tier 1
   * when none is); NaN and +Infinity fail every `<` and land in the top tier.
   * `requestsWord` is the English word for requests from the message table.
   */
  function GetBestCountUnit(locale: string, maxValue: Num, requestsWord: string): (r: CountUnit)
    ensures r.divisor in CountTiers(locale)
    ensures maxValue.Finite? ==> r.divisor == 1 || r.divisor as real <= maxValue.value
    ensures maxValue.Finite? ==>
      forall d :: d in CountTiers(locale) && d as real <= maxValue.value ==> d <= r.divisor
    ensures maxValue.NaN? || maxValue.PosInf? ==> r.divisor == CountTiers(locale)[3]
    ensures maxValue.NegInf? ==> r.divisor == 1
  {
    if locale == "en-US" then
      if maxValue.Below(1000.0) then CountUnit(requestsWord, 1)
      else if maxValue.Below(1000000.0) then CountUnit("K " + requestsWord, 1000)
      else if maxValue.Below(1000000000.0) then CountUnit("M " + requestsWord, 1000000)
      else CountUnit("B " + requestsWord, 1000000000)
    else
      if maxValue.Below(1000.0) then CountUnit("次", 1)
      else if maxValue.Below(10000.0) then CountUnit("千次", 1000)
      else if maxValue.Below(100000000.0) then CountUnit("万次", 10000)
      else CountUnit("亿次", 100000000)
  }

  function Pow1024(i: nat): (r: int)
    ensures r >= 1
  {
    if i == 0 then 1 else 1024 * Pow1024(i - 1)
  }

  lemma {:induction false} Pow1024Monotone(i: nat, j: nat)
    requires i <= j
    ensures Pow1024(i) <= Pow1024(j)
  {
    if i < j {
      Pow1024Monotone(i, j - 1);
    }
  }

  /**
   * `floor(log(v) / log(1024))` clamped to `[0, top]` for a positive value:
   * the largest index up to `top` whose power of 1024 is not above `v`.
   */
  function ScaleIndex(v: Num, top: nat): (i: nat)
    requires v.PosInf? || (v.Finite? && v.value > 0.0)
    ensures i <= top
    ensures i == 0 || v.PosInf? || Pow1024(i) as real <= v.value
    ensures i == top || (v.Finite? && v.value < Pow1024(i + 1) as real)
  {
    if top == 0 then 0
    else if v.PosInf? || Pow1024(top) as real <= v.value then top
    else ScaleIndex(v, top - 1)
  }

  /** The index is the only one with that property: the two bounds pin it down. */
  lemma ScaleIndexUnique(v: real, top: nat, j: nat)
    requires v > 0.0 && j <= top
    requires j == 0 || Pow1024(j) as real <= v
    requires j == top || v < Pow1024(j + 1) as real
    ensures ScaleIndex(Finite(v), top) == j
  {
    var i := ScaleIndex(Finite(v), top);
    if i < j {
      Pow1024Monotone(i + 1, j);
    } else if j < i {
      Pow1024Monotone(j + 1, i);
    }
  }

  const ByteUnits: seq<string> := ["B", "KB", "MB", "GB", "TB", "PB"]
  const BitUnits: seq<string> := ["bps", "Kbps", "Mbps", "Gbps", "Tbps", "Pbps"]

  /** The result of `getBestUnit`; `Undefined` is `{unit: undefined, divisor: NaN}`, from the logarithm of a negative or NaN value. */
  datatype UnitPick = Pick(index: nat, unit: string, divisor: int) | Undefined

  /**
   * `getBestUnit(maxValue, type)`: 0 picks the first unit with divisor 1; a
   * positive value picks the largest power of 1024 not above it (at least the
   * first, at most PB); anything else has no unit.
   */
  function GetBestUnit(maxValue: Num, bandwidth: bool): (r: UnitPick)
    ensures r.Pick? <==> maxValue.PosInf? || (maxValue.Finite? && maxValue.value >= 0.0)
    ensures r.Pick? ==> r.index < 6 && r.divisor == Pow1024(r.index) &&
                        r.unit == (if bandwidth then BitUnits else ByteUnits)[r.index]
    ensures maxValue == Finite(0.0) ==> r.Pick? && r.index == 0 && r.divisor == 1
    ensures r.Pick? && maxValue.Finite? ==>
      (r.index == 0 || r.divisor as real <= maxValue.value) &&
      (r.index == 5 || maxValue.value < 1024.0 * r.divisor as real)
    ensures maxValue.PosInf? ==> r.Pick? && r.index == 5
  {
    var units := if bandwidth then BitUnits else ByteUnits;
    if maxValue == Finite(0.0) then Pick(0, units[0], 1)
    else if maxValue.PosInf? || (maxValue.Finite? && maxValue.value > 0.0) then
      var i := ScaleIndex(maxValue, 5);
      Pick(i, units[i], Pow1024(i))
    else Undefined
  }

  // ------------------------------------------------------------- formatters

  const ByteSizes: seq<string> := ["B", "KB", "MB", "GB", "TB", "PB", "EB", "ZB", "YB"]
  const BitSizes: seq<string> := ["bps", "Kbps", "Mbps", "Gbps", "Tbps", "Pbps", "Ebps", "Zbps", "Ybps"]

  /**
   * Which text `formatBytes`/`formatBps` produce. `Exact` is the whole text;
   * `Raw` is the value's own `toString` and a unit; `Scaled` is the value
   * divided by `1024^index` to two decimals and a unit (trailing zeros kept
   * only in the capped top unit).
   */
  datatype SizeText =
    | Exact(text: string)
    | Raw(value: real, unit: string)
    | Scaled(index: nat, unit: string, divisor: int, keepZeros: bool)

  /** The shared body of `formatBytes` (units `ByteSizes`) and `formatBps` (units `BitSizes`). */
  function FormatSize(v: Num, units: seq<string>): (r: SizeText)
    requires |units| == 9
    ensures v == Finite(0.0) ==> r == Exact("0 " + units[0])
    ensures v.Finite? && 0.0 < v.value < 1.0 ==> r == Raw(v.value, units[0])
    ensures (v.Finite? && v.value >= 1.0) || v.PosInf? ==>
      r.Scaled? && r.index <= 8 && r.unit == units[r.index] && r.divisor == Pow1024(r.index) &&
      (r.keepZeros <==> r.index == 8 && (v.PosInf? || Pow1024(9) as real <= v.value))
    ensures v.NaN? || v.NegInf? || (v.Finite? && v.value < 0.0) ==> r == Exact("NaN undefined")
  {
    if v == Finite(0.0) then Exact("0 " + units[0])
    else if v.Finite? && 0.0 < v.value < 1.0 then Raw(v.value, units[0])
    else if v.PosInf? || (v.Finite? && v.value >= 1.0) then
      var i := ScaleIndex(v, 9);
      if i == 9 then Scaled(8, units[8], Pow1024(8), true) else Scaled(i, units[i], Pow1024(i), false)
    else Exact("NaN undefined")
  }

  /** `formatBytes(0) == '0 B'`. */
  function FormatBytes(v: Num): (r: SizeText)
    ensures v == Finite(0.0) ==> r == Exact("0 B")
  {
    FormatSize(v, ByteSizes)
  }

  /** `formatBps(0) == '0 bps'`. */
  function FormatBps(v: Num): (r: SizeText)
    ensures v == Finite(0.0) ==> r == Exact("0 bps")
  {
    FormatSize(v, BitSizes)
  }

  /** Which text `formatCount` produces: `0`, the value's own `toString`, or the locale's compact notation. */
  datatype CountText = Zero | Plain(value: Num) | Compact(value: Num)

  /** `formatCount(num)`: `'0'` for zero, `num.toString()` below 1000, compact notation otherwise. */
  function FormatCount(num: Num): (r: CountText)
    ensures num == Finite(0.0) <==> r == Zero
    ensures r.Plain? <==> num != Finite(0.0) && num.Below(1000.0)
    ensures r != Zero ==> r.value == num
  {
    if num == Finite(0.0) then Zero
    else if num.Below(1000.0) then Plain(num)
    else Compact(num)
  }
}
