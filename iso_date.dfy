/**
 * The timestamp strings the dashboard sends and reads back: `toISOString`,
 * `formatDate` (assets/dashboard/utils.js), which keeps the first 19
 * characters and appends `Z`, giving an RFC 3339 section 5.6 `date-time`
 * without fractional seconds, and `new Date(text)` on such a string.
 */
module IsoDate {
  import opened Wrappers
  import opened JsText
  import opened Civil

  /** The year as `toISOString` writes it: four digits in 0..9999, otherwise a sign and six digits. */
  function YearText(y: int): (r: string)
    ensures |r| >= 4
    ensures 0 <= y <= 9999 ==> r == Pad(y, 4)
  {
    if 0 <= y <= 9999 then Pad(y, 4)
    else (if y < 0 then "-" else "+") + Pad(if y < 0 then -y else y, 6)
  }

  /** `YYYY-MM-DDTHH:mm:ss.sssZ` for valid calendar fields. */
  function IsoText(t: DateTime): (r: string)
    requires ValidDateTime(t)
    ensures |r| >= 24
  {
    YearText(t.date.year) + "-" + Pad(t.date.month, 2) + "-" + Pad(t.date.day, 2) + "T" +
    Pad(t.hour, 2) + ":" + Pad(t.minute, 2) + ":" + Pad(t.second, 2) + "." + Pad(t.milli, 3) + "Z"
  }

  /** `Date.prototype.toISOString`: the UTC calendar fields of the instant, written out. */
  function ToIsoString(ms: int): (r: string)
    ensures |r| >= 24
  {
    IsoText(Breakdown(ms))
  }

  /** `formatDate`: the first 19 characters of the ISO string followed by `Z`. */
  function FormatDate(ms: int): (r: string)
    ensures |r| == 20 && r[19] == 'Z'
  {
    ToIsoString(ms)[..19] + "Z"
  }

  /** The shape `YYYY-MM-DDTHH:mm:ssZ`: separators in place and digits everywhere else. */
  predicate WellFormed(s: string) {
    |s| == 20 && s[4] == '-' && s[7] == '-' && s[10] == 'T' && s[13] == ':' && s[16] == ':' && s[19] == 'Z' &&
    AllDigits(s[0..4]) && AllDigits(s[5..7]) && AllDigits(s[8..10]) &&
    AllDigits(s[11..13]) && AllDigits(s[14..16]) && AllDigits(s[17..19])
  }

  /** The calendar fields written in a well-formed text, when they name a real date and time of day. */
  function ReadFields(s: string): (r: Option<DateTime>)
    ensures r.Some? ==> WellFormed(s) && ValidDateTime(r.value) && r.value.milli == 0
  {
    if !WellFormed(s) then None
    else
      var y := DigitsValue(s[0..4]);
      var mo := DigitsValue(s[5..7]);
      var d := DigitsValue(s[8..10]);
      var h := DigitsValue(s[11..13]);
      var mi := DigitsValue(s[14..16]);
      var sec := DigitsValue(s[17..19]);
      if 1 <= mo <= 12 && 1 <= d <= DaysInMonth(y, mo) && h < 24 && mi < 60 && sec < 60
      then Some(DateTime(Date(y, mo, d), h, mi, sec, 0))
      else None
  }

  /**
   * `new Date(s).getTime()` for the strings `formatDate` produces; `None` stands
   * for an Invalid Date (a malformed string or an out-of-range field).
   */
  function ParseDate(s: string): (r: Option<int>)
    ensures r.Some? <==> ReadFields(s).Some?
  {
    match ReadFields(s)
    case None => None
    case Some(t) => Some(Compose(t))
  }

  /** Every parsed instant is a whole second. */
  lemma ParseWholeSecond(s: string)
    requires ParseDate(s).Some?
    ensures ParseDate(s).value % 1000 == 0
  {
    ComposeWholeSecond(ReadFields(s).value);
  }

  /** An instant composed with millisecond 0 is a whole second. */
  lemma ComposeWholeSecond(t: DateTime)
    requires 1 <= t.date.month <= 12 && t.milli == 0
    ensures Compose(t) % 1000 == 0
  {
    var k := DaysFromCivil(t.date) * 86400 + t.hour * 3600 + t.minute * 60 + t.second;
    assert Compose(t) == k * 1000;
  }

  /** The text `y-mo-dTh:mi:sZ` assembled from its six fields. */
  function Layout(y: string, mo: string, d: string, h: string, mi: string, sec: string): string {
    y + "-" + mo + "-" + d + "T" + h + ":" + mi + ":" + sec + "Z"
  }

  /** The fields of `t`, zero-padded and laid out. */
  function FieldsLayout(t: DateTime): string
    requires ValidDateTime(t) && 0 <= t.date.year
  {
    Layout(Pad(t.date.year, 4), Pad(t.date.month, 2), Pad(t.date.day, 2),
           Pad(t.hour, 2), Pad(t.minute, 2), Pad(t.second, 2))
  }

  /** Cutting a full ISO layout after the seconds and closing it with `Z` leaves the seconds layout. */
  lemma CutAfterSeconds(y: string, mo: string, d: string, h: string, mi: string, sec: string, milli: string)
    requires |y| == 4 && |mo| == 2 && |d| == 2 && |h| == 2 && |mi| == 2 && |sec| == 2
    ensures (y + "-" + mo + "-" + d + "T" + h + ":" + mi + ":" + sec + "." + milli + "Z")[..19] + "Z"
         == Layout(y, mo, d, h, mi, sec)
  {
    var full := y + "-" + mo + "-" + d + "T" + h + ":" + mi + ":" + sec + "." + milli + "Z";
    var head := y + "-" + mo + "-" + d + "T" + h + ":" + mi + ":" + sec;
    assert full == head + ("." + milli + "Z");
    assert full[..19] == head;
  }

  /** For years 0..9999 the ISO text cut to the second and closed with `Z` is the layout of the padded fields. */
  lemma SecondsText(t: DateTime)
    requires ValidDateTime(t) && 0 <= t.date.year <= 9999
    ensures IsoText(t)[..19] + "Z" == FieldsLayout(t)
  {
    PadRoundTrip(t.date.year, 4);
    PadRoundTrip(t.date.month, 2);
    PadRoundTrip(t.date.day, 2);
    PadRoundTrip(t.hour, 2);
    PadRoundTrip(t.minute, 2);
    PadRoundTrip(t.second, 2);
    CutAfterSeconds(Pad(t.date.year, 4), Pad(t.date.month, 2), Pad(t.date.day, 2),
                    Pad(t.hour, 2), Pad(t.minute, 2), Pad(t.second, 2), Pad(t.milli, 3));
  }

  /** The six fields of a laid-out text are read back from their positions. */
  lemma ParseLayout(y: string, mo: string, d: string, h: string, mi: string, sec: string)
    requires |y| == 4 && |mo| == 2 && |d| == 2 && |h| == 2 && |mi| == 2 && |sec| == 2
    requires AllDigits(y) && AllDigits(mo) && AllDigits(d) && AllDigits(h) && AllDigits(mi) && AllDigits(sec)
    ensures var s := Layout(y, mo, d, h, mi, sec);
      WellFormed(s) && s[0..4] == y && s[5..7] == mo && s[8..10] == d &&
      s[11..13] == h && s[14..16] == mi && s[17..19] == sec
  {
    var s := Layout(y, mo, d, h, mi, sec);
    assert s[0..4] == y;
    assert s[5..7] == mo;
    assert s[8..10] == d;
    assert s[11..13] == h;
    assert s[14..16] == mi;
    assert s[17..19] == sec;
  }

  /** Reading the layout of valid fields gives back those fields, at millisecond 0. */
  lemma ReadFieldsLayout(t: DateTime)
    requires ValidDateTime(t) && 0 <= t.date.year <= 9999
    ensures ReadFields(FieldsLayout(t)) == Some(t.(milli := 0))
  {
    PadRoundTrip(t.date.year, 4);
    PadRoundTrip(t.date.month, 2);
    PadRoundTrip(t.date.day, 2);
    PadRoundTrip(t.hour, 2);
    PadRoundTrip(t.minute, 2);
    PadRoundTrip(t.second, 2);
    ParseLayout(Pad(t.date.year, 4), Pad(t.date.month, 2), Pad(t.date.day, 2),
                Pad(t.hour, 2), Pad(t.minute, 2), Pad(t.second, 2));
  }

  lemma DropMilli(t: DateTime)
    requires 1 <= t.date.month <= 12
    ensures Compose(t.(milli := 0)) == Compose(t) - t.milli
  {
  }
}

/** The read-back property of the timestamp text. */
module IsoRoundTrip {
  import opened Wrappers
  import opened Civil
  import opened IsoDate

  /**
   * For every instant in the years 0..9999, reading back `formatDate` gives the
   * instant truncated to the whole second: the text is exact up to the dropped
   * milliseconds.
   */
  lemma ParseFormatDate(ms: int)
    requires 0 <= Breakdown(ms).date.year <= 9999
    ensures ParseDate(FormatDate(ms)).Some?
    ensures ParseDate(FormatDate(ms)).value == ms - ms % 1000
  {
    ParseFormatDateFields(ms);
    DropMilliOfInstant(ms);
  }

  /** The same, for any instant: within the years 0..9999 the text reads back to the whole second. */
  lemma FormatDateReadsBack(ms: int)
    ensures 0 <= Breakdown(ms).date.year <= 9999 ==>
      ParseDate(FormatDate(ms)).Some? && ParseDate(FormatDate(ms)).value == ms - ms % 1000
  {
    if 0 <= Breakdown(ms).date.year <= 9999 {
      ParseFormatDate(ms);
    }
  }

  /** A whole-second instant in the years 0..9999 reads back from its text exactly. */
  lemma WholeSecondReadsBack(ms: int)
    requires ms % 1000 == 0
    ensures 0 <= Breakdown(ms).date.year <= 9999 ==>
      ParseDate(FormatDate(ms)).Some? && ParseDate(FormatDate(ms)).value == ms
  {
    FormatDateReadsBack(ms);
  }

  lemma ParseFormatDateFields(ms: int)
    requires 0 <= Breakdown(ms).date.year <= 9999
    ensures ParseDate(FormatDate(ms)).Some?
    ensures ParseDate(FormatDate(ms)).value == Compose(Breakdown(ms)) - Breakdown(ms).milli
  {
    ParseSecondsText(Breakdown(ms));
  }

  lemma DropMilliOfInstant(ms: int)
    ensures Compose(Breakdown(ms)) - Breakdown(ms).milli == ms - ms % 1000
  {
  }

  /** The seconds-precision text of valid fields parses to their instant without the milliseconds. */
  lemma ParseSecondsText(t: DateTime)
    requires ValidDateTime(t) && 0 <= t.date.year <= 9999
    ensures ParseDate(IsoText(t)[..19] + "Z").Some?
    ensures ParseDate(IsoText(t)[..19] + "Z").value == Compose(t) - t.milli
  {
    SecondsText(t);
    ReadFieldsLayout(t);
    DropMilli(t);
  }
}
