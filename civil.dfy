/**
 * Proleptic Gregorian calendar arithmetic for JavaScript `Date` values.
 * A time value is a count of milliseconds since 1970-01-01T00:00:00Z; the
 * viewer's local time is modelled as the time value plus a fixed offset
 * (no daylight-saving changes).
 */
module Civil {

  const MsPerDay: int := 86400000
  const MsPerHour: int := 3600000
  const MsPerMinute: int := 60000
  const MsPerSecond: int := 1000

  predicate IsLeapYear(y: int) {
    y % 4 == 0 && (y % 100 != 0 || y % 400 == 0)
  }

  function YearLength(y: int): int {
    if IsLeapYear(y) then 366 else 365
  }

  /** Leap years before `y`, counted from a fixed origin (only differences are used). */
  function LeapsBefore(y: int): int {
    (y - 1) / 4 - (y - 1) / 100 + (y - 1) / 400
  }

  /** Days from 1970-01-01 to January 1st of year `y` (negative before 1970). */
  function DaysBeforeYear(y: int): int {
    365 * (y - 1970) + LeapsBefore(y) - LeapsBefore(1970)
  }

  /** Consecutive New Year's days are one year length apart. */
  lemma NextYear(y: int)
    ensures DaysBeforeYear(y + 1) == DaysBeforeYear(y) + YearLength(y)
  {
    StepAt4(y);
    StepAt100(y);
    StepAt400(y);
    Multiples(y);
    assert DaysBeforeYear(y + 1) - DaysBeforeYear(y) ==
      365 + (y / 4 - (y - 1) / 4) - (y / 100 - (y - 1) / 100) + (y / 400 - (y - 1) / 400);
  }

  /** A multiple of 400 is a multiple of 100, and a multiple of 100 is a multiple of 4. */
  lemma Multiples(y: int)
    ensures y % 400 == 0 ==> y % 100 == 0
    ensures y % 100 == 0 ==> y % 4 == 0
  {
    if y % 400 == 0 {
      var q := y / 400;
      assert y == 400 * q;
      TimesHundred(y, 4 * q);
    }
    if y % 100 == 0 {
      var q := y / 100;
      assert y == 100 * q;
      TimesFour(y, 25 * q);
    }
  }

  lemma TimesHundred(y: int, a: int)
    requires y == 100 * a
    ensures y % 100 == 0
  {
  }

  lemma TimesFour(y: int, a: int)
    requires y == 4 * a
    ensures y % 4 == 0
  {
  }

  /** Floor division by 4, 100 and 400 steps up by one exactly at the multiples. */
  lemma StepAt4(y: int)
    ensures y / 4 - (y - 1) / 4 == if y % 4 == 0 then 1 else 0
  {
  }

  lemma StepAt100(y: int)
    ensures y / 100 - (y - 1) / 100 == if y % 100 == 0 then 1 else 0
  {
  }

  lemma StepAt400(y: int)
    ensures y / 400 - (y - 1) / 400 == if y % 400 == 0 then 1 else 0
  {
  }

  /** The year whose days contain day number `z`, searched from the guess `y`. */
  function FindYear(z: int, y: int): (r: int)
    ensures DaysBeforeYear(r) <= z < DaysBeforeYear(r + 1)
    decreases (if DaysBeforeYear(y) > z then 1 else 0),
              (if DaysBeforeYear(y) > z then DaysBeforeYear(y) - z else z - DaysBeforeYear(y))
  {
    NextYear(y - 1);
    NextYear(y);
    if DaysBeforeYear(y) > z then FindYear(z, y - 1)
    else if DaysBeforeYear(y + 1) <= z then FindYear(z, y + 1)
    else y
  }

  /** Day of the year (0-based) on which month `m` starts; `m == 13` gives the year length. */
  function MonthStart(m: int, leap: bool): int
    requires 1 <= m <= 13
  {
    var base := [0, 31, 59, 90, 120, 151, 181, 212, 243, 273, 304, 334, 365][m - 1];
    if leap && m > 2 then base + 1 else base
  }

  function DaysInMonth(y: int, m: int): int
    requires 1 <= m <= 12
  {
    MonthStart(m + 1, IsLeapYear(y)) - MonthStart(m, IsLeapYear(y))
  }

  /** The month containing day-of-year `doy`, searched downwards from month `m`. */
  function FindMonth(doy: int, leap: bool, m: int): (r: int)
    requires 1 <= m <= 12 && 0 <= doy < MonthStart(m + 1, leap)
    ensures 1 <= r <= m
    ensures MonthStart(r, leap) <= doy < MonthStart(r + 1, leap)
  {
    if MonthStart(m, leap) <= doy then m else FindMonth(doy, leap, m - 1)
  }

  datatype Date = Date(year: int, month: int, day: int)

  predicate ValidDate(d: Date) {
    1 <= d.month <= 12 && 1 <= d.day <= DaysInMonth(d.year, d.month)
  }

  /** Day number (days since 1970-01-01) of a calendar date. */
  function DaysFromCivil(d: Date): int
    requires 1 <= d.month <= 12
  {
    DaysBeforeYear(d.year) + MonthStart(d.month, IsLeapYear(d.year)) + d.day - 1
  }

  /** The calendar date of a day number: a valid date whose day number is `z`. */
  function CivilFromDays(z: int): (d: Date)
    ensures ValidDate(d)
    ensures DaysFromCivil(d) == z
  {
    var y := FindYear(z, 1970 + z / 365);
    NextYear(y);
    var doy := z - DaysBeforeYear(y);
    var m := FindMonth(doy, IsLeapYear(y), 12);
    Date(y, m, doy - MonthStart(m, IsLeapYear(y)) + 1)
  }

  /** A time value broken down into calendar fields, as the `getUTC*` (or, shifted, the local `get*`) methods read it. */
  datatype DateTime = DateTime(date: Date, hour: int, minute: int, second: int, milli: int)

  predicate ValidDateTime(t: DateTime) {
    ValidDate(t.date) && 0 <= t.hour < 24 && 0 <= t.minute < 60 && 0 <= t.second < 60 && 0 <= t.milli < 1000
  }

  /** The time value of a broken-down date and time. */
  function Compose(t: DateTime): int
    requires 1 <= t.date.month <= 12
  {
    DaysFromCivil(t.date) * MsPerDay + t.hour * MsPerHour + t.minute * MsPerMinute + t.second * MsPerSecond + t.milli
  }

  /** The calendar fields of time value `ms`: valid fields that compose back to `ms`. */
  function Breakdown(ms: int): (t: DateTime)
    ensures ValidDateTime(t)
    ensures Compose(t) == ms
    ensures t.milli == ms % 1000
  {
    var dayMs := ms % MsPerDay;
    DaySplit(ms);
    TimeOfDaySplit(dayMs);
    DateTime(CivilFromDays(ms / MsPerDay), dayMs / MsPerHour, dayMs % MsPerHour / MsPerMinute,
             dayMs % MsPerMinute / MsPerSecond, dayMs % MsPerSecond)
  }

  lemma DaySplit(ms: int)
    ensures ms == ms / MsPerDay * MsPerDay + ms % MsPerDay
    ensures ms % 1000 == ms % MsPerDay % 1000
  {
    var q := ms / MsPerDay;
    var r := ms % MsPerDay;
    assert ms == (q * 86400 + r / 1000) * 1000 + r % 1000;
    ThousandsRemainder(ms, q * 86400 + r / 1000, r % 1000);
  }

  /** The remainder by 1000 of `a * 1000 + b` is `b` for a digit group `b`. */
  lemma ThousandsRemainder(x: int, a: int, b: int)
    requires 0 <= b < 1000 && x == a * 1000 + b
    ensures x % 1000 == b
  {
  }

  lemma TimeOfDaySplit(x: int)
    requires 0 <= x < MsPerDay
    ensures x == x / MsPerHour * MsPerHour + x % MsPerHour / MsPerMinute * MsPerMinute
                 + x % MsPerMinute / MsPerSecond * MsPerSecond + x % MsPerSecond
    ensures 0 <= x / MsPerHour < 24 && 0 <= x % MsPerHour / MsPerMinute < 60
    ensures 0 <= x % MsPerMinute / MsPerSecond < 60
  {
    var h := x / MsPerHour;
    var r1 := x % MsPerHour;
    var mi := r1 / MsPerMinute;
    var r2 := r1 % MsPerMinute;
    assert x == h * MsPerHour + r1;
    assert r1 == mi * MsPerMinute + r2;
    assert r2 == x % MsPerMinute by {
      assert x == (h * 60 + mi) * MsPerMinute + r2;
    }
    assert r2 == r2 / MsPerSecond * MsPerSecond + x % MsPerSecond by {
      assert x == ((h * 60 + mi) * 60 + r2 / MsPerSecond) * MsPerSecond + r2 % MsPerSecond;
    }
  }

  /** Local calendar fields of `ms` for a viewer whose clock is `offsetMs` ahead of UTC. */
  function LocalBreakdown(ms: int, offsetMs: int): (t: DateTime)
    ensures ValidDateTime(t)
    ensures Compose(t) == ms + offsetMs
    ensures t.milli == (ms + offsetMs) % 1000
  {
    Breakdown(ms + offsetMs)
  }

  /** Local day number of `ms`. */
  function LocalDay(ms: int, offsetMs: int): int {
    (ms + offsetMs) / MsPerDay
  }

  /** Milliseconds since local midnight. */
  function LocalMsOfDay(ms: int, offsetMs: int): (r: int)
    ensures 0 <= r < MsPerDay
  {
    (ms + offsetMs) % MsPerDay
  }

  /**
   * `d.setHours(0, 0, 0, 0)`: the time value of local midnight of the day holding `ms`.
   * It lies on the same local day, at local time 00:00:00.000, and not after `ms`.
   */
  function LocalMidnight(ms: int, offsetMs: int): (r: int)
    ensures LocalDay(r, offsetMs) == LocalDay(ms, offsetMs)
    ensures LocalMsOfDay(r, offsetMs) == 0
    ensures r <= ms && ms - r < MsPerDay
  {
    ms - LocalMsOfDay(ms, offsetMs)
  }
}
