/**
 * Dates as the planning page sees them through JavaScript's Date: an instant
 * is a count of milliseconds since 1970-01-01 00:00 in local time, and the
 * calendar fields (year, month, day of month, weekday) are derived from the
 * instant's day number. The local time zone is taken to have no daylight
 * saving shifts, so every day is exactly 86 400 000 ms long.
 */
module Calendar {

  type Instant = int

  const MsPerDay: int := 86400000

  /** The day an instant falls on, counted from 1970-01-01 (day 0). */
  function DayNumber(t: Instant): int {
    t / MsPerDay
  }

  /** `startOfDay`: midnight of the instant's day. */
  function StartOfDay(t: Instant): (r: Instant)
    ensures r <= t < r + MsPerDay
    ensures r % MsPerDay == 0
    ensures DayNumber(r) == DayNumber(t)
  {
    DayNumber(t) * MsPerDay
  }

  /** `addDays`: the same time of day, `n` days later (earlier when `n` is negative). */
  function AddDays(t: Instant, n: int): (r: Instant)
    ensures DayNumber(r) == DayNumber(t) + n
    ensures r - StartOfDay(r) == t - StartOfDay(t)
  {
    t + n * MsPerDay
  }

  /** JavaScript's Math.round: the nearest integer, halves rounded up. */
  function JsRound(x: real): (r: int)
    ensures x - 0.5 < r as real <= x + 0.5
  {
    (x + 0.5).Floor
  }

  /** `diffDays(a, b)`: whole days from `a`'s day to `b`'s day. */
  function DiffDays(a: Instant, b: Instant): (r: int)
    ensures r == DayNumber(b) - DayNumber(a)
  {
    var k := DayNumber(b) - DayNumber(a);
    assert ((StartOfDay(b) - StartOfDay(a)) as real) / (MsPerDay as real) == k as real;
    JsRound(((StartOfDay(b) - StartOfDay(a)) as real) / (MsPerDay as real))
  }

  /** Adding `n` days and measuring the gap gives back `n`. */
  lemma DiffDaysAddDays(a: Instant, n: int)
    ensures DiffDays(a, AddDays(a, n)) == n
    ensures AddDays(AddDays(a, n), -n) == a
  {
  }

  /** Later instants are no fewer days away. */
  lemma {:induction false} DiffDaysMonotone(a: Instant, b: Instant, c: Instant)
    requires b <= c
    ensures DiffDays(a, b) <= DiffDays(a, c)
  {
  }

  // ---------------------------------------------------------------------------
  // Weekdays

  /** `getDay()` of a day number: 0 is Sunday, 6 is Saturday; day 0 was a Thursday. */
  function Weekday(day: int): (w: int)
    ensures 0 <= w < 7
  {
    (day + 4) % 7
  }

  predicate IsWeekend(day: int) {
    Weekday(day) == 0 || Weekday(day) == 6
  }

  /** Days since the most recent Monday: 0 for Monday, 6 for Sunday. */
  function IsoWeekday(day: int): (w: int)
    ensures 0 <= w < 7
  {
    (Weekday(day) + 6) % 7
  }

  /** The Thursday of the Monday-to-Sunday week containing `day`. */
  function ThursdayOf(day: int): (th: int)
    ensures day - 3 <= th <= day + 3
    ensures Weekday(th) == 4
  {
    day + 3 - (Weekday(day) + 6) % 7
  }

  /** Two days with the same weekday are a whole number of weeks apart. */
  lemma SameWeekdayWholeWeeks(a: int, b: int)
    requires Weekday(a) == Weekday(b)
    ensures a - b == 7 * ((a - b) / 7)
  {
    var qa, qb := (a + 4) / 7, (b + 4) / 7;
    assert a - b == 7 * (qa - qb);
  }

  // ---------------------------------------------------------------------------
  // Years

  predicate IsLeapYear(y: int) {
    y % 4 == 0 && (y % 100 != 0 || y % 400 == 0)
  }

  function DaysInYear(y: int): int {
    if IsLeapYear(y) then 366 else 365
  }

  /** Day number of January 1 of year `y`. */
  function YearStart(y: int): int
    decreases if y < 1970 then 1970 - y else y - 1970
  {
    if y == 1970 then 0
    else if y > 1970 then YearStart(y - 1) + DaysInYear(y - 1)
    else YearStart(y + 1) - DaysInYear(y)
  }

  lemma YearStartStep(y: int)
    ensures YearStart(y + 1) == YearStart(y) + DaysInYear(y)
  {
  }

  lemma {:induction false} YearStartMonotone(a: int, b: int)
    requires a <= b
    ensures YearStart(a) + 365 * (b - a) <= YearStart(b)
    decreases b - a
  {
    if a < b {
      YearStartStep(b - 1);
      YearStartMonotone(a, b - 1);
    }
  }

  /** The year containing `day`, found by walking year by year from `y`. */
  function YearFrom(y: int, day: int): (r: int)
    ensures YearStart(r) <= day < YearStart(r + 1)
    decreases (if day < YearStart(y) then YearStart(y) - day else 0),
              (if day >= YearStart(y) then day - YearStart(y) else 0)
  {
    YearStartStep(y);
    YearStartStep(y - 1);
    if day < YearStart(y) then YearFrom(y - 1, day)
    else if day >= YearStart(y + 1) then YearFrom(y + 1, day)
    else y
  }

  /** `getFullYear()` of a day number. */
  function YearOf(day: int): (y: int)
    ensures YearStart(y) <= day < YearStart(y + 1)
  {
    YearFrom(1970, day)
  }

  lemma YearOfUnique(day: int, y: int)
    requires YearStart(y) <= day < YearStart(y + 1)
    ensures YearOf(day) == y
  {
    var r := YearOf(day);
    if r < y {
      YearStartMonotone(r + 1, y);
    } else if r > y {
      YearStartMonotone(y + 1, r);
    }
  }

  lemma YearOfMonotone(d1: int, d2: int)
    requires d1 <= d2
    ensures YearOf(d1) <= YearOf(d2)
  {
    var y1, y2 := YearOf(d1), YearOf(d2);
    if y2 < y1 {
      YearStartMonotone(y2 + 1, y1);
    }
  }

  // ---------------------------------------------------------------------------
  // Months

  /** Days of the year before month `m` (0 = January); `m == 12` gives the year's length. */
  function DaysBeforeMonth(m: int, leap: bool): int
    requires 0 <= m <= 12
  {
    var common := match m
      case 0 => 0
      case 1 => 31
      case 2 => 59
      case 3 => 90
      case 4 => 120
      case 5 => 151
      case 6 => 181
      case 7 => 212
      case 8 => 243
      case 9 => 273
      case 10 => 304
      case 11 => 334
      case _ => 365;
    if leap && m >= 2 then common + 1 else common
  }

  /** Every month has between 28 and 31 days. */
  lemma MonthLength(m: int, leap: bool)
    requires 0 <= m <= 11
    ensures 28 <= DaysBeforeMonth(m + 1, leap) - DaysBeforeMonth(m, leap) <= 31
  {
  }

  lemma {:induction false} DaysBeforeMonthMonotone(a: int, b: int, leap: bool)
    requires 0 <= a <= b <= 12
    ensures DaysBeforeMonth(a, leap) + 28 * (b - a) <= DaysBeforeMonth(b, leap)
    decreases b - a
  {
    if a < b {
      MonthLength(b - 1, leap);
      DaysBeforeMonthMonotone(a, b - 1, leap);
    }
  }

  /** The month containing day-of-year `doy`, searching from month `m` on. */
  function MonthFrom(m: int, doy: int, leap: bool): (r: int)
    requires 0 <= m <= 11 && DaysBeforeMonth(m, leap) <= doy < DaysBeforeMonth(12, leap)
    ensures m <= r <= 11
    ensures DaysBeforeMonth(r, leap) <= doy < DaysBeforeMonth(r + 1, leap)
    decreases 12 - m
  {
    if m == 11 || doy < DaysBeforeMonth(m + 1, leap) then m else MonthFrom(m + 1, doy, leap)
  }

  lemma {:induction false} MonthFromFinds(s: int, doy: int, leap: bool, m: int)
    requires 0 <= s <= m <= 11
    requires DaysBeforeMonth(s, leap) <= doy < DaysBeforeMonth(12, leap)
    requires DaysBeforeMonth(m, leap) <= doy < DaysBeforeMonth(m + 1, leap)
    ensures MonthFrom(s, doy, leap) == m
    decreases m - s
  {
    if s < m {
      DaysBeforeMonthMonotone(s + 1, m, leap);
      MonthFromSkips(s, doy, leap);
      MonthFromFinds(s + 1, doy, leap, m);
    } else {
      MonthFromStops(s, doy, leap);
    }
  }

  lemma MonthFromStops(m: int, doy: int, leap: bool)
    requires 0 <= m <= 11
    requires DaysBeforeMonth(m, leap) <= doy < DaysBeforeMonth(m + 1, leap)
    requires doy < DaysBeforeMonth(12, leap)
    ensures MonthFrom(m, doy, leap) == m
  {
  }

  lemma MonthFromSkips(s: int, doy: int, leap: bool)
    requires 0 <= s < 11
    requires DaysBeforeMonth(s + 1, leap) <= doy < DaysBeforeMonth(12, leap)
    ensures MonthFrom(s, doy, leap) == MonthFrom(s + 1, doy, leap)
  {
  }

  /** A day of the year lies in exactly one month. */
  lemma MonthFromUnique(doy: int, leap: bool, m: int)
    requires 0 <= m <= 11 && DaysBeforeMonth(m, leap) <= doy < DaysBeforeMonth(m + 1, leap)
    ensures MonthFrom(0, doy, leap) == m
  {
    DaysBeforeMonthMonotone(0, m, leap);
    DaysBeforeMonthMonotone(m + 1, 12, leap);
    MonthFromFinds(0, doy, leap, m);
  }

  /** Position of `day` within its year: 0 for January 1. */
  function DayOfYear(day: int): (doy: int)
    ensures 0 <= doy < DaysBeforeMonth(12, IsLeapYear(YearOf(day)))
    ensures doy == day - YearStart(YearOf(day))
  {
    YearStartStep(YearOf(day));
    day - YearStart(YearOf(day))
  }

  /** `getMonth()` of a day number: 0 for January, 11 for December. */
  function MonthOf(day: int): (m: int)
    ensures 0 <= m <= 11
    ensures DaysBeforeMonth(m, IsLeapYear(YearOf(day))) <= DayOfYear(day)
    ensures DayOfYear(day) < DaysBeforeMonth(m + 1, IsLeapYear(YearOf(day)))
  {
    var leap := IsLeapYear(YearOf(day));
    assert DaysBeforeMonth(0, leap) == 0;
    MonthFrom(0, DayOfYear(day), leap)
  }

  /** `getDate()` of a day number: the day of the month, from 1. */
  function DayOfMonth(day: int): (d: int)
    ensures 1 <= d <= 31
    ensures d == DayOfYear(day) - DaysBeforeMonth(MonthOf(day), IsLeapYear(YearOf(day))) + 1
  {
    var leap := IsLeapYear(YearOf(day));
    var m := MonthOf(day);
    MonthLength(m, leap);
    DayOfYear(day) - DaysBeforeMonth(m, leap) + 1
  }

  /** `day` falls in month `m` (0-based) of year `y`. */
  predicate InMonth(day: int, y: int, m: int) {
    0 <= m <= 11
    && YearStart(y) + DaysBeforeMonth(m, IsLeapYear(y)) <= day
    && day < YearStart(y) + DaysBeforeMonth(m + 1, IsLeapYear(y))
  }

  /** The year, month and day of month of a day are those of the month it falls in. */
  lemma InMonthDate(day: int, y: int, m: int)
    requires InMonth(day, y, m)
    ensures YearOf(day) == y && MonthOf(day) == m
    ensures DayOfMonth(day) == day - YearStart(y) - DaysBeforeMonth(m, IsLeapYear(y)) + 1
  {
    var leap := IsLeapYear(y);
    DaysBeforeMonthMonotone(0, m, leap);
    DaysBeforeMonthMonotone(m + 1, 12, leap);
    YearStartStep(y);
    YearOfUnique(day, y);
    MonthFromUnique(day - YearStart(y), leap, m);
  }

  lemma InMonthOfDate(day: int)
    ensures InMonth(day, YearOf(day), MonthOf(day))
  {
  }

  /** A day earlier in the same month by fewer days than the day of the month is in the same month. */
  lemma SameMonthEarlier(day: int, earlier: int)
    requires earlier <= day && day - earlier < DayOfMonth(day)
    ensures MonthOf(earlier) == MonthOf(day)
  {
    var y, m := YearOf(day), MonthOf(day);
    InMonthOfDate(day);
    assert InMonth(earlier, y, m);
    InMonthDate(earlier, y, m);
  }

  /**
   * When a day's month differs from the month of an earlier day, the day
   * falls within as many days of its month's start as separate the two.
   */
  lemma MonthChangeNearMonthStart(earlier: int, day: int)
    requires earlier <= day
    requires MonthOf(earlier) != MonthOf(day)
    ensures DayOfMonth(day) <= day - earlier
  {
    if DayOfMonth(day) > day - earlier {
      SameMonthEarlier(day, earlier);
    }
  }

  /**
   * Conversely, a day at most 28 days before `day` but before the first of
   * `day`'s month lies in another month (the previous one).
   */
  lemma MonthChangesBeforeMonthStart(earlier: int, day: int)
    requires earlier <= day
    requires DayOfMonth(day) <= day - earlier <= 28
    ensures MonthOf(earlier) != MonthOf(day)
  {
    var y, m := YearOf(day), MonthOf(day);
    InMonthOfDate(day);
    InMonthDate(day, y, m);
    var first := YearStart(y) + DaysBeforeMonth(m, IsLeapYear(y));
    assert first - 28 <= earlier < first;
    if m > 0 {
      InPreviousMonth(earlier, y, m);
      InMonthDate(earlier, y, m - 1);
    } else {
      InPreviousDecember(earlier, y);
      InMonthDate(earlier, y - 1, 11);
    }
  }

  /** The 28 days before the first of a month other than January lie in the month before. */
  lemma InPreviousMonth(day: int, y: int, m: int)
    requires 0 < m <= 11
    requires YearStart(y) + DaysBeforeMonth(m, IsLeapYear(y)) - 28 <= day < YearStart(y) + DaysBeforeMonth(m, IsLeapYear(y))
    ensures InMonth(day, y, m - 1)
  {
    MonthLength(m - 1, IsLeapYear(y));
  }

  /** The 28 days before the first of January lie in the previous December. */
  lemma InPreviousDecember(day: int, y: int)
    requires YearStart(y) + DaysBeforeMonth(0, IsLeapYear(y)) - 28 <= day < YearStart(y) + DaysBeforeMonth(0, IsLeapYear(y))
    ensures InMonth(day, y - 1, 11)
  {
    YearStartStep(y - 1);
  }

  /** Between two days at most 28 apart, the month changes exactly when the later one is that close to its month's start. */
  lemma MonthChangeIff(earlier: int, day: int)
    requires earlier <= day <= earlier + 28
    ensures MonthOf(earlier) != MonthOf(day) <==> DayOfMonth(day) <= day - earlier
  {
    if MonthOf(earlier) != MonthOf(day) {
      MonthChangeNearMonthStart(earlier, day);
    }
    if DayOfMonth(day) <= day - earlier {
      MonthChangesBeforeMonthStart(earlier, day);
    }
  }

  // ---------------------------------------------------------------------------
  // ISO 8601 week numbers

  /** January 4 of year `y`, the day `getWeekNumber` calls `week1`. */
  function Jan4(y: int): int {
    YearStart(y) + 3
  }

  /**
   * `getWeekNumber`, following the JavaScript function step by step: move to
   * the Thursday of the week, take January 4 of that Thursday's year, and
   * round the number of weeks between the two weeks' Thursdays.
   */
  function WeekNumber(t: Instant): int {
    var thursday := ThursdayOf(DayNumber(t));
    WeekCount(thursday, Jan4(YearOf(thursday)))
  }

  /** The closing expression of `getWeekNumber`, for a Thursday and the January 4 of its year. */
  function WeekCount(thursday: int, jan4: int): int {
    1 + JsRound(((thursday - jan4) as real - 3.0 + ((Weekday(jan4) + 6) % 7) as real) / 7.0)
  }

  lemma WeekCountExact(thursday: int, jan4: int, k: int)
    requires thursday - ThursdayOf(jan4) == 7 * k
    ensures WeekCount(thursday, jan4) == 1 + k
  {
    var x := (thursday - jan4) - 3 + IsoWeekday(jan4);
    assert x == 7 * k;
    assert ((thursday - jan4) as real - 3.0 + IsoWeekday(jan4) as real) == x as real;
    assert (x as real) / 7.0 == k as real;
  }

  /**
   * Section 4.1.4 of ISO 8601:2004: week 1 of a year is the week containing
   * its first Thursday; a week belongs to the year of its Thursday.
   */
  ghost predicate IsFirstThursday(th: int, y: int) {
    Weekday(th) == 4 && YearOf(th) == y && YearOf(WeekBefore(th)) < y
  }

  /** The same weekday one week earlier. */
  function WeekBefore(day: int): int {
    day - 7
  }

  /** The Thursday of the week holding January 4 lies in the year itself ... */
  lemma Jan4ThursdayInYear(y: int)
    ensures YearOf(ThursdayOf(Jan4(y))) == y
  {
    var th := ThursdayOf(Jan4(y));
    YearStartStep(y);
    YearOfUnique(th, y);
  }

  /** ... and the Thursday a week earlier lies in an earlier year. */
  lemma Jan4ThursdayWeekBefore(y: int)
    ensures YearOf(WeekBefore(ThursdayOf(Jan4(y)))) < y
  {
    var ys := YearStart(y);
    var prev := WeekBefore(ThursdayOf(Jan4(y)));
    assert prev <= ys - 1;
    YearStartStep(y - 1);
    YearOfUnique(ys - 1, y - 1);
    YearOfMonotone(prev, ys - 1);
  }

  lemma FirstThursdayExists(y: int)
    ensures IsFirstThursday(ThursdayOf(Jan4(y)), y)
  {
    Jan4ThursdayInYear(y);
    Jan4ThursdayWeekBefore(y);
  }

  lemma FirstThursdayUnique(a: int, b: int, y: int)
    requires IsFirstThursday(a, y) && IsFirstThursday(b, y)
    ensures a == b
  {
    SameWeekdayWholeWeeks(a, b);
    if a < b {
      YearOfMonotone(a, WeekBefore(b));
    } else if b < a {
      YearOfMonotone(b, WeekBefore(a));
    }
  }

  /** The first Thursday of year `y` is the Thursday of the week holding January 4. */
  lemma FirstThursdayIsJan4Week(y: int, first: int)
    requires IsFirstThursday(first, y)
    ensures first == ThursdayOf(Jan4(y))
  {
    FirstThursdayExists(y);
    FirstThursdayUnique(first, ThursdayOf(Jan4(y)), y);
  }

  /** A Thursday of year `y` is between 0 and 52 weeks after the first one. */
  lemma WeeksAfterFirstThursday(th: int, first: int, y: int)
    requires Weekday(th) == 4 && YearOf(th) == y
    requires IsFirstThursday(first, y)
    ensures 0 <= th - first <= 7 * 52
  {
    SameWeekdayWholeWeeks(th, first);
    if th < first {
      YearOfMonotone(th, WeekBefore(first));
    }
    FirstThursdayIsJan4Week(y, first);
    YearStartStep(y);
  }

  /**
   * The week number computed by `getWeekNumber` is 1 plus the number of
   * whole weeks between the first Thursday of the week's year and the
   * Thursday of the week, and so lies between 1 and 53.
   */
  lemma WeekNumberIsIso(t: Instant, firstThursday: int)
    requires IsFirstThursday(firstThursday, YearOf(ThursdayOf(DayNumber(t))))
    ensures (ThursdayOf(DayNumber(t)) - firstThursday) % 7 == 0
    ensures WeekNumber(t) == 1 + (ThursdayOf(DayNumber(t)) - firstThursday) / 7
    ensures 1 <= WeekNumber(t) <= 53
  {
    var th := ThursdayOf(DayNumber(t));
    var y := YearOf(th);
    FirstThursdayIsJan4Week(y, firstThursday);
    SameWeekdayWholeWeeks(th, firstThursday);
    var k := (th - firstThursday) / 7;
    WeekCountExact(th, Jan4(y), k);
    WeeksAfterFirstThursday(th, firstThursday, y);
  }

  /** Every instant has a week number between 1 and 53. */
  lemma WeekNumberRange(t: Instant)
    ensures 1 <= WeekNumber(t) <= 53
  {
    var y := YearOf(ThursdayOf(DayNumber(t)));
    FirstThursdayExists(y);
    WeekNumberIsIso(t, ThursdayOf(Jan4(y)));
  }
}
