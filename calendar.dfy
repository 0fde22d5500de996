/** Calendar dates and local date-times as the client's JavaScript `Date` values
    see them: a proleptic Gregorian calendar, day numbers with the month and day
    overflow rules of the `Date` constructor, and the local `YYYY-MM-DD` string
    the booking pages build for the API. */
module Calendar {
  import opened Js

  /** A local calendar day; `month` is 1-based (`getMonth() + 1`). */
  datatype CalendarDate = CalendarDate(year: int, month: int, day: int)

  /** A local wall-clock instant ("now"), to the second. */
  datatype Moment = Moment(date: CalendarDate, hour: int, minute: int, second: int)

  predicate IsLeapYear(y: int)
  {
    y % 4 == 0 && (y % 100 != 0 || y % 400 == 0)
  }

  function DaysInMonth(y: int, m: int): int
    requires 1 <= m <= 12
  {
    if m == 2 then (if IsLeapYear(y) then 29 else 28)
    else if m == 4 || m == 6 || m == 9 || m == 11 then 30
    else 31
  }

  predicate ValidDate(d: CalendarDate)
  {
    1 <= d.month <= 12 && 1 <= d.day <= DaysInMonth(d.year, d.month)
  }

  predicate ValidMoment(t: Moment)
  {
    ValidDate(t.date) && 0 <= t.hour < 24 && 0 <= t.minute < 60 && 0 <= t.second < 60
  }

  /** `a` is an earlier calendar day than `b`. */
  predicate DateBefore(a: CalendarDate, b: CalendarDate)
  {
    a.year < b.year
    || (a.year == b.year && a.month < b.month)
    || (a.year == b.year && a.month == b.month && a.day < b.day)
  }

  // ---------------------------------------------------------------------------
  // day numbers

  /** Days from a fixed origin to the first of month `m` of year `y`
      (years counted from March, so that February comes last). */
  function DaysBeforeMonth(y: int, m: int): int
    requires 1 <= m <= 12
  {
    var y' := if m <= 2 then y - 1 else y;
    var mp := if m <= 2 then m + 9 else m - 3;
    365 * y' + y' / 4 - y' / 100 + y' / 400 + (153 * mp + 2) / 5
  }

  /** JavaScript's MakeDay(year, monthIndex, date): the month index may lie
      outside 0..11 and carries into the year, and the day of the month may lie
      outside the month and carries into the neighbouring months. */
  function MakeDay(year: int, monthIndex: int, date: int): int
  {
    DaysBeforeMonth(year + monthIndex / 12, monthIndex % 12 + 1) + date - 1
  }

  function DayNumber(d: CalendarDate): int
    requires 1 <= d.month <= 12
  {
    DaysBeforeMonth(d.year, d.month) + d.day - 1
  }

  /** `new Date(y, monthIndex, d, hh, mm, 0, 0)` in minutes from the day-number
      origin: a year argument in 0..99 means 1900..1999, and hours and minutes
      outside their ranges carry over like the month and the day. */
  function DateTimeMinutes(y: int, monthIndex: int, d: int, hh: int, mm: int): int
  {
    var year := if 0 <= y <= 99 then 1900 + y else y;
    MakeDay(year, monthIndex, d) * 1440 + hh * 60 + mm
  }

  /** A `Date` for "now", in seconds from the same origin. */
  function MomentSeconds(t: Moment): int
    requires 1 <= t.date.month <= 12
  {
    (DayNumber(t.date) * 1440 + t.hour * 60 + t.minute) * 60 + t.second
  }

  /** For `k` among 4, 100 and 400, `y / k - (y - 1) / k` is 1 exactly when `k` divides `y`. */
  lemma DivStep(y: int, k: int)
    requires k == 4 || k == 100 || k == 400
    ensures y / k - (y - 1) / k == (if y % k == 0 then 1 else 0)
  {
  }

  /** The first of March minus the first of February is February's length. */
  lemma {:induction false} FebruaryLength(y: int)
    ensures DaysBeforeMonth(y, 3) - DaysBeforeMonth(y, 2) == DaysInMonth(y, 2)
  {
    assert DaysBeforeMonth(y, 2) == 365 * (y - 1) + (y - 1) / 4 - (y - 1) / 100 + (y - 1) / 400 + 337;
    assert DaysBeforeMonth(y, 3) == 365 * y + y / 4 - y / 100 + y / 400;
    DivStep(y, 4);
    DivStep(y, 100);
    DivStep(y, 400);
    assert y % 400 == 0 ==> y % 100 == 0;
    assert y % 100 == 0 ==> y % 4 == 0;
  }

  /** Consecutive months within a year are `DaysInMonth` days apart. */
  lemma {:induction false} MonthStep(y: int, m: int)
    requires 1 <= m <= 11
    ensures DaysBeforeMonth(y, m + 1) == DaysBeforeMonth(y, m) + DaysInMonth(y, m)
  {
    if m == 2 {
      FebruaryLength(y);
    }
  }

  /** The first of January follows the 31 days of December. */
  lemma {:induction false} YearStep(y: int)
    ensures DaysBeforeMonth(y + 1, 1) == DaysBeforeMonth(y, 12) + 31
  {
  }

  /** Later months of a year start after the whole of an earlier month. */
  lemma {:induction false} MonthsIncrease(y: int, m1: int, m2: int)
    requires 1 <= m1 < m2 <= 12
    ensures DaysBeforeMonth(y, m1) + DaysInMonth(y, m1) <= DaysBeforeMonth(y, m2)
    decreases m2 - m1
  {
    MonthStep(y, m1);
    if m1 + 1 < m2 {
      MonthsIncrease(y, m1 + 1, m2);
    }
  }

  /** Every day of a year comes before every day of a later year. */
  lemma {:induction false} YearsIncrease(y1: int, y2: int)
    requires y1 < y2
    ensures DaysBeforeMonth(y1, 12) + 31 <= DaysBeforeMonth(y2, 1)
    decreases y2 - y1
  {
    YearStep(y1);
    if y1 + 1 < y2 {
      MonthsIncrease(y1 + 1, 1, 12);
      YearsIncrease(y1 + 1, y2);
    }
  }

  /** Day numbers follow calendar order: one valid date is earlier than another
      exactly when its day number is smaller, and two valid dates share a day
      number only when they are the same date. */
  lemma {:induction false} DayNumberOrder(a: CalendarDate, b: CalendarDate)
    requires ValidDate(a) && ValidDate(b)
    ensures DateBefore(a, b) <==> DayNumber(a) < DayNumber(b)
    ensures a == b <==> DayNumber(a) == DayNumber(b)
  {
    if DateBefore(a, b) {
      DayNumberBefore(a, b);
    } else if DateBefore(b, a) {
      DayNumberBefore(b, a);
    }
  }

  lemma {:induction false} DayNumberBefore(a: CalendarDate, b: CalendarDate)
    requires ValidDate(a) && ValidDate(b) && DateBefore(a, b)
    ensures DayNumber(a) < DayNumber(b)
  {
    if a.year < b.year {
      if a.month < 12 {
        MonthsIncrease(a.year, a.month, 12);
      }
      YearsIncrease(a.year, b.year);
      if 1 < b.month {
        MonthsIncrease(b.year, 1, b.month);
      }
    } else if a.month < b.month {
      MonthsIncrease(a.year, a.month, b.month);
    }
  }

  /** For a valid date the `Date` constructor's day is the date's day number. */
  lemma MakeDayValid(d: CalendarDate)
    requires ValidDate(d)
    ensures MakeDay(d.year, d.month - 1, d.day) == DayNumber(d)
  {
  }

  // ---------------------------------------------------------------------------
  // the local YYYY-MM-DD string

  /** `${getFullYear()}-${String(getMonth() + 1).padStart(2, "0")}-${String(getDate()).padStart(2, "0")}`:
      the year is not padded. */
  function IsoDate(d: CalendarDate): string
  {
    IntToString(d.year) + "-" + PadStart2(IntToString(d.month)) + "-" + PadStart2(IntToString(d.day))
  }

  /** For a valid date of a four-digit year the string is an RFC 3339 (section 5.6)
      `full-date`: four, two and two digits separated by dashes, whose values
      are the year, month and day. */
  lemma {:induction false} IsoDateIsFullDate(d: CalendarDate)
    requires ValidDate(d) && 1000 <= d.year <= 9999
    ensures |IsoDate(d)| == 10
    ensures IsoDate(d)[4] == '-' && IsoDate(d)[7] == '-'
    ensures AllDigits(IsoDate(d)[..4]) && AllDigits(IsoDate(d)[5..7]) && AllDigits(IsoDate(d)[8..])
    ensures DigitsValue(IsoDate(d)[..4]) == d.year
    ensures DigitsValue(IsoDate(d)[5..7]) == d.month
    ensures DigitsValue(IsoDate(d)[8..]) == d.day
  {
    var y := NatToString(d.year);
    var m := PadStart2(NatToString(d.month));
    var dd := PadStart2(NatToString(d.day));
    FourDigits(d.year);
    TwoDigits(d.month);
    TwoDigits(d.day);
    var s := IsoDate(d);
    assert s == y + "-" + m + "-" + dd;
    assert s[..4] == y;
    assert s[5..7] == m;
    assert s[8..] == dd;
  }

  /** Splitting the string at its dashes gives the three fields, each of which
      `Number` reads back as the year, month and day (for a year from 0 on). */
  lemma {:induction false} IsoDateFields(d: CalendarDate)
    requires ValidDate(d) && 0 <= d.year
    ensures Split(IsoDate(d), '-') == [IntToString(d.year), PadStart2(IntToString(d.month)), PadStart2(IntToString(d.day))]
    ensures ToNumber(IntToString(d.year)) == Some(d.year)
    ensures ToNumber(PadStart2(IntToString(d.month))) == Some(d.month)
    ensures ToNumber(PadStart2(IntToString(d.day))) == Some(d.day)
  {
    var y := NatToString(d.year);
    var m := PadStart2(NatToString(d.month));
    var dd := PadStart2(NatToString(d.day));
    TwoDigits(d.month);
    TwoDigits(d.day);
    DigitsExclude(y, '-');
    DigitsExclude(m, '-');
    DigitsExclude(dd, '-');
    SplitThree(y, m, dd, '-');
    ToNumberIntToString(d.year);
    ToNumberTwoDigits(d.month);
    ToNumberTwoDigits(d.day);
  }

  /** Different valid dates give different strings (for years from 0 on), so
      the string changes exactly when the selected day changes. */
  lemma {:induction false} IsoDateInjective(a: CalendarDate, b: CalendarDate)
    requires ValidDate(a) && ValidDate(b) && 0 <= a.year && 0 <= b.year
    requires IsoDate(a) == IsoDate(b)
    ensures a == b
  {
    IsoDateFields(a);
    IsoDateFields(b);
    var pa := Split(IsoDate(a), '-');
    assert ToNumber(pa[0]) == Some(a.year) && ToNumber(pa[0]) == Some(b.year);
    assert ToNumber(pa[1]) == Some(a.month) && ToNumber(pa[1]) == Some(b.month);
    assert ToNumber(pa[2]) == Some(a.day) && ToNumber(pa[2]) == Some(b.day);
  }
}
