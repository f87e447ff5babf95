/**
 * The reporting period of the billing lookup (last_month_period in
 * assume_role_get_billing.py): from the first day of the previous month to
 * the first day of the current month, written as ISO 8601 calendar dates.
 * "Today" is a parameter instead of the system clock.
 */
module BillingPeriod {
  import opened Wrappers

  /** A proleptic Gregorian calendar date, as Python's `date` holds it. */
  datatype Date = Date(year: int, month: int, day: int)

  predicate IsLeapYear(year: int) {
    year % 4 == 0 && (year % 100 != 0 || year % 400 == 0)
  }

  function DaysInMonth(year: int, month: int): (n: int)
    requires 1 <= month <= 12
    ensures 28 <= n <= 31
    ensures n == 29 <==> month == 2 && IsLeapYear(year)
  {
    if month == 2 then (if IsLeapYear(year) then 29 else 28)
    else if month == 4 || month == 6 || month == 9 || month == 11 then 30
    else 31
  }

  /** The dates Python's `date` can represent: years 1 to 9999. */
  predicate ValidDate(d: Date) {
    && 1 <= d.year <= 9999
    && 1 <= d.month <= 12
    && 1 <= d.day <= DaysInMonth(d.year, d.month)
  }

  /** Chronological order. */
  predicate Before(a: Date, b: Date) {
    || a.year < b.year
    || (a.year == b.year && a.month < b.month)
    || (a.year == b.year && a.month == b.month && a.day < b.day)
  }

  // ---------------------------------------------------------------------
  // Day numbers: the reference for "one day earlier"
  // ---------------------------------------------------------------------

  /** Days in the years before `year`. */
  function DaysBeforeYear(year: int): int
    requires year >= 1
  {
    var y := year - 1;
    365 * y + y / 4 - y / 100 + y / 400
  }

  /** Days in the months of `year` before `month`. */
  function DaysBeforeMonth(year: int, month: int): int
    requires 1 <= month <= 12
  {
    [0, 31, 59, 90, 120, 151, 181, 212, 243, 273, 304, 334][month - 1]
      + (if month > 2 && IsLeapYear(year) then 1 else 0)
  }

  /** The ordinal of a date, day 1 being 0001-01-01. */
  function DayNumber(d: Date): int
    requires ValidDate(d)
  {
    DaysBeforeYear(d.year) + DaysBeforeMonth(d.year, d.month) + d.day
  }

  /** Moving back one year boundary removes one multiple of `divisor` exactly when the year is one. */
  lemma CountStep(y: int, divisor: int)
    requires y >= 1 && (divisor == 4 || divisor == 100 || divisor == 400)
    ensures y / divisor - (y - 1) / divisor == if y % divisor == 0 then 1 else 0
  {
    if divisor == 4 {
    } else if divisor == 100 {
    } else {
    }
  }

  /** A year adds 365 days, or 366 when it is a leap year. */
  lemma YearLength(year: int)
    requires year >= 2
    ensures DaysBeforeYear(year) == DaysBeforeYear(year - 1) + 365 + (if IsLeapYear(year - 1) then 1 else 0)
  {
    var y := year - 1;
    CountStep(y, 4);
    CountStep(y, 100);
    CountStep(y, 400);
    if y % 400 == 0 {
      MultipleOf400(y);
    }
    if y % 100 == 0 {
      MultipleOf100(y);
    }
  }

  /** Multiples of 400 are multiples of 100. */
  lemma MultipleOf400(y: int)
    requires y % 400 == 0
    ensures y % 100 == 0
  {
    var q := y / 400;
    assert y == 100 * (4 * q);
  }

  /** Multiples of 100 are multiples of 4. */
  lemma MultipleOf100(y: int)
    requires y % 100 == 0
    ensures y % 4 == 0
  {
    var q := y / 100;
    assert y == 4 * (25 * q);
  }

  /** A month adds its own length. */
  lemma MonthLength(year: int, month: int)
    requires 1 <= month < 12
    ensures DaysBeforeMonth(year, month + 1) == DaysBeforeMonth(year, month) + DaysInMonth(year, month)
  {
  }

  // ---------------------------------------------------------------------
  // The date arithmetic of last_month_period
  // ---------------------------------------------------------------------

  /** `d.replace(day=1)`. */
  function FirstOfMonth(d: Date): (r: Date)
    requires ValidDate(d)
    ensures ValidDate(r) && r.year == d.year && r.month == d.month && r.day == 1
    ensures !Before(d, r)
  {
    d.(day := 1)
  }

  /** `d - timedelta(days=1)`; None where Python raises OverflowError, below 0001-01-01. */
  function DayBefore(d: Date): (r: Option<Date>)
    requires ValidDate(d)
    ensures r.None? <==> d == Date(1, 1, 1)
    ensures r.Some? ==> ValidDate(r.value) && Before(r.value, d)
  {
    if d.day > 1 then Some(d.(day := d.day - 1))
    else if d.month > 1 then Some(Date(d.year, d.month - 1, DaysInMonth(d.year, d.month - 1)))
    else if d.year > 1 then Some(Date(d.year - 1, 12, 31))
    else None
  }

  /** DayBefore goes back exactly one day on the ordinal count `date.toordinal()` uses. */
  lemma DayBeforeIsOneDayEarlier(d: Date)
    requires ValidDate(d) && DayBefore(d).Some?
    ensures DayNumber(DayBefore(d).value) + 1 == DayNumber(d)
  {
    if d.day == 1 {
      if d.month > 1 {
        MonthLength(d.year, d.month - 1);
      } else {
        YearLength(d.year);
      }
    }
  }

  /** The half-open period [start, end) the cost query covers. */
  datatype Period = Period(start: Date, end: Date)

  /** The period as dates; None for a January of year 1, where Python overflows. */
  function LastMonth(today: Date): (r: Option<Period>)
    requires ValidDate(today)
    ensures r.None? <==> today.year == 1 && today.month == 1
    ensures r.Some? ==>
      && r.value.end == Date(today.year, today.month, 1)
      && r.value.start == (if today.month == 1 then Date(today.year - 1, 12, 1) else Date(today.year, today.month - 1, 1))
      && ValidDate(r.value.start) && ValidDate(r.value.end)
      && Before(r.value.start, r.value.end)
  {
    var firstDayThisMonth := FirstOfMonth(today);
    match DayBefore(firstDayThisMonth)
    case None => None
    case Some(lastDayLastMonth) => Some(Period(FirstOfMonth(lastDayLastMonth), firstDayThisMonth))
  }

  /** The period covers exactly the days of the previous month, and no first of a month lies strictly inside it. */
  lemma PeriodIsPreviousMonth(today: Date, x: Date)
    requires ValidDate(today) && LastMonth(today).Some?
    ensures var p := LastMonth(today).value;
      && DayNumber(p.end) - DayNumber(p.start) == DaysInMonth(p.start.year, p.start.month)
      && (ValidDate(x) && x.day == 1 && Before(p.start, x) ==> !Before(x, p.end))
  {
    DayBeforeIsOneDayEarlier(FirstOfMonth(today));
    var last := DayBefore(FirstOfMonth(today)).value;
    assert last.day == DaysInMonth(last.year, last.month);
  }

  // ---------------------------------------------------------------------
  // strftime("%Y-%m-%d") and its inverse
  // ---------------------------------------------------------------------

  predicate IsDigit(c: char) {
    '0' <= c <= '9'
  }

  predicate AllDigits(s: string) {
    forall i :: 0 <= i < |s| ==> IsDigit(s[i])
  }

  function Digit(k: int): (c: char)
    requires 0 <= k <= 9
    ensures IsDigit(c) && c as int - '0' as int == k
  {
    ('0' as int + k) as char
  }

  function Pow10(n: nat): (p: nat)
    ensures p >= 1
  {
    if n == 0 then 1 else 10 * Pow10(n - 1)
  }

  /** The last `width` decimal digits of `n`, zero-padded on the left. */
  function Padded(n: nat, width: nat): (s: string)
    ensures |s| == width && AllDigits(s)
    decreases width
  {
    if width == 0 then "" else Padded(n / 10, width - 1) + [Digit(n % 10)]
  }

  /** The number a string of decimal digits denotes. */
  function DecimalValue(s: string): (n: nat)
    requires AllDigits(s)
    ensures n < Pow10(|s|)
    decreases |s|
  {
    if s == "" then 0 else 10 * DecimalValue(s[..|s| - 1]) + (s[|s| - 1] as int - '0' as int)
  }

  lemma {:induction false} PaddedRoundTrip(n: nat, width: nat)
    requires n < Pow10(width)
    ensures DecimalValue(Padded(n, width)) == n
    decreases width
  {
    if width > 0 {
      var s := Padded(n, width);
      assert s[..|s| - 1] == Padded(n / 10, width - 1);
      PaddedRoundTrip(n / 10, width - 1);
    }
  }

  lemma {:induction false} DecimalRoundTrip(s: string)
    requires AllDigits(s)
    ensures Padded(DecimalValue(s), |s|) == s
    decreases |s|
  {
    if s != "" {
      var front := s[..|s| - 1];
      var n := DecimalValue(s);
      assert n / 10 == DecimalValue(front) && n % 10 == s[|s| - 1] as int - '0' as int;
      DecimalRoundTrip(front);
      assert s == front + [s[|s| - 1]];
    }
  }

  /**
   * `date.strftime("%Y-%m-%d")`: the extended complete calendar-date
   * representation of ISO 8601:2004, section 4.1.2.2.
   */
  function FormatDate(d: Date): (s: string)
    requires ValidDate(d)
    ensures |s| == 10 && s[4] == '-' && s[7] == '-'
    ensures AllDigits(s[..4]) && AllDigits(s[5..7]) && AllDigits(s[8..])
  {
    var s := Padded(d.year, 4) + "-" + Padded(d.month, 2) + "-" + Padded(d.day, 2);
    assert s[..4] == Padded(d.year, 4) && s[5..7] == Padded(d.month, 2) && s[8..] == Padded(d.day, 2);
    s
  }

  /** Reads back a `YYYY-MM-DD` string; None unless it has that shape and names a valid date. */
  function ParseDate(s: string): Option<Date> {
    if |s| == 10 && s[4] == '-' && s[7] == '-' && AllDigits(s[..4]) && AllDigits(s[5..7]) && AllDigits(s[8..]) then
      var d := Date(DecimalValue(s[..4]), DecimalValue(s[5..7]), DecimalValue(s[8..]));
      if ValidDate(d) then Some(d) else None
    else None
  }

  lemma DateRoundTrip(d: Date)
    requires ValidDate(d)
    ensures ParseDate(FormatDate(d)) == Some(d)
  {
    var s := FormatDate(d);
    assert s[..4] == Padded(d.year, 4) && s[5..7] == Padded(d.month, 2) && s[8..] == Padded(d.day, 2);
    PaddedRoundTrip(d.year, 4);
    PaddedRoundTrip(d.month, 2);
    PaddedRoundTrip(d.day, 2);
  }

  /** A string that parses is exactly the formatting of the date it names. */
  lemma ParsedIsCanonical(s: string)
    requires ParseDate(s).Some?
    ensures FormatDate(ParseDate(s).value) == s
  {
    DecimalRoundTrip(s[..4]);
    DecimalRoundTrip(s[5..7]);
    DecimalRoundTrip(s[8..]);
    assert s == s[..4] + "-" + s[5..7] + "-" + s[8..];
  }

  /** `last_month_period()`: the period as two `YYYY-MM-DD` strings; None where Python overflows. */
  function LastMonthPeriod(today: Date): (r: Option<(string, string)>)
    requires ValidDate(today)
    ensures r.None? <==> today.year == 1 && today.month == 1
    ensures r.Some? ==>
      && ParseDate(r.value.0) == Some(LastMonth(today).value.start)
      && ParseDate(r.value.1) == Some(Date(today.year, today.month, 1))
  {
    match LastMonth(today)
    case None => None
    case Some(p) =>
      DateRoundTrip(p.start);
      DateRoundTrip(p.end);
      Some((FormatDate(p.start), FormatDate(p.end)))
  }
}
