/** Calendar dates as Python's `datetime.date` sees them (proleptic
    Gregorian, years 1..9999), the one-day step back that
    `now() - timedelta(days=1)` takes, and the two `strftime` layouts the
    views use. */
module Dates {
  import opened Wrappers
  import opened Numerals

  datatype Date = Date(year: int, month: int, day: int)

  predicate IsLeapYear(y: int)
  {
    y % 4 == 0 && (y % 100 != 0 || y % 400 == 0)
  }

  function DaysInMonth(y: int, m: int): (n: int)
    requires 1 <= m <= 12
    ensures 28 <= n <= 31
  {
    if m == 2 then (if IsLeapYear(y) then 29 else 28)
    else if m == 4 || m == 6 || m == 9 || m == 11 then 30
    else 31
  }

  /** The dates `datetime` can represent (MINYEAR = 1, MAXYEAR = 9999). */
  predicate Valid(d: Date)
  {
    1 <= d.year <= 9999 && 1 <= d.month <= 12 && 1 <= d.day <= DaysInMonth(d.year, d.month)
  }

  const MinDate := Date(1, 1, 1)
  const MaxDate := Date(9999, 12, 31)

  /** Strict chronological order. */
  predicate Before(a: Date, b: Date)
  {
    a.year < b.year
    || (a.year == b.year && a.month < b.month)
    || (a.year == b.year && a.month == b.month && a.day < b.day)
  }

  /** `d - timedelta(days=1)`; None where Python raises OverflowError. */
  function PrevDay(d: Date): (r: Option<Date>)
    requires Valid(d)
    ensures r.Some? <==> d != MinDate
    ensures r.Some? ==> Valid(r.value) && Before(r.value, d)
  {
    if d.day > 1 then Some(Date(d.year, d.month, d.day - 1))
    else if d.month > 1 then Some(Date(d.year, d.month - 1, DaysInMonth(d.year, d.month - 1)))
    else if d.year > 1 then Some(Date(d.year - 1, 12, 31))
    else None
  }

  /** `d + timedelta(days=1)`; None where Python raises OverflowError. */
  function NextDay(d: Date): (r: Option<Date>)
    requires Valid(d)
    ensures r.Some? <==> d != MaxDate
    ensures r.Some? ==> Valid(r.value) && Before(d, r.value)
  {
    if d.day < DaysInMonth(d.year, d.month) then Some(Date(d.year, d.month, d.day + 1))
    else if d.month < 12 then Some(Date(d.year, d.month + 1, 1))
    else if d.year < 9999 then Some(Date(d.year + 1, 1, 1))
    else None
  }

  /** Stepping back a day and forward again returns to the same date, so no
      date is skipped by the step back. */
  lemma PrevThenNext(d: Date)
    requires Valid(d) && d != MinDate
    ensures NextDay(PrevDay(d).value) == Some(d)
  {
  }

  /** `d.strftime("%Y-%m-%d")`. */
  function FormatYMD(d: Date): (r: string)
    requires Valid(d)
    ensures |r| == 10 && r[4] == '-' && r[7] == '-'
  {
    Fixed(d.year, 4) + "-" + Fixed(d.month, 2) + "-" + Fixed(d.day, 2)
  }

  /** `d.strftime("%d.%m.%Y")`. */
  function FormatDMY(d: Date): (r: string)
    requires Valid(d)
    ensures |r| == 10 && r[2] == '.' && r[5] == '.'
  {
    Fixed(d.day, 2) + "." + Fixed(d.month, 2) + "." + Fixed(d.year, 4)
  }

  /** The ISO layout reads back: year, month and day are the digits at
      offsets 0..4, 5..7 and 8..10. */
  lemma FormatYMDFields(d: Date)
    requires Valid(d)
    ensures var s := FormatYMD(d);
      && IsDigits(s[0..4]) && DecValue(s[0..4]) == d.year
      && IsDigits(s[5..7]) && DecValue(s[5..7]) == d.month
      && IsDigits(s[8..10]) && DecValue(s[8..10]) == d.day
  {
    var s := FormatYMD(d);
    assert s[0..4] == Fixed(d.year, 4);
    assert s[5..7] == Fixed(d.month, 2);
    assert s[8..10] == Fixed(d.day, 2);
    FixedRoundTrip(d.year, 4);
    FixedRoundTrip(d.month, 2);
    FixedRoundTrip(d.day, 2);
  }

  /** Different dates give different ISO strings (and so different URLs). */
  lemma FormatYMDInjective(a: Date, b: Date)
    requires Valid(a) && Valid(b) && FormatYMD(a) == FormatYMD(b)
    ensures a == b
  {
    FormatYMDFields(a);
    FormatYMDFields(b);
  }

  lemma FormatDMYFields(d: Date)
    requires Valid(d)
    ensures var s := FormatDMY(d);
      && IsDigits(s[0..2]) && DecValue(s[0..2]) == d.day
      && IsDigits(s[3..5]) && DecValue(s[3..5]) == d.month
      && IsDigits(s[6..10]) && DecValue(s[6..10]) == d.year
  {
    var s := FormatDMY(d);
    assert s[0..2] == Fixed(d.day, 2);
    assert s[3..5] == Fixed(d.month, 2);
    assert s[6..10] == Fixed(d.year, 4);
    FixedRoundTrip(d.year, 4);
    FixedRoundTrip(d.month, 2);
    FixedRoundTrip(d.day, 2);
  }
}
