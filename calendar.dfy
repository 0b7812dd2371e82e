/**
 * Dates of the proleptic Gregorian calendar, as Python's `datetime.date`
 * handles them: the day number (`toordinal`, with 0001-01-01 as day 1), the
 * weekday (`weekday()`, Monday = 0 ... Sunday = 6), stepping by one day
 * (`+ timedelta(days=1)`), comparison, and the ISO 8601 calendar-date
 * extended format `YYYY-MM-DD` (section 4.1.2.2 of ISO 8601:2004) used by
 * `strftime('%Y-%m-%d')` and `strptime(s, '%Y-%m-%d')`.
 */
module Calendar {
  import opened Wrappers
  import opened Decimal

  datatype Date = Date(year: int, month: int, day: int)

  predicate IsLeapYear(y: int) {
    y % 4 == 0 && (y % 100 != 0 || y % 400 == 0)
  }

  function DaysInMonth(y: int, m: int): (n: int)
    requires 1 <= m <= 12
    ensures 28 <= n <= 31
    ensures n == 29 <==> m == 2 && IsLeapYear(y)
  {
    if m == 2 then (if IsLeapYear(y) then 29 else 28)
    else if m == 4 || m == 6 || m == 9 || m == 11 then 30
    else 31
  }

  function DaysInYear(y: int): int {
    if IsLeapYear(y) then 366 else 365
  }

  /** A date `datetime.date` accepts (the upper bound MAXYEAR = 9999 is not modelled). */
  predicate ValidDate(d: Date) {
    1 <= d.year && 1 <= d.month <= 12 && 1 <= d.day <= DaysInMonth(d.year, d.month)
  }

  /** A date `datetime.date` can hold, up to its MAXYEAR 9999: the dates that `strftime('%Y-%m-%d')` writes in ten characters. */
  type PyDate = d: Date | ValidDate(d) && d.year <= 9999 witness Date(1, 1, 1)

  /** `date.max`, the last day `datetime.date` can hold. */
  const MaxDate: PyDate := Date(9999, 12, 31)

  /** Days in the years 1 .. y - 1. */
  function DaysBeforeYear(y: int): int
    requires 1 <= y
  {
    var k := y - 1;
    k * 365 + k / 4 - k / 100 + k / 400
  }

  /** Days in the months 1 .. m - 1 of year y. */
  function DaysBeforeMonth(y: int, m: int): int
    requires 1 <= m <= 12
  {
    (if m == 1 then 0 else if m == 2 then 31 else if m == 3 then 59
     else if m == 4 then 90 else if m == 5 then 120 else if m == 6 then 151
     else if m == 7 then 181 else if m == 8 then 212 else if m == 9 then 243
     else if m == 10 then 273 else if m == 11 then 304 else 334)
    + (if m > 2 && IsLeapYear(y) then 1 else 0)
  }

  /** `date.toordinal()`: 0001-01-01 is day 1. */
  function Ordinal(d: Date): int
    requires ValidDate(d)
  {
    DaysBeforeYear(d.year) + DaysBeforeMonth(d.year, d.month) + d.day
  }

  /** `date.weekday()`: Monday is 0 and Sunday is 6. */
  function Weekday(d: Date): (w: int)
    requires ValidDate(d)
    ensures 0 <= w < 7
  {
    (Ordinal(d) + 6) % 7
  }

  /** Python's `<=` on dates: the tuples (year, month, day) compared lexicographically. */
  predicate NotAfter(a: Date, b: Date) {
    a.year < b.year
    || (a.year == b.year && (a.month < b.month || (a.month == b.month && a.day <= b.day)))
  }

  lemma DaysBeforeYearStep(y: int)
    requires 1 <= y
    ensures DaysBeforeYear(y + 1) == DaysBeforeYear(y) + DaysInYear(y)
  {
    var k := y - 1;
    QuotientStep4(k);
    QuotientStep100(k);
    QuotientStep400(k);
    assert y % 400 == 0 ==> y % 100 == 0;
    assert y % 100 == 0 ==> y % 4 == 0;
  }

  lemma QuotientStep4(k: int)
    ensures (k + 1) / 4 == k / 4 + (if (k + 1) % 4 == 0 then 1 else 0)
  {
  }

  lemma QuotientStep100(k: int)
    ensures (k + 1) / 100 == k / 100 + (if (k + 1) % 100 == 0 then 1 else 0)
  {
  }

  lemma QuotientStep400(k: int)
    ensures (k + 1) / 400 == k / 400 + (if (k + 1) % 400 == 0 then 1 else 0)
  {
  }

  lemma DaysBeforeYearNonNegative(y: int)
    requires 1 <= y
    ensures DaysBeforeYear(y) >= 0
  {
    var k := y - 1;
    assert k / 4 >= k / 100 >= 0;
  }

  /** Every day of a year lies after the days before it and no later than its last day. */
  lemma OrdinalWithinYear(d: Date)
    requires ValidDate(d)
    ensures DaysBeforeYear(d.year) < Ordinal(d) <= DaysBeforeYear(d.year) + DaysInYear(d.year)
  {
  }

  lemma {:induction false} DaysBeforeYearIncreasing(a: int, b: int)
    requires 1 <= a < b
    ensures DaysBeforeYear(a) + DaysInYear(a) <= DaysBeforeYear(b)
    decreases b - a
  {
    DaysBeforeYearStep(a);
    if a + 1 < b {
      DaysBeforeYearIncreasing(a + 1, b);
    }
  }

  /** A date strictly before another in Python's order has a smaller day number. */
  lemma OrdinalStrictlyIncreasing(a: Date, b: Date)
    requires ValidDate(a) && ValidDate(b)
    requires NotAfter(a, b) && a != b
    ensures Ordinal(a) < Ordinal(b)
  {
    if a.year < b.year {
      OrdinalWithinYear(a);
      OrdinalWithinYear(b);
      DaysBeforeYearIncreasing(a.year, b.year);
    } else if a.month < b.month {
      assert DaysBeforeMonth(a.year, a.month) + DaysInMonth(a.year, a.month) <= DaysBeforeMonth(b.year, b.month);
    }
  }

  /** Python's date order is the order of day numbers. */
  lemma NotAfterIffOrdinal(a: Date, b: Date)
    requires ValidDate(a) && ValidDate(b)
    ensures NotAfter(a, b) <==> Ordinal(a) <= Ordinal(b)
  {
    if a != b {
      if NotAfter(a, b) {
        OrdinalStrictlyIncreasing(a, b);
      } else {
        OrdinalStrictlyIncreasing(b, a);
      }
    }
  }

  /** Distinct dates have distinct day numbers. */
  lemma OrdinalInjective(a: Date, b: Date)
    requires ValidDate(a) && ValidDate(b)
    requires Ordinal(a) == Ordinal(b)
    ensures a == b
  {
    if a != b {
      if NotAfter(a, b) {
        OrdinalStrictlyIncreasing(a, b);
      } else {
        OrdinalStrictlyIncreasing(b, a);
      }
    }
  }

  /** `d + timedelta(days=1)`. */
  function NextDay(d: Date): (e: Date)
    requires ValidDate(d)
    ensures ValidDate(e) && Ordinal(e) == Ordinal(d) + 1
  {
    if d.day < DaysInMonth(d.year, d.month) then Date(d.year, d.month, d.day + 1)
    else if d.month < 12 then Date(d.year, d.month + 1, 1)
    else (DaysBeforeYearStep(d.year); Date(d.year + 1, 1, 1))
  }

  /** No date `datetime.date` can hold comes after `date.max`. */
  lemma MaxDateIsLatest(d: PyDate)
    ensures NotAfter(d, MaxDate)
    ensures NotAfter(MaxDate, d) ==> d == MaxDate
  {
  }

  /** The day after any date before `date.max` is again one `datetime.date` can hold. */
  lemma NextDayBeforeMax(d: PyDate)
    requires d != MaxDate
    ensures NextDay(d).year <= 9999
  {
  }

  /** `d - timedelta(days=1)`; 0001-01-01 has no predecessor (Python raises OverflowError). */
  function PrevDay(d: Date): (e: Date)
    requires ValidDate(d) && Ordinal(d) > 1
    ensures ValidDate(e) && Ordinal(e) == Ordinal(d) - 1
  {
    if d.day > 1 then Date(d.year, d.month, d.day - 1)
    else if d.month > 1 then Date(d.year, d.month - 1, DaysInMonth(d.year, d.month - 1))
    else (DaysBeforeYearStep(d.year - 1); Date(d.year - 1, 12, 31))
  }

  /** Within a month, the previous day is the day before in the same month. */
  lemma PrevDayInMonth(d: Date)
    requires ValidDate(d) && d.day > 1
    ensures Ordinal(d) > 1
    ensures PrevDay(d) == Date(d.year, d.month, d.day - 1)
  {
    DaysBeforeYearNonNegative(d.year);
  }

  /** Stepping forward and back again returns to the same date. */
  lemma NextPrevInverse(d: Date)
    requires ValidDate(d)
    ensures PrevDay(NextDay(d)) == d
    ensures Ordinal(d) > 1 ==> NextDay(PrevDay(d)) == d
  {
    OrdinalInjective(PrevDay(NextDay(d)), d);
    if Ordinal(d) > 1 {
      OrdinalInjective(NextDay(PrevDay(d)), d);
    }
  }

  lemma ModSevenUnique(a: int, q: int, r: int)
    requires a == 7 * q + r && 0 <= r < 7
    ensures a % 7 == r
  {
  }

  /** Moving k days ahead moves the weekday k places round the week. */
  lemma WeekdayAdvance(d: Date, e: Date, k: int)
    requires ValidDate(d) && ValidDate(e)
    requires 0 <= k && Ordinal(e) == Ordinal(d) + k
    ensures Weekday(e) == (Weekday(d) + k) % 7
  {
    var x := Ordinal(d) + 6;
    var q, r := x / 7, x % 7;
    var t := r + k;
    ModSevenUnique(x + k, q + t / 7, t % 7);
  }

  /** Two days less than a week apart fall on different weekdays. */
  lemma WeekdaysWithinAWeekDiffer(d: Date, e: Date)
    requires ValidDate(d) && ValidDate(e)
    requires Ordinal(d) < Ordinal(e) < Ordinal(d) + 7
    ensures Weekday(d) != Weekday(e)
  {
    WeekdayAdvance(d, e, Ordinal(e) - Ordinal(d));
  }

  /** `d.strftime('%Y-%m-%d')` for a year of at most four digits. */
  function FormatIsoDate(d: Date): (s: string)
    requires ValidDate(d) && d.year <= 9999
    ensures |s| == 10 && s[4] == '-' && s[7] == '-'
  {
    Pad4(d.year) + "-" + Pad2(d.month) + "-" + Pad2(d.day)
  }

  /**
   * `datetime.strptime(s, '%Y-%m-%d').date()`, read strictly: four, two and two
   * ASCII digits separated by '-', a year from 1 and a day that exists in its month.
   */
  function ParseIsoDate(s: string): (r: Option<Date>)
    ensures r.Some? ==> ValidDate(r.value) && r.value.year <= 9999
  {
    if |s| == 10 && s[4] == '-' && s[7] == '-'
       && AllDigits(s[..4]) && AllDigits(s[5..7]) && AllDigits(s[8..])
    then
      Pad4OfDigits(s[..4]);
      var d := Date(DigitsValue(s[..4]), DigitsValue(s[5..7]), DigitsValue(s[8..]));
      if ValidDate(d) then Some(d) else None
    else None
  }

  /** Every date written in the ISO format reads back as itself. */
  lemma ParseFormatIsoDate(d: Date)
    requires ValidDate(d) && d.year <= 9999
    ensures ParseIsoDate(FormatIsoDate(d)) == Some(d)
  {
    var s := FormatIsoDate(d);
    assert s[..4] == Pad4(d.year);
    assert s[5..7] == Pad2(d.month);
    assert s[8..] == Pad2(d.day);
    Pad4RoundTrip(d.year);
    Pad2RoundTrip(d.month);
    Pad2RoundTrip(d.day);
  }

  /** A string the parser accepts is exactly the ISO rendering of the date it yields. */
  lemma FormatParseIsoDate(s: string)
    requires ParseIsoDate(s).Some?
    ensures FormatIsoDate(ParseIsoDate(s).value) == s
  {
    var d := ParseIsoDate(s).value;
    Pad4OfDigits(s[..4]);
    Pad2OfDigits(s[5..7]);
    Pad2OfDigits(s[8..]);
    var t := FormatIsoDate(d);
    assert t[..4] == s[..4] && t[5..7] == s[5..7] && t[8..] == s[8..];
    assert t == s[..4] + "-" + s[5..7] + "-" + s[8..];
    assert s == s[..4] + "-" + s[5..7] + "-" + s[8..];
  }
}
