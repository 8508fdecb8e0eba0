/**
 * Calendar arithmetic of the date service: strict `DD/MM/YYYY` parsing and the
 * "whole years plus days since the last anniversary" difference of two dates.
 *
 * A JavaScript `Date` at local midnight is modelled by its calendar fields and a
 * day number (days since 31 December of year 0 in the proleptic Gregorian
 * calendar); comparing or subtracting two such dates is comparing or subtracting
 * their day numbers. Months are 1-based here, where JavaScript's are 0-based.
 */
module DateService {
  import opened Wrappers

  datatype Date = Date(year: int, month: int, day: int)

  /** Elapsed time as whole years plus the days since the last anniversary. */
  datatype DateDifference = DateDifference(years: int, days: int)

  predicate IsLeapYear(y: int) {
    y % 4 == 0 && (y % 100 != 0 || y % 400 == 0)
  }

  function YearLength(y: int): int {
    if IsLeapYear(y) then 366 else 365
  }

  function DaysInMonth(y: int, m: int): int
    requires 1 <= m <= 12
  {
    if m == 2 then (if IsLeapYear(y) then 29 else 28)
    else if m == 4 || m == 6 || m == 9 || m == 11 then 30
    else 31
  }

  /**
   * A date that exists in the calendar and that the Date constructor does not
   * remap: `new Date(y, ...)` reads the years 0-99 as 1900-1999, so no date of
   * those years survives the parser's round-trip check.
   */
  predicate Valid(d: Date) {
    100 <= d.year && 1 <= d.month <= 12 && 1 <= d.day <= DaysInMonth(d.year, d.month)
  }

  /** Days in the years before `y`. */
  function DaysBeforeYear(y: int): int
    requires 1 <= y
  {
    var p := y - 1;
    365 * p + p / 4 - p / 100 + p / 400
  }

  /** Days in the months of year `y` before month `m`. */
  function DaysBeforeMonth(y: int, m: int): int
    requires 1 <= m <= 12
  {
    if m == 1 then 0 else DaysBeforeMonth(y, m - 1) + DaysInMonth(y, m - 1)
  }

  /**
   * The day number of the date `new Date(y, m - 1, d)` builds. A day past the
   * end of the month runs on into the next month, as the constructor does it:
   * day 29 of February in a common year is 1 March.
   */
  function DayIndex(y: int, m: int, d: int): int
    requires 1 <= y && 1 <= m <= 12
  {
    DaysBeforeYear(y) + DaysBeforeMonth(y, m) + d
  }

  function DayNumber(d: Date): int
    requires Valid(d)
  {
    DayIndex(d.year, d.month, d.day)
  }

  /** Calendar order: year, then month, then day. */
  predicate Precedes(a: Date, b: Date) {
    a.year < b.year
    || (a.year == b.year && (a.month < b.month || (a.month == b.month && a.day < b.day)))
  }

  // ---------------------------------------------------------------------------
  // parseDate

  predicate IsDigit(c: char) {
    '0' <= c <= '9'
  }

  function DigitValue(c: char): int
    requires IsDigit(c)
  {
    c as int - '0' as int
  }

  /** The value of a run of decimal digits, as `parseInt(s, 10)` reads it. */
  function DecimalValue(s: string): (n: int)
    requires forall i :: 0 <= i < |s| ==> IsDigit(s[i])
  {
    if |s| == 0 then 0 else 10 * DecimalValue(s[..|s| - 1]) + DigitValue(s[|s| - 1])
  }

  /** The regular expression `^\d{2}\/\d{2}\/\d{4}$`. */
  predicate MatchesPattern(s: string) {
    && |s| == 10
    && IsDigit(s[0]) && IsDigit(s[1]) && s[2] == '/'
    && IsDigit(s[3]) && IsDigit(s[4]) && s[5] == '/'
    && IsDigit(s[6]) && IsDigit(s[7]) && IsDigit(s[8]) && IsDigit(s[9])
  }

  /** The year the Date constructor uses for a written year: 0-99 become 1900-1999. */
  function ConstructorYear(y: int): int {
    if 0 <= y <= 99 then 1900 + y else y
  }

  /**
   * The round-trip check of `parseDate`: the Date built from the written numbers
   * gives back the same year, month and day. The constructor always builds an
   * existing date, rolling a day or month past its range into the next month or
   * year, so the numbers come back unchanged exactly when the constructor keeps
   * the year and they already name an existing date. `Valid` already demands a
   * year of at least 100, which the constructor keeps; the first conjunct is kept
   * to name the constructor's own test.
   */
  predicate RoundTrips(year: int, month: int, day: int) {
    ConstructorYear(year) == year && Valid(Date(year, month, day))
  }

  function ParseDate(s: string): (r: Option<Date>)
    ensures r.Some? ==> MatchesPattern(s) && Valid(r.value)
    ensures r.Some? ==>
      && r.value.day == 10 * DigitValue(s[0]) + DigitValue(s[1])
      && r.value.month == 10 * DigitValue(s[3]) + DigitValue(s[4])
      && r.value.year == 1000 * DigitValue(s[6]) + 100 * DigitValue(s[7]) + 10 * DigitValue(s[8]) + DigitValue(s[9])
    ensures MatchesPattern(s) && Valid(Written(s)) ==> r == Some(Written(s))
  {
    if !MatchesPattern(s) then None
    else
      WrittenDigits(s);
      var day := DecimalValue(s[0..2]);
      var month := DecimalValue(s[3..5]);
      var year := DecimalValue(s[6..10]);
      if RoundTrips(year, month, day) then Some(Date(year, month, day)) else None
  }

  /** The date a pattern-matching string spells out, digit by digit. */
  function Written(s: string): Date
    requires MatchesPattern(s)
  {
    Date(1000 * DigitValue(s[6]) + 100 * DigitValue(s[7]) + 10 * DigitValue(s[8]) + DigitValue(s[9]),
         10 * DigitValue(s[3]) + DigitValue(s[4]),
         10 * DigitValue(s[0]) + DigitValue(s[1]))
  }

  /** `parseInt` of the three fields of a pattern-matching string gives the numbers its digits spell. */
  lemma WrittenDigits(s: string)
    requires MatchesPattern(s)
    ensures DecimalValue(s[0..2]) == Written(s).day
    ensures DecimalValue(s[3..5]) == Written(s).month
    ensures DecimalValue(s[6..10]) == Written(s).year
  {
    TwoDigits(s[0..2]);
    TwoDigits(s[3..5]);
    var y := s[6..10];
    TwoDigits(y[..2]);
    assert y[..3][..2] == y[..2];
    assert y[..4] == y;
  }

  lemma TwoDigits(t: string)
    requires |t| == 2 && IsDigit(t[0]) && IsDigit(t[1])
    ensures DecimalValue(t) == 10 * DigitValue(t[0]) + DigitValue(t[1])
  {
    assert DecimalValue(t[..1][..0]) == 0;
    assert DecimalValue(t[..1]) == DigitValue(t[0]);
  }

  lemma ParseDateExamples()
    ensures ParseDate("29/02/2024") == Some(Date(2024, 2, 29))
    ensures ParseDate("31/02/2023") == None
    ensures ParseDate("29/02/2023") == None
    ensures ParseDate("00/01/2020") == None
    ensures ParseDate("32/01/2020") == None
    ensures ParseDate("01/13/2020") == None
    ensures ParseDate("01/01/0099") == None
    ensures ParseDate("1/01/2020") == None
    ensures ParseDate("01-01-2020") == None
  {
    assert MatchesPattern("29/02/2024") && Written("29/02/2024") == Date(2024, 2, 29);
  }

  // ---------------------------------------------------------------------------
  // Day numbers

  lemma {:induction false} YearStep(y: int)
    requires 1 <= y
    ensures DaysBeforeYear(y + 1) == DaysBeforeYear(y) + YearLength(y)
  {
    var p := y - 1;
    CountStep(p, 4);
    CountStep(p, 100);
    CountStep(p, 400);
  }

  /** Among 1..p+1 there is one more multiple of k than among 1..p exactly when k divides p+1. */
  lemma CountStep(p: int, k: int)
    requires 0 <= p && k in {4, 100, 400}
    ensures (p + 1) / k == p / k + (if (p + 1) % k == 0 then 1 else 0)
  {
    var q, r := p / k, p % k;
    assert p == k * q + r && 0 <= r < k;
    if r == k - 1 {
      assert p + 1 == k * (q + 1);
    } else {
      assert p + 1 == k * q + (r + 1);
    }
  }

  lemma {:induction false} YearsBefore(y1: int, y2: int)
    requires 1 <= y1 < y2
    ensures DaysBeforeYear(y1) + YearLength(y1) <= DaysBeforeYear(y2)
    decreases y2 - y1
  {
    YearStep(y1);
    if y1 + 1 < y2 {
      YearsBefore(y1 + 1, y2);
    }
  }

  lemma {:induction false} MonthsBefore(y: int, m1: int, m2: int)
    requires 1 <= m1 < m2 <= 12
    ensures DaysBeforeMonth(y, m1) + DaysInMonth(y, m1) <= DaysBeforeMonth(y, m2)
    decreases m2 - m1
  {
    if m1 + 1 < m2 {
      MonthsBefore(y, m1 + 1, m2);
    }
  }

  /** A day written for month m of some year lands inside year y: only 29 February can overflow, and it stays within March. */
  lemma DayOfYearBounds(y: int, m: int, d: int)
    requires 1 <= m <= 12 && 1 <= d <= (if m == 2 then 29 else DaysInMonth(y, m))
    ensures 1 <= DaysBeforeMonth(y, m) + d <= YearLength(y)
  {
    if m < 12 {
      MonthsBefore(y, m, 12);
    }
    assert DaysBeforeMonth(y, 12) + 31 == YearLength(y) by {
      assert DaysBeforeMonth(y, 3) == 31 + DaysInMonth(y, 2);
      assert DaysBeforeMonth(y, 4) == DaysBeforeMonth(y, 3) + 31;
      assert DaysBeforeMonth(y, 5) == DaysBeforeMonth(y, 4) + 30;
      assert DaysBeforeMonth(y, 6) == DaysBeforeMonth(y, 5) + 31;
      assert DaysBeforeMonth(y, 7) == DaysBeforeMonth(y, 6) + 30;
      assert DaysBeforeMonth(y, 8) == DaysBeforeMonth(y, 7) + 31;
      assert DaysBeforeMonth(y, 9) == DaysBeforeMonth(y, 8) + 31;
      assert DaysBeforeMonth(y, 10) == DaysBeforeMonth(y, 9) + 30;
      assert DaysBeforeMonth(y, 11) == DaysBeforeMonth(y, 10) + 31;
      assert DaysBeforeMonth(y, 12) == DaysBeforeMonth(y, 11) + 30;
    }
  }

  /** Within one year, a later (month, day) has a later position; 29 February of a common year sits where 1 March does. */
  lemma DayOfYearOrder(y: int, m1: int, d1: int, m2: int, d2: int)
    requires 1 <= m1 <= 12 && 1 <= m2 <= 12 && 1 <= d1 <= (if m1 == 2 then 29 else DaysInMonth(y, m1)) && 1 <= d2
    requires m1 < m2 || (m1 == m2 && d1 <= d2)
    ensures DaysBeforeMonth(y, m1) + d1 <= DaysBeforeMonth(y, m2) + d2
    ensures d1 <= DaysInMonth(y, m1) && (m1, d1) != (m2, d2) ==> DaysBeforeMonth(y, m1) + d1 < DaysBeforeMonth(y, m2) + d2
  {
    if m1 < m2 {
      MonthsBefore(y, m1, m2);
    }
  }

  /** Day numbers follow calendar order, and different dates have different day numbers. */
  lemma {:induction false} DayNumberOrder(a: Date, b: Date)
    requires Valid(a) && Valid(b)
    ensures Precedes(a, b) <==> DayNumber(a) < DayNumber(b)
    ensures a == b <==> DayNumber(a) == DayNumber(b)
  {
    forall x: Date, z: Date | Valid(x) && Valid(z) && Precedes(x, z)
      ensures DayNumber(x) < DayNumber(z)
    {
      if x.year < z.year {
        DayOfYearBounds(x.year, x.month, x.day);
        DayOfYearBounds(z.year, z.month, z.day);
        YearsBefore(x.year, z.year);
      } else {
        DayOfYearOrder(x.year, x.month, x.day, z.month, z.day);
      }
    }
  }

  lemma FebruaryTwentyNinthRollsOver(y: int)
    requires 100 <= y && !IsLeapYear(y)
    ensures DayIndex(y, 2, 29) == DayNumber(Date(y, 3, 1))
  {
  }

  // ---------------------------------------------------------------------------
  // yearsDaysDiff

  /** The earlier of two dates first: `yearsDaysDiff` swaps its arguments when the first is later. */
  function Chronological(date1: Date, date2: Date): (Date, Date)
    requires Valid(date1) && Valid(date2)
  {
    if DayNumber(date1) > DayNumber(date2) then (date2, date1) else (date1, date2)
  }

  /** The day number of the n-th anniversary of `a`; 29 February rolls over to 1 March in a common year. */
  function Anniversary(a: Date, n: nat): int
    requires Valid(a)
  {
    DayIndex(a.year + n, a.month, a.day)
  }

  /** `n` whole years lie between a and b: the n-th anniversary of a is on or before b, the next is after it. */
  predicate WholeYears(a: Date, b: Date, n: nat)
    requires Valid(a) && Valid(b)
  {
    Anniversary(a, n) <= DayNumber(b) < Anniversary(a, n + 1)
  }

  /**
   * The whole years from `a` to a later `b` as the source counts them: the
   * difference of the years, less one when b's month and day come before a's.
   */
  function ElapsedYears(a: Date, b: Date): int {
    if b.month < a.month || (b.month == a.month && b.day < a.day) then b.year - a.year - 1
    else b.year - a.year
  }

  function YearsDaysDiff(date1: Date, date2: Date): (r: DateDifference)
    requires Valid(date1) && Valid(date2)
    ensures 0 <= r.years && 0 <= r.days <= 365
  {
    var (a, b) := Chronological(date1, date2);
    var years := ElapsedYears(a, b);
    AnniversaryBracket(a, b);
    DateDifference(years, DayNumber(b) - DayIndex(a.year + years, a.month, a.day))
  }

  /** The anniversary the source computes brackets the later date. */
  lemma AnniversaryBracket(a: Date, b: Date)
    requires Valid(a) && Valid(b) && DayNumber(a) <= DayNumber(b)
    ensures 0 <= ElapsedYears(a, b)
    ensures WholeYears(a, b, ElapsedYears(a, b))
    ensures DayNumber(b) - Anniversary(a, ElapsedYears(a, b)) <= 365
  {
    DayNumberOrder(b, a);
    if ElapsedYears(a, b) == b.year - a.year {
      AnniversaryInSameYear(a, b);
    } else {
      AnniversaryInYearBefore(a, b);
    }
    AnniversaryGap(a, ElapsedYears(a, b));
  }

  lemma AnniversaryInSameYear(a: Date, b: Date)
    requires Valid(a) && Valid(b) && a.year <= b.year
    requires a.month < b.month || (a.month == b.month && a.day <= b.day)
    ensures DayIndex(b.year, a.month, a.day) <= DayNumber(b) < DayIndex(b.year + 1, a.month, a.day)
  {
    DayOfYearBounds(b.year, b.month, b.day);
    DayOfYearOrder(b.year, a.month, a.day, b.month, b.day);
    YearStep(b.year);
    DayOfYearBounds(b.year + 1, a.month, a.day);
  }

  lemma AnniversaryInYearBefore(a: Date, b: Date)
    requires Valid(a) && Valid(b) && a.year < b.year
    requires b.month < a.month || (b.month == a.month && b.day < a.day)
    ensures DayIndex(b.year - 1, a.month, a.day) <= DayNumber(b) < DayIndex(b.year, a.month, a.day)
  {
    DayOfYearBounds(b.year, b.month, b.day);
    DayOfYearBounds(b.year - 1, a.month, a.day);
    YearStep(b.year - 1);
    DayOfYearOrder(b.year, b.month, b.day, a.month, a.day);
  }

  /** Consecutive anniversaries are a year of 365 or 366 days apart. */
  lemma AnniversaryGap(a: Date, n: nat)
    requires Valid(a)
    ensures 365 <= Anniversary(a, n + 1) - Anniversary(a, n) <= 366
  {
    var y := a.year + n;
    YearStep(y);
    DaysBeforeMonthShift(y, a.month);
  }

  /** The months before m differ between consecutive years only by a leap day in February. */
  lemma {:induction false} DaysBeforeMonthShift(y: int, m: int)
    requires 1 <= m <= 12
    ensures DaysBeforeMonth(y + 1, m) - DaysBeforeMonth(y, m)
         == (if m > 2 then DaysInMonth(y + 1, 2) - DaysInMonth(y, 2) else 0)
  {
    if m > 1 {
      DaysBeforeMonthShift(y, m - 1);
    }
  }

  /**
   * What the difference means: `years` anniversaries of the earlier date fall on
   * or before the later date and the next one falls after it, and `days` counts
   * from that last anniversary to the later date.
   */
  lemma YearsDaysDiffMeaning(date1: Date, date2: Date)
    requires Valid(date1) && Valid(date2)
    ensures var (a, b) := Chronological(date1, date2);
      var r := YearsDaysDiff(date1, date2);
      && WholeYears(a, b, r.years)
      && r.days == DayNumber(b) - Anniversary(a, r.years)
  {
    var (a, b) := Chronological(date1, date2);
    AnniversaryBracket(a, b);
  }

  /** The number of whole years is determined by the anniversaries: there is only one candidate. */
  lemma {:induction false} WholeYearsUnique(a: Date, b: Date, n: nat, k: nat)
    requires Valid(a) && Valid(b) && WholeYears(a, b, n) && WholeYears(a, b, k)
    ensures n == k
  {
    if n < k {
      AnniversariesIncrease(a, n + 1, k);
    } else if k < n {
      AnniversariesIncrease(a, k + 1, n);
    }
  }

  lemma {:induction false} AnniversariesIncrease(a: Date, i: nat, j: nat)
    requires Valid(a) && i <= j
    ensures Anniversary(a, i) <= Anniversary(a, j)
    decreases j - i
  {
    if i < j {
      AnniversaryGap(a, i);
      AnniversariesIncrease(a, i + 1, j);
    }
  }

  /** `years` is the only number of whole years that fits between the two dates, whichever comes first. */
  lemma YearsDaysDiffYearsUnique(date1: Date, date2: Date, n: nat)
    requires Valid(date1) && Valid(date2)
    requires var (a, b) := Chronological(date1, date2); WholeYears(a, b, n)
    ensures YearsDaysDiff(date1, date2).years == n
  {
    YearsDaysDiffMeaning(date1, date2);
    var (a, b) := Chronological(date1, date2);
    WholeYearsUnique(a, b, YearsDaysDiff(date1, date2).years, n);
  }

  /** The order of the arguments does not matter. */
  lemma YearsDaysDiffSymmetric(date1: Date, date2: Date)
    requires Valid(date1) && Valid(date2)
    ensures YearsDaysDiff(date1, date2) == YearsDaysDiff(date2, date1)
  {
    DayNumberOrder(date1, date2);
  }

  /** The years count is the difference of the years, less one exactly when the later date's month and day come before the earlier date's. */
  lemma YearsDaysDiffYears(date1: Date, date2: Date)
    requires Valid(date1) && Valid(date2)
    ensures var (a, b) := Chronological(date1, date2);
      var r := YearsDaysDiff(date1, date2);
      && a.year <= b.year
      && (r.years == b.year - a.year || r.years == b.year - a.year - 1)
      && (r.years == b.year - a.year - 1 <==> b.month < a.month || (b.month == a.month && b.day < a.day))
  {
    var (a, b) := Chronological(date1, date2);
    DayNumberOrder(b, a);
  }

  lemma YearsDaysDiffOfSameDate(d: Date)
    requires Valid(d)
    ensures YearsDaysDiff(d, d) == DateDifference(0, 0)
  {
  }

  lemma YearsDaysDiffExamples()
    ensures YearsDaysDiff(Date(2020, 1, 1), Date(2024, 1, 1)) == DateDifference(4, 0)
    ensures YearsDaysDiff(Date(2020, 1, 1), Date(2024, 1, 2)) == DateDifference(4, 1)
    ensures YearsDaysDiff(Date(2020, 2, 29), Date(2021, 2, 28)) == DateDifference(0, 365)
    ensures YearsDaysDiff(Date(2021, 2, 28), Date(2020, 2, 29)) == DateDifference(0, 365)
    ensures YearsDaysDiff(Date(2020, 2, 29), Date(2021, 3, 1)) == DateDifference(1, 0)
  {
  }
}
