/**
 * Proleptic Gregorian calendar dates as the job uses them: the run date
 * (`now_ist` in Asia/Kolkata), the day after it (`now_ist + timedelta(days=1)`)
 * and their `strftime` renderings `%Y-%m-%d` and `%Y_%m_%d`.
 */
module Calendar {
  import opened Wrappers

  datatype Date = Date(year: int, month: int, day: int)

  /** The year range of Python's `datetime`. */
  const MinYear := 1
  const MaxYear := 9999

  predicate IsLeapYear(y: int) {
    y % 4 == 0 && (y % 100 != 0 || y % 400 == 0)
  }

  function DaysInMonth(y: int, m: int): (n: int)
    requires 1 <= m <= 12
    ensures 28 <= n <= 31
    ensures m == 2 ==> (n == 29 <==> IsLeapYear(y))
  {
    if m == 2 then (if IsLeapYear(y) then 29 else 28)
    else if m == 4 || m == 6 || m == 9 || m == 11 then 30
    else 31
  }

  predicate ValidDate(d: Date) {
    MinYear <= d.year <= MaxYear && 1 <= d.month <= 12 && 1 <= d.day <= DaysInMonth(d.year, d.month)
  }

  /** Lexicographic order on (year, month, day). */
  predicate Before(a: Date, b: Date) {
    a.year < b.year || (a.year == b.year && (a.month < b.month || (a.month == b.month && a.day < b.day)))
  }

  /**
   * The calendar day after `d`. Python raises OverflowError when the sum
   * leaves the `datetime` range, which happens only for 9999-12-31.
   */
  function NextDay(d: Date): (r: Option<Date>)
    requires ValidDate(d)
    ensures r.None? <==> d == Date(MaxYear, 12, 31)
    ensures r.Some? ==> ValidDate(r.value) && Before(d, r.value)
  {
    if d.day < DaysInMonth(d.year, d.month) then Some(Date(d.year, d.month, d.day + 1))
    else if d.month < 12 then Some(Date(d.year, d.month + 1, 1))
    else if d.year < MaxYear then Some(Date(d.year + 1, 1, 1))
    else None
  }

  // ---------------------------------------------------------------------
  // Day numbers: an independent reference for "one calendar day later".
  // ---------------------------------------------------------------------

  function DaysInYear(y: int): int {
    if IsLeapYear(y) then 366 else 365
  }

  /** Days in the years MinYear .. y-1. */
  function DaysBeforeYear(y: int): int
    requires y >= MinYear
    decreases y
  {
    if y == MinYear then 0 else DaysBeforeYear(y - 1) + DaysInYear(y - 1)
  }

  /** Days in the months 1 .. m-1 of year y, from the cumulative table. */
  function DaysBeforeMonth(y: int, m: int): int
    requires 1 <= m <= 12
  {
    [0, 31, 59, 90, 120, 151, 181, 212, 243, 273, 304, 334][m - 1]
    + (if m > 2 && IsLeapYear(y) then 1 else 0)
  }

  /** Day number of `d`, counting 0001-01-01 as day 1. */
  function Ordinal(d: Date): int
    requires ValidDate(d)
  {
    DaysBeforeYear(d.year) + DaysBeforeMonth(d.year, d.month) + d.day
  }

  lemma MonthsAdd(y: int, m: int)
    requires 1 <= m < 12
    ensures DaysBeforeMonth(y, m + 1) == DaysBeforeMonth(y, m) + DaysInMonth(y, m)
  {
  }

  lemma YearAdds(y: int)
    ensures DaysBeforeMonth(y, 12) + DaysInMonth(y, 12) == DaysInYear(y)
  {
  }

  /** The day after `d` has the next day number. */
  lemma NextDayIsOneDayLater(d: Date)
    requires ValidDate(d) && NextDay(d).Some?
    ensures Ordinal(NextDay(d).value) == Ordinal(d) + 1
  {
    if d.day == DaysInMonth(d.year, d.month) {
      if d.month < 12 {
        MonthsAdd(d.year, d.month);
      } else {
        YearAdds(d.year);
      }
    }
  }

  /** Every year after `y` starts at least a whole year of `y` later. */
  lemma {:induction false} DaysBeforeYearGrows(y: int, z: int)
    requires MinYear <= y < z
    ensures DaysBeforeYear(z) >= DaysBeforeYear(y) + DaysInYear(y)
    decreases z - y
  {
    if z > y + 1 {
      DaysBeforeYearGrows(y, z - 1);
    }
  }

  /** Day numbers follow the calendar order, so distinct dates never share one. */
  lemma {:induction false} OrdinalMonotone(a: Date, b: Date)
    requires ValidDate(a) && ValidDate(b) && Before(a, b)
    ensures Ordinal(a) < Ordinal(b)
  {
    if a.year < b.year {
      DaysBeforeYearGrows(a.year, b.year);
      YearAdds(a.year);
      MonthsBeforeBound(a.year, a.month);
    } else if a.month < b.month {
      MonthsGrow(a.year, a.month, b.month);
    }
  }

  lemma MonthsBeforeBound(y: int, m: int)
    requires 1 <= m <= 12
    ensures DaysBeforeMonth(y, m) + DaysInMonth(y, m) <= DaysBeforeMonth(y, 12) + DaysInMonth(y, 12)
  {
  }

  lemma MonthsGrow(y: int, m: int, n: int)
    requires 1 <= m < n <= 12
    ensures DaysBeforeMonth(y, m) + DaysInMonth(y, m) <= DaysBeforeMonth(y, n)
  {
  }

  /** NextDay(d) is the only valid date whose day number follows d's. */
  lemma NextDayUnique(d: Date, e: Date)
    requires ValidDate(d) && ValidDate(e) && NextDay(d).Some?
    ensures Ordinal(e) == Ordinal(d) + 1 <==> e == NextDay(d).value
  {
    var n := NextDay(d).value;
    NextDayIsOneDayLater(d);
    if e != n {
      if Before(e, n) {
        OrdinalMonotone(e, n);
        if Before(d, e) {
          OrdinalMonotone(d, e);
        } else if e != d {
          assert Before(e, d);
          OrdinalMonotone(e, d);
        }
      } else {
        assert Before(n, e);
        OrdinalMonotone(n, e);
      }
    }
  }

  // ---------------------------------------------------------------------
  // strftime("%Y<sep>%m<sep>%d") and its inverse.
  // ---------------------------------------------------------------------

  function Pow10(w: nat): (p: nat)
    ensures p >= 1
  {
    if w == 0 then 1 else 10 * Pow10(w - 1)
  }

  function DigitChar(n: int): char
    requires 0 <= n < 10
  {
    (48 + n) as char
  }

  function DigitValue(c: char): Option<int> {
    if '0' <= c <= '9' then Some(c as int - 48) else None
  }

  /** The last `w` decimal digits of `n`, zero-padded on the left. */
  function Pad(n: nat, w: nat): (s: string)
    ensures |s| == w
    ensures forall i :: 0 <= i < |s| ==> '0' <= s[i] <= '9'
  {
    if w == 0 then [] else Pad(n / 10, w - 1) + [DigitChar(n % 10)]
  }

  /** The value of a string of decimal digits; None if any character is not a digit. */
  function ParseDigits(s: string): Option<nat> {
    if s == [] then Some(0)
    else
      match (ParseDigits(s[..|s| - 1]), DigitValue(s[|s| - 1]))
      case (Some(p), Some(d)) => Some(10 * p + d)
      case _ => None
  }

  lemma {:induction false} PadRoundTrip(n: nat, w: nat)
    requires n < Pow10(w)
    ensures ParseDigits(Pad(n, w)) == Some(n)
  {
    if w > 0 {
      var s := Pad(n, w);
      assert s[..|s| - 1] == Pad(n / 10, w - 1);
      assert n / 10 < Pow10(w - 1);
      PadRoundTrip(n / 10, w - 1);
    }
  }

  /** `strftime` of `%Y<sep>%m<sep>%d`. */
  function FormatDate(d: Date, sep: char): (s: string)
    requires ValidDate(d)
    ensures |s| == 10 && s[4] == sep && s[7] == sep
  {
    Pad(d.year, 4) + [sep] + Pad(d.month, 2) + [sep] + Pad(d.day, 2)
  }

  /** Reads a `%Y<sep>%m<sep>%d` string back; None unless it names a valid date. */
  function ParseDate(s: string, sep: char): Option<Date> {
    if |s| != 10 || s[4] != sep || s[7] != sep then None
    else
      match (ParseDigits(s[..4]), ParseDigits(s[5..7]), ParseDigits(s[8..]))
      case (Some(y), Some(m), Some(d)) =>
        if ValidDate(Date(y, m, d)) then Some(Date(y, m, d)) else None
      case _ => None
  }

  /** Formatting loses nothing: the rendered string reads back as the same date. */
  lemma FormatDateRoundTrip(d: Date, sep: char)
    requires ValidDate(d)
    ensures ParseDate(FormatDate(d, sep), sep) == Some(d)
  {
    var s := FormatDate(d, sep);
    assert s[..4] == Pad(d.year, 4);
    assert s[5..7] == Pad(d.month, 2);
    assert s[8..] == Pad(d.day, 2);
    assert Pow10(4) == 10000 && Pow10(2) == 100;
    PadRoundTrip(d.year, 4);
    PadRoundTrip(d.month, 2);
    PadRoundTrip(d.day, 2);
  }

  /** Different dates render differently. */
  lemma FormatDateInjective(a: Date, b: Date, sep: char)
    requires ValidDate(a) && ValidDate(b) && FormatDate(a, sep) == FormatDate(b, sep)
    ensures a == b
  {
    FormatDateRoundTrip(a, sep);
    FormatDateRoundTrip(b, sep);
  }

  lemma YearDigitsExample()
    ensures Pad(2026, 4) == "2026"
  {
    assert Pad(2, 1) == Pad(0, 0) + ['2'];
    assert Pad(20, 2) == Pad(2, 1) + ['0'];
    assert Pad(202, 3) == Pad(20, 2) + ['2'];
    assert Pad(2026, 4) == Pad(202, 3) + ['6'];
  }

  lemma DayDigitsExample()
    ensures Pad(1, 2) == "01" && Pad(14, 2) == "14" && Pad(15, 2) == "15"
  {
    assert Pad(0, 1) == Pad(0, 0) + ['0'];
    assert Pad(1, 2) == Pad(0, 1) + ['1'];
    assert Pad(1, 1) == Pad(0, 0) + ['1'];
    assert Pad(14, 2) == Pad(1, 1) + ['4'];
    assert Pad(15, 2) == Pad(1, 1) + ['5'];
  }

  /**
   * The run date of the archived example day, in both renderings, and the day after it.
   * Its inputs are parameters pinned to the example values by `requires`, so the solver treats each
   * literal as one term until the body splits it; stated on the literals directly, the proof
   * exceeds its resource budget.
   */
  lemma FormatDateExample(d: Date)
    requires d == Date(2026, 1, 14)
    ensures FormatDate(d, '-') == "2026-01-14"
    ensures FormatDate(d, '_') == "2026_01_14"
    ensures NextDay(d) == Some(Date(2026, 1, 15)) && FormatDate(NextDay(d).value, '-') == "2026-01-15"
  {
    YearDigitsExample();
    DayDigitsExample();
  }
}
