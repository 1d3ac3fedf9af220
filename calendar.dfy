/**
  Naive calendar dates in the proleptic Gregorian calendar, the ISO 8601 extended
  calendar-date form `YYYY-MM-DD` (section 4.1.2.2 of ISO 8601:2004), and day offsets.

  `AddDays` steps month by month, as `setDate` carries an out-of-range day into the
  neighbouring months; `DayNumber` is an independent closed-form count of days, and
  `AddDaysShiftsDayNumber` ties the two together.
*/
module Calendar {
  import opened Options
  import opened JsString

  datatype Date = Date(year: int, month: int, day: int)

  /** Gregorian leap years: divisible by 4, except centuries not divisible by 400. */
  predicate IsLeapYear(y: int) {
    y % 4 == 0 && (y % 100 != 0 || y % 400 == 0)
  }

  function DaysInMonth(y: int, m: int): (n: int)
    requires 1 <= m <= 12
    ensures 28 <= n <= 31
    ensures n == 29 <==> m == 2 && IsLeapYear(y)
  {
    if m == 2 then (if IsLeapYear(y) then 29 else 28)
    else if m == 4 || m == 6 || m == 9 || m == 11 then 30
    else 31
  }

  /** A real calendar date: a month of the year and a day of that month. */
  predicate Valid(d: Date) {
    1 <= d.month <= 12 && 1 <= d.day <= DaysInMonth(d.year, d.month)
  }

  function FirstOfNextMonth(d: Date): (r: Date)
    requires Valid(d)
    ensures Valid(r) && r.day == 1
  {
    if d.month == 12 then Date(d.year + 1, 1, 1) else Date(d.year, d.month + 1, 1)
  }

  function LastOfPreviousMonth(d: Date): (r: Date)
    requires Valid(d)
    ensures Valid(r) && r.day == DaysInMonth(r.year, r.month)
  {
    if d.month == 1 then Date(d.year - 1, 12, 31)
    else Date(d.year, d.month - 1, DaysInMonth(d.year, d.month - 1))
  }

  /** The date `k` days after `d` (before it for negative `k`): the day of the month
      moves by `k`, and a day past either end of the month carries into the next or
      previous month, repeatedly. */
  function AddDays(d: Date, k: int): (r: Date)
    requires Valid(d)
    ensures Valid(r)
    decreases if k >= 0 then k else -k
  {
    if k >= 0 then
      if d.day + k <= DaysInMonth(d.year, d.month) then Date(d.year, d.month, d.day + k)
      else AddDays(FirstOfNextMonth(d), k - (DaysInMonth(d.year, d.month) - d.day + 1))
    else
      if d.day + k >= 1 then Date(d.year, d.month, d.day + k)
      else AddDays(LastOfPreviousMonth(d), k + d.day)
  }

  /** The number of leap years in `[0, y)`, counted negatively for negative `y`. */
  function LeapYearsBefore(y: int): int {
    (y + 3) / 4 - (y + 99) / 100 + (y + 399) / 400
  }

  function DaysBeforeYear(y: int): int {
    365 * y + LeapYearsBefore(y)
  }

  function DaysBeforeMonth(y: int, m: int): int
    requires 1 <= m <= 12
  {
    [0, 31, 59, 90, 120, 151, 181, 212, 243, 273, 304, 334][m - 1]
      + (if m > 2 && IsLeapYear(y) then 1 else 0)
  }

  /** The number of days from 0000-01-01 to `d`. */
  function DayNumber(d: Date): int
    requires Valid(d)
  {
    DaysBeforeYear(d.year) + DaysBeforeMonth(d.year, d.month) + d.day - 1
  }

  /** `(y + n) / n` exceeds `(y + n - 1) / n` by one exactly when `n` divides `y`, for each
      of the three divisors of the leap-year rule. */
  lemma {:induction false} QuarterStep(y: int)
    ensures (y + 4) / 4 - (y + 3) / 4 == (if y % 4 == 0 then 1 else 0)
  {
    var q, r := y / 4, y % 4;
    assert y == 4 * q + r && 0 <= r < 4;
    assert (y + 4) / 4 == q + 1;
    assert (y + 3) / 4 == if r == 0 then q else q + 1;
  }

  lemma {:induction false} CenturyStep(y: int)
    ensures (y + 100) / 100 - (y + 99) / 100 == (if y % 100 == 0 then 1 else 0)
  {
    var q, r := y / 100, y % 100;
    assert y == 100 * q + r && 0 <= r < 100;
    assert (y + 100) / 100 == q + 1;
    assert (y + 99) / 100 == if r == 0 then q else q + 1;
  }

  lemma {:induction false} QuadCenturyStep(y: int)
    ensures (y + 400) / 400 - (y + 399) / 400 == (if y % 400 == 0 then 1 else 0)
  {
    var q, r := y / 400, y % 400;
    assert y == 400 * q + r && 0 <= r < 400;
    assert (y + 400) / 400 == q + 1;
    assert (y + 399) / 400 == if r == 0 then q else q + 1;
  }

  lemma {:induction false} QuadCenturyIsCentury(y: int)
    requires y % 400 == 0
    ensures y % 100 == 0
  {
    var k := y / 400;
    assert y == 100 * (4 * k);
  }

  lemma {:induction false} CenturyIsQuarter(y: int)
    requires y % 100 == 0
    ensures y % 4 == 0
  {
    var k := y / 100;
    assert y == 4 * (25 * k);
  }

  lemma {:induction false} LeapYearsBeforeStep(y: int)
    ensures LeapYearsBefore(y + 1) == LeapYearsBefore(y) + (if IsLeapYear(y) then 1 else 0)
  {
    QuarterStep(y);
    CenturyStep(y);
    QuadCenturyStep(y);
    if y % 400 == 0 {
      QuadCenturyIsCentury(y);
    }
    if y % 100 == 0 {
      CenturyIsQuarter(y);
    }
  }

  /** A year has 366 days in a leap year and 365 otherwise. */
  lemma {:induction false} DaysBeforeNextYear(y: int)
    ensures DaysBeforeYear(y + 1) == DaysBeforeYear(y) + (if IsLeapYear(y) then 366 else 365)
  {
    LeapYearsBeforeStep(y);
  }

  /** `b` lies `k` days after `a` by day number. */
  predicate Shifted(a: Date, b: Date, k: int)
    requires Valid(a) && Valid(b)
  {
    DayNumber(b) == DayNumber(a) + k
  }

  lemma {:induction false} ShiftedCompose(a: Date, b: Date, c: Date, j: int, k: int)
    requires Valid(a) && Valid(b) && Valid(c)
    requires Shifted(a, b, j) && Shifted(b, c, k)
    ensures Shifted(a, c, j + k)
  {
  }

  lemma {:induction false} DayNumberOfFirstOfNextMonth(d: Date)
    requires Valid(d)
    ensures Shifted(d, FirstOfNextMonth(d), DaysInMonth(d.year, d.month) - d.day + 1)
  {
    if d.month == 12 {
      DaysBeforeNextYear(d.year);
    } else {
      DaysBeforeMonthStep(d.year, d.month);
    }
  }

  lemma {:induction false} DayNumberOfLastOfPreviousMonth(d: Date)
    requires Valid(d)
    ensures Shifted(d, LastOfPreviousMonth(d), -d.day)
  {
    if d.month == 1 {
      DaysBeforeNextYear(d.year - 1);
    } else {
      DaysBeforeMonthStep(d.year, d.month - 1);
    }
  }

  lemma {:induction false} AddDaysShifted(d: Date, k: int)
    requires Valid(d)
    ensures Shifted(d, AddDays(d, k), k)
    decreases if k >= 0 then k else -k
  {
    if k >= 0 {
      if d.day + k > DaysInMonth(d.year, d.month) {
        var f, rest := FirstOfNextMonth(d), k - (DaysInMonth(d.year, d.month) - d.day + 1);
        assert AddDays(d, k) == AddDays(f, rest);
        DayNumberOfFirstOfNextMonth(d);
        AddDaysShifted(f, rest);
        ShiftedCompose(d, f, AddDays(f, rest), k - rest, rest);
      }
    } else if d.day + k < 1 {
      var l, rest := LastOfPreviousMonth(d), k + d.day;
      assert AddDays(d, k) == AddDays(l, rest);
      DayNumberOfLastOfPreviousMonth(d);
      AddDaysShifted(l, rest);
      ShiftedCompose(d, l, AddDays(l, rest), -d.day, rest);
    }
  }

  /** Adding `k` days moves the day number by exactly `k`. */
  lemma {:induction false} AddDaysShiftsDayNumber(d: Date, k: int)
    requires Valid(d)
    ensures DayNumber(AddDays(d, k)) == DayNumber(d) + k
  {
    AddDaysShifted(d, k);
  }

  /** Day number `n` falls in year `y`: the days of a year occupy
      `[DaysBeforeYear(y), DaysBeforeYear(y + 1))`. */
  predicate InYearSpan(n: int, y: int) {
    DaysBeforeYear(y) <= n < DaysBeforeYear(y + 1)
  }

  lemma {:induction false} DayNumberWithinYear(d: Date)
    requires Valid(d)
    ensures InYearSpan(DayNumber(d), d.year)
  {
    DaysBeforeNextYear(d.year);
  }

  lemma {:induction false} DaysBeforeYearMonotonic(a: int, b: int)
    requires a < b
    ensures DaysBeforeYear(a + 1) <= DaysBeforeYear(b)
    decreases b - a
  {
    if a + 1 < b {
      DaysBeforeNextYear(a + 1);
      DaysBeforeYearMonotonic(a + 1, b);
    }
  }

  /** A day number falls in one year only. */
  lemma {:induction false} YearSpansDisjoint(n: int, y: int, z: int)
    requires InYearSpan(n, y) && InYearSpan(n, z)
    ensures y == z
  {
    if y < z {
      DaysBeforeYearMonotonic(y, z);
    } else if z < y {
      DaysBeforeYearMonotonic(z, y);
    }
  }

  /** Dates with the same day number fall in the same year. */
  lemma {:induction false} DayNumberFixesYear(a: Date, b: Date)
    requires Valid(a) && Valid(b) && DayNumber(a) == DayNumber(b)
    ensures a.year == b.year
  {
    DayNumberWithinYear(a);
    DayNumberWithinYear(b);
    YearSpansDisjoint(DayNumber(a), a.year, b.year);
  }

  /** The days before month `m + 1` are the days before `m` and the days of `m`. */
  lemma {:induction false} DaysBeforeMonthStep(y: int, m: int)
    requires 1 <= m < 12
    ensures DaysBeforeMonth(y, m + 1) == DaysBeforeMonth(y, m) + DaysInMonth(y, m)
  {
  }

  lemma {:induction false} DaysBeforeMonthMonotonic(y: int, m: int, n: int)
    requires 1 <= m < n <= 12
    ensures DaysBeforeMonth(y, m) + DaysInMonth(y, m) <= DaysBeforeMonth(y, n)
    decreases n - m
  {
    DaysBeforeMonthStep(y, m);
    if m + 1 < n {
      DaysBeforeMonthMonotonic(y, m + 1, n);
    }
  }

  /** Different valid dates have different day numbers. */
  lemma {:induction false} DayNumberInjective(a: Date, b: Date)
    requires Valid(a) && Valid(b) && DayNumber(a) == DayNumber(b)
    ensures a == b
  {
    DayNumberFixesYear(a, b);
    if a.month < b.month {
      DaysBeforeMonthMonotonic(a.year, a.month, b.month);
    } else if b.month < a.month {
      DaysBeforeMonthMonotonic(a.year, b.month, a.month);
    }
  }

  /** Dates the same number of days after one date are the same date. */
  lemma {:induction false} ShiftedUnique(a: Date, b: Date, c: Date, k: int)
    requires Valid(a) && Valid(b) && Valid(c)
    requires Shifted(a, b, k) && Shifted(a, c, k)
    ensures b == c
  {
    DayNumberInjective(b, c);
  }

  /** Offsets compose: moving by `j` and then by `k` is moving by `j + k`. */
  lemma {:induction false} AddDaysCompose(d: Date, j: int, k: int)
    requires Valid(d)
    ensures AddDays(AddDays(d, j), k) == AddDays(d, j + k)
  {
    var e := AddDays(d, j);
    AddDaysShifted(d, j);
    AddDaysShifted(e, k);
    ShiftedCompose(d, e, AddDays(e, k), j, k);
    AddDaysShifted(d, j + k);
    ShiftedUnique(d, AddDays(e, k), AddDays(d, j + k), j + k);
  }

  /** The number of days from `a` to `b`, what subtracting two `Date` times and dividing by
      the milliseconds of a day gives for UTC midnights. */
  function DaysBetween(a: Date, b: Date): int
    requires Valid(a) && Valid(b)
  {
    DayNumber(b) - DayNumber(a)
  }

  lemma {:induction false} DaysBetweenAddDays(d: Date, k: int)
    requires Valid(d)
    ensures DaysBetween(d, AddDays(d, k)) == k
  {
    AddDaysShiftsDayNumber(d, k);
  }

  // ---- ISO 8601 text ----

  /** `n` as exactly `width` decimal digits, or its plain numeral when it needs more. */
  function PadDigits(n: nat, width: nat): (s: string)
    ensures forall i :: 0 <= i < |s| ==> IsDigit(s[i])
    ensures |s| >= width
  {
    var digits := NatToString(n);
    if |digits| >= width then digits else Zeros(width - |digits|) + digits
  }

  function Zeros(k: nat): (s: string)
    ensures |s| == k && forall i :: 0 <= i < k ==> s[i] == '0'
  {
    if k == 0 then "" else "0" + Zeros(k - 1)
  }

  function TwoDigits(n: nat): (s: string)
    requires n < 100
  {
    [DigitChar(n / 10), DigitChar(n % 10)]
  }

  function FourDigits(n: nat): (s: string)
    requires n < 10000
  {
    [DigitChar(n / 1000), DigitChar(n / 100 % 10), DigitChar(n / 10 % 10), DigitChar(n % 10)]
  }

  /** The date part of `toISOString()`: a four-digit year for years 0 to 9999, otherwise a
      sign and six digits, then two-digit month and day. */
  function FormatIsoDate(d: Date): (s: string)
    requires Valid(d)
  {
    var year :=
      if 0 <= d.year <= 9999 then FourDigits(d.year)
      else if d.year < 0 then "-" + PadDigits(-d.year, 6)
      else "+" + PadDigits(d.year, 6);
    year + "-" + TwoDigits(d.month) + "-" + TwoDigits(d.day)
  }

  /** The value of the two digits `s[i]`, `s[i + 1]`. */
  function TwoDigitValue(s: string, i: nat): nat
    requires i + 2 <= |s| && IsDigit(s[i]) && IsDigit(s[i + 1])
  {
    DigitValue(s[i]) * 10 + DigitValue(s[i + 1])
  }

  /** The value of the four digits `s[0]` to `s[3]`. */
  function FourDigitValue(s: string): nat
    requires 4 <= |s| && IsDigit(s[0]) && IsDigit(s[1]) && IsDigit(s[2]) && IsDigit(s[3])
  {
    TwoDigitValue(s, 0) * 100 + TwoDigitValue(s, 2)
  }

  /** The text has the shape `DDDD-DD-DD` with `D` a decimal digit. */
  predicate IsoShape(s: string) {
    |s| == 10 && s[4] == '-' && s[7] == '-'
    && IsDigit(s[0]) && IsDigit(s[1]) && IsDigit(s[2]) && IsDigit(s[3])
    && IsDigit(s[5]) && IsDigit(s[6]) && IsDigit(s[8]) && IsDigit(s[9])
  }

  /** A string of exactly the form `YYYY-MM-DD` naming a real date; `None` otherwise. */
  function ParseIsoDate(s: string): (r: Option<Date>)
    ensures r.Some? ==> Valid(r.value) && 0 <= r.value.year <= 9999
  {
    if IsoShape(s) then
      var d := Date(FourDigitValue(s), TwoDigitValue(s, 5), TwoDigitValue(s, 8));
      if Valid(d) then Some(d) else None
    else None
  }

  lemma {:induction false} DigitRoundTrip(n: nat)
    requires n < 10
    ensures IsDigit(DigitChar(n)) && DigitValue(DigitChar(n)) == n
  {
  }

  lemma {:induction false} CharRoundTrip(c: char)
    requires IsDigit(c)
    ensures DigitValue(c) < 10 && DigitChar(DigitValue(c)) == c
  {
    var v := DigitValue(c);
    assert v == 0 || v == 1 || v == 2 || v == 3 || v == 4 || v == 5 || v == 6 || v == 7 || v == 8 || v == 9;
  }

  lemma {:induction false} TwoDigitsRoundTrip(n: nat, s: string, i: nat)
    requires n < 100 && i + 2 <= |s| && s[i..i + 2] == TwoDigits(n)
    ensures IsDigit(s[i]) && IsDigit(s[i + 1]) && TwoDigitValue(s, i) == n
  {
    assert s[i] == DigitChar(n / 10) && s[i + 1] == DigitChar(n % 10);
    DigitRoundTrip(n / 10);
    DigitRoundTrip(n % 10);
  }

  lemma {:induction false} TwoDigitsOfValue(s: string, i: nat)
    requires i + 2 <= |s| && IsDigit(s[i]) && IsDigit(s[i + 1])
    ensures TwoDigitValue(s, i) < 100 && TwoDigits(TwoDigitValue(s, i)) == s[i..i + 2]
  {
    CharRoundTrip(s[i]);
    CharRoundTrip(s[i + 1]);
    var n := TwoDigitValue(s, i);
    assert n / 10 == DigitValue(s[i]) && n % 10 == DigitValue(s[i + 1]);
  }

  lemma {:induction false} FourDigitsSplit(n: nat)
    requires n < 10000
    ensures n / 100 < 100 && FourDigits(n) == TwoDigits(n / 100) + TwoDigits(n % 100)
  {
    var h, l := n / 100, n % 100;
    assert n == 1000 * (h / 10) + (100 * (h % 10) + l);
    assert h / 10 == n / 1000;
    assert n == 10 * (10 * h + l / 10) + l % 10;
    assert n / 10 == 10 * h + l / 10 && l % 10 == n % 10;
    assert l / 10 == n / 10 % 10;
  }

  /** Where the four two-character parts of `DDDD-DD-DD` sit in the text. */
  lemma {:induction false} IsoLayout(p: string, q: string, r: string, u: string)
    requires |p| == 2 && |q| == 2 && |r| == 2 && |u| == 2
    ensures var s := p + q + "-" + r + "-" + u;
      |s| == 10 && s[4] == '-' && s[7] == '-'
      && s[0..2] == p && s[2..4] == q && s[5..7] == r && s[8..10] == u
  {
  }

  /** A ten-character text with dashes at 4 and 7 is its parts around the dashes. */
  lemma {:induction false} IsoSplit(s: string)
    requires |s| == 10 && s[4] == '-' && s[7] == '-'
    ensures s == s[0..2] + s[2..4] + "-" + s[5..7] + "-" + s[8..10]
  {
    var t := s[0..2] + s[2..4] + "-" + s[5..7] + "-" + s[8..10];
    assert |t| == 10;
    forall i | 0 <= i < 10
      ensures s[i] == t[i]
    {
    }
  }

  /** A date of a four-digit year renders digit by digit: the year's four digits, the
      month's two and the day's two, separated by dashes. */
  lemma {:induction false} FormatIsoDateDigits(d: Date, y0: nat, y1: nat, y2: nat, y3: nat,
                                               m0: nat, m1: nat, n0: nat, n1: nat)
    requires Valid(d) && y0 < 10 && y1 < 10 && y2 < 10 && y3 < 10
    requires m0 < 10 && m1 < 10 && n0 < 10 && n1 < 10
    requires d.year == 1000 * y0 + 100 * y1 + 10 * y2 + y3
    requires d.month == 10 * m0 + m1 && d.day == 10 * n0 + n1
    ensures FormatIsoDate(d) == [DigitChar(y0), DigitChar(y1), DigitChar(y2), DigitChar(y3), '-',
                                 DigitChar(m0), DigitChar(m1), '-', DigitChar(n0), DigitChar(n1)]
  {
    TensSplit(d.month, m0, m1);
    TensSplit(d.day, n0, n1);
    TensSplit(d.year, 100 * y0 + 10 * y1 + y2, y3);
    TensSplit(100 * y0 + 10 * y1 + y2, 10 * y0 + y1, y2);
    TensSplit(10 * y0 + y1, y0, y1);
    assert d.year / 100 == 10 * y0 + y1 by {
      var q := 10 * y0 + y1;
      assert d.year == 100 * q + (10 * y2 + y3) && 0 <= 10 * y2 + y3 < 100;
    }
    assert d.year / 1000 == y0 by {
      assert d.year == 1000 * y0 + (100 * y1 + 10 * y2 + y3) && 0 <= 100 * y1 + 10 * y2 + y3 < 1000;
    }
  }

  /** `n == 10 * q + r` with `r` a digit: the quotient and remainder by ten. */
  lemma {:induction false} TensSplit(n: int, q: int, r: nat)
    requires n == 10 * q + r && r < 10
    ensures n / 10 == q && n % 10 == r
  {
  }

  /** Every date of years 0 to 9999 reads back from its ISO text. */
  lemma {:induction false} ParseFormatRoundTrip(d: Date)
    requires Valid(d) && 0 <= d.year <= 9999
    ensures ParseIsoDate(FormatIsoDate(d)) == Some(d)
  {
    var p, q := TwoDigits(d.year / 100), TwoDigits(d.year % 100);
    var r, u := TwoDigits(d.month), TwoDigits(d.day);
    FourDigitsSplit(d.year);
    var s := FormatIsoDate(d);
    assert s == p + q + "-" + r + "-" + u;
    IsoLayout(p, q, r, u);
    TwoDigitsRoundTrip(d.year / 100, s, 0);
    TwoDigitsRoundTrip(d.year % 100, s, 2);
    TwoDigitsRoundTrip(d.month, s, 5);
    TwoDigitsRoundTrip(d.day, s, 8);
    assert IsoShape(s);
    assert FourDigitValue(s) == d.year;
  }

  /** A text of the shape `DDDD-DD-DD` is the two-digit renderings of its four pairs of
      digits around the dashes. */
  lemma {:induction false} IsoShapeParts(s: string)
    requires IsoShape(s)
    ensures TwoDigitValue(s, 0) < 100 && TwoDigitValue(s, 2) < 100
    ensures TwoDigitValue(s, 5) < 100 && TwoDigitValue(s, 8) < 100
    ensures s == TwoDigits(TwoDigitValue(s, 0)) + TwoDigits(TwoDigitValue(s, 2)) + "-"
                 + TwoDigits(TwoDigitValue(s, 5)) + "-" + TwoDigits(TwoDigitValue(s, 8))
  {
    IsoSplit(s);
    TwoDigitsOfValue(s, 0);
    TwoDigitsOfValue(s, 2);
    TwoDigitsOfValue(s, 5);
    TwoDigitsOfValue(s, 8);
  }

  /** Every accepted text is the canonical rendering of the date it names. */
  lemma {:induction false} FormatParseRoundTrip(s: string)
    requires ParseIsoDate(s).Some?
    ensures FormatIsoDate(ParseIsoDate(s).value) == s
  {
    var d := ParseIsoDate(s).value;
    var hi, lo := TwoDigitValue(s, 0), TwoDigitValue(s, 2);
    assert IsoShape(s) && d == Date(hi * 100 + lo, TwoDigitValue(s, 5), TwoDigitValue(s, 8));
    IsoShapeParts(s);
    assert d.year / 100 == hi && d.year % 100 == lo;
    FourDigitsSplit(d.year);
  }
}
