/** Model of backend/services/date_utils.py: dates are records, the
    `dateutil` parser is an oracle, and day arithmetic uses the proleptic
    Gregorian day count that Python's `date.toordinal` uses. */
module DateUtils {
  import opened Strings
  import opened Wrappers
  import opened Arithmetic


  /** A calendar date (`datetime.date`). */
  datatype Date = Date(year: int, month: int, day: int)

  /** A naive `datetime.datetime` without microseconds. */
  datatype DateTime = DateTime(year: int, month: int, day: int, hour: int, minute: int, second: int)
  {
    /** `datetime.date()`. */
    function ToDate(): Date { Date(year, month, day) }
  }

  predicate IsLeap(y: int)
  {
    y % 4 == 0 && (y % 100 != 0 || y % 400 == 0)
  }

  function DaysInMonth(y: int, m: int): (n: int)
    requires 1 <= m <= 12
    ensures 28 <= n <= 31
  {
    if m == 2 then (if IsLeap(y) then 29 else 28)
    else if m == 4 || m == 6 || m == 9 || m == 11 then 30
    else 31
  }

  /** The range `datetime` accepts: MINYEAR 1 to MAXYEAR 9999. */
  predicate ValidDate(d: Date)
  {
    1 <= d.year <= 9999 && 1 <= d.month <= 12 && 1 <= d.day <= DaysInMonth(d.year, d.month)
  }

  predicate ValidDateTime(t: DateTime)
  {
    ValidDate(t.ToDate()) && 0 <= t.hour < 24 && 0 <= t.minute < 60 && 0 <= t.second < 60
  }

  type Instant = t: DateTime | ValidDateTime(t) witness DateTime(1, 1, 1, 0, 0, 0)

  /** What `dateutil.parser.parse(s, dayfirst=True)` gives: a datetime, or a
      parse error. The parser itself is not modelled. */
  type Parser = string -> Option<Instant>

  // ---------------------------------------------------------------------
  // Orders
  // ---------------------------------------------------------------------

  /** Comparison of `date` objects: (year, month, day) lexicographically. */
  predicate DateLessEq(a: Date, b: Date)
  {
    a.year < b.year
    || (a.year == b.year && (a.month < b.month || (a.month == b.month && a.day <= b.day)))
  }

  predicate DateLess(a: Date, b: Date)
  {
    DateLessEq(a, b) && a != b
  }

  /** `a > b` on naive datetimes: lexicographic on every field. */
  predicate After(a: DateTime, b: DateTime)
  {
    DateLess(b.ToDate(), a.ToDate())
    || (a.ToDate() == b.ToDate()
        && (a.hour > b.hour
            || (a.hour == b.hour && (a.minute > b.minute
                || (a.minute == b.minute && a.second > b.second)))))
  }

  lemma AfterStrictTotal(a: DateTime, b: DateTime)
    ensures !(After(a, b) && After(b, a))
    ensures a != b ==> After(a, b) || After(b, a)
    ensures !After(a, a)
  {
  }

  // ---------------------------------------------------------------------
  // Day count
  // ---------------------------------------------------------------------

  function DaysBeforeYear(y: int): int
  {
    var p := y - 1;
    365 * p + p / 4 - p / 100 + p / 400
  }

  function DaysInYear(y: int): int
  {
    if IsLeap(y) then 366 else 365
  }

  /** Days of the months before month `m` of year `y`. */
  function DaysBeforeMonth(y: int, m: int): (n: int)
    requires 1 <= m <= 13
    ensures n >= 0
  {
    if m == 1 then 0 else DaysBeforeMonth(y, m - 1) + DaysInMonth(y, m - 1)
  }

  /** `date.toordinal()`: 0001-01-01 is day 1. */
  function Ordinal(d: Date): int
    requires ValidDate(d)
  {
    DaysBeforeYear(d.year) + DaysBeforeMonth(d.year, d.month) + d.day
  }

  lemma DaysBeforeYearStep(y: int)
    ensures DaysBeforeYear(y + 1) == DaysBeforeYear(y) + DaysInYear(y)
  {
    DivStep(y, 4);
    DivStep(y, 100);
    DivStep(y, 400);
  }

  /** Stepping from y - 1 to y adds one to y / d exactly when d divides y. */
  lemma DivStep(y: int, d: int)
    requires 0 < d
    ensures y / d - (y - 1) / d == (if y % d == 0 then 1 else 0)
  {
    var q, r := y / d, y % d;
    assert y == q * d + r && 0 <= r < d;
    if r == 0 {
      assert y - 1 == (q - 1) * d + (d - 1);
      DivUnique(y - 1, q - 1, d - 1, d);
    } else {
      assert y - 1 == q * d + (r - 1);
      DivUnique(y - 1, q, r - 1, d);
    }
  }

  lemma {:induction false} DaysBeforeYearMonotone(y1: int, y2: int)
    requires y1 <= y2
    ensures DaysBeforeYear(y1) + (y2 - y1) * 365 <= DaysBeforeYear(y2)
    decreases y2 - y1
  {
    if y1 < y2 {
      DaysBeforeYearMonotone(y1, y2 - 1);
      DaysBeforeYearStep(y2 - 1);
    }
  }

  lemma {:induction false} DaysBeforeMonthMonotone(y: int, m1: int, m2: int)
    requires 1 <= m1 <= m2 <= 13
    ensures DaysBeforeMonth(y, m1) + (m2 - m1) * 28 <= DaysBeforeMonth(y, m2)
    decreases m2 - m1
  {
    if m1 < m2 {
      DaysBeforeMonthMonotone(y, m1, m2 - 1);
    }
  }

  lemma DaysBeforeMonthWholeYear(y: int)
    ensures DaysBeforeMonth(y, 13) == DaysInYear(y)
  {
    var f := if IsLeap(y) then 29 else 28;
    assert DaysBeforeMonth(y, 2) == 31;
    assert DaysBeforeMonth(y, 3) == 31 + f;
    assert DaysBeforeMonth(y, 4) == 62 + f;
    assert DaysBeforeMonth(y, 5) == 92 + f;
    assert DaysBeforeMonth(y, 6) == 123 + f;
    assert DaysBeforeMonth(y, 7) == 153 + f;
    assert DaysBeforeMonth(y, 8) == 184 + f;
    assert DaysBeforeMonth(y, 9) == 215 + f;
    assert DaysBeforeMonth(y, 10) == 245 + f;
    assert DaysBeforeMonth(y, 11) == 276 + f;
    assert DaysBeforeMonth(y, 12) == 306 + f;
  }

  /** The day count is strictly increasing along the calendar order. */
  lemma OrdinalStrictlyMonotone(a: Date, b: Date)
    requires ValidDate(a) && ValidDate(b)
    requires DateLess(a, b)
    ensures Ordinal(a) < Ordinal(b)
  {
    if a.year < b.year {
      DaysBeforeMonthMonotone(a.year, a.month + 1, 13);
      DaysBeforeMonthWholeYear(a.year);
      DaysBeforeYearStep(a.year);
      DaysBeforeYearMonotone(a.year + 1, b.year);
      assert Ordinal(a) <= DaysBeforeYear(a.year + 1);
    } else if a.month < b.month {
      DaysBeforeMonthMonotone(a.year, a.month + 1, b.month);
    }
  }

  /** Two valid dates have the same day count exactly when they are the same day. */
  lemma OrdinalInjective(a: Date, b: Date)
    requires ValidDate(a) && ValidDate(b)
    ensures Ordinal(a) == Ordinal(b) <==> a == b
  {
    if a != b {
      if DateLessEq(a, b) { OrdinalStrictlyMonotone(a, b); } else { OrdinalStrictlyMonotone(b, a); }
    }
  }

  // ---------------------------------------------------------------------
  // Operations of date_utils.py
  // ---------------------------------------------------------------------

  /** `parse_date`: the empty string and "N/A" never reach the parser. */
  function ParseDate(s: string, parse: Parser): (r: Option<Instant>)
    ensures s == "" || s == "N/A" ==> r == None
    ensures s != "" && s != "N/A" ==> r == parse(s)
  {
    if s == "" || s == "N/A" then None else parse(s)
  }

  /** `strftime("%d/%m/%Y")`. */
  function Dmy(t: Instant): string
  {
    Padded(t.day, 2) + "/" + Padded(t.month, 2) + "/" + Padded(t.year, 4)
  }

  /** `strftime("%H:%M")`. */
  function Hm(t: Instant): string
  {
    Padded(t.hour, 2) + ":" + Padded(t.minute, 2)
  }

  predicate HasTime(t: DateTime)
  {
    t.hour != 0 || t.minute != 0
  }

  /** `format_date`: "N/A" for no date, DD/MM/YYYY, and " HH:MM" appended only
      when the time is asked for and is not midnight to the minute. */
  function FormatDate(d: Option<Instant>, includeTime: bool): (r: string)
    ensures d.None? ==> r == "N/A"
    ensures d.Some? ==> |r| == (if includeTime && HasTime(d.value) then 16 else 10)
    ensures d.Some? ==> IsDigit(r[0])
  {
    match d
    case None => "N/A"
    case Some(t) =>
      if includeTime && HasTime(t) then Dmy(t) + " " + Hm(t) else Dmy(t)
  }

  /** The fields a formatted date string carries. */
  datatype Stamp = Stamp(day: int, month: int, year: int, hour: int, minute: int)

  predicate DigitsAt(s: string, lo: nat, hi: nat)
  {
    lo <= hi <= |s| && forall i :: lo <= i < hi ==> IsDigit(s[i])
  }

  /** Reads back "DD/MM/YYYY" or "DD/MM/YYYY HH:MM" (reference reader for the format). */
  function ParseStamp(s: string): Option<Stamp>
  {
    if (|s| == 10 || |s| == 16) && DigitsAt(s, 0, 2) && s[2] == '/' && DigitsAt(s, 3, 5)
       && s[5] == '/' && DigitsAt(s, 6, 10) then
      var dd := DigitsValue(s[0..2]);
      var mm := DigitsValue(s[3..5]);
      var yy := DigitsValue(s[6..10]);
      if |s| == 10 then Some(Stamp(dd, mm, yy, 0, 0))
      else if s[10] == ' ' && DigitsAt(s, 11, 13) && s[13] == ':' && DigitsAt(s, 14, 16) then
        Some(Stamp(dd, mm, yy, DigitsValue(s[11..13]), DigitsValue(s[14..16])))
      else None
    else None
  }

  /** What `format_date` shows of a datetime: the date always, the hour and
      minute only when shown; the seconds never. */
  function Shown(t: DateTime, includeTime: bool): Stamp
  {
    if includeTime && HasTime(t) then Stamp(t.day, t.month, t.year, t.hour, t.minute)
    else Stamp(t.day, t.month, t.year, 0, 0)
  }

  lemma PaddedDigits(n: nat, width: nat, s: string, lo: nat)
    requires lo + width <= |s| && s[lo..lo + width] == Padded(n, width)
    ensures DigitsAt(s, lo, lo + width)
  {
    forall i | lo <= i < lo + width ensures IsDigit(s[i]) {
      assert s[i] == s[lo..lo + width][i - lo];
    }
  }

  /** Formatting loses nothing that `format_date` promises to show. */
  lemma FormatDateRoundTrip(t: Instant, includeTime: bool)
    ensures ParseStamp(FormatDate(Some(t), includeTime)) == Some(Shown(t, includeTime))
  {
    var r := FormatDate(Some(t), includeTime);
    if includeTime && HasTime(t) {
      assert r[..10] == Dmy(t) && r[10..] == " " + Hm(t);
      HmRead(t, r);
    } else {
      assert r[..10] == Dmy(t);
    }
    DmyRead(t, r);
  }

  /** The "DD/MM/YYYY" head of a formatted date reads back as its date. */
  lemma DmyRead(t: Instant, r: string)
    requires |r| >= 10 && r[..10] == Dmy(t)
    ensures DigitsAt(r, 0, 2) && r[2] == '/' && DigitsAt(r, 3, 5) && r[5] == '/' && DigitsAt(r, 6, 10)
    ensures DigitsValue(r[0..2]) == t.day && DigitsValue(r[3..5]) == t.month && DigitsValue(r[6..10]) == t.year
  {
    var d2, m2, y4 := Padded(t.day, 2), Padded(t.month, 2), Padded(t.year, 4);
    assert r[0..2] == d2 && r[3..5] == m2 && r[6..10] == y4 by {
      assert r[0..2] == r[..10][0..2] && r[3..5] == r[..10][3..5] && r[6..10] == r[..10][6..10];
    }
    assert r[2] == r[..10][2] && r[5] == r[..10][5];
    PaddedDigits(t.day, 2, r, 0);
    PaddedDigits(t.month, 2, r, 3);
    PaddedDigits(t.year, 4, r, 6);
    PaddedRoundTrip(t.day, 2);
    PaddedRoundTrip(t.month, 2);
    PaddedRoundTrip(t.year, 4);
  }

  /** The " HH:MM" tail of a formatted date reads back as its hour and minute. */
  lemma HmRead(t: Instant, r: string)
    requires |r| == 16 && r[10..] == " " + Hm(t)
    ensures r[10] == ' ' && DigitsAt(r, 11, 13) && r[13] == ':' && DigitsAt(r, 14, 16)
    ensures DigitsValue(r[11..13]) == t.hour && DigitsValue(r[14..16]) == t.minute
  {
    var h2, n2 := Padded(t.hour, 2), Padded(t.minute, 2);
    assert r[11..13] == h2 && r[14..16] == n2 by {
      assert r[11..13] == r[10..][1..3] && r[14..16] == r[10..][4..6];
    }
    assert r[10] == r[10..][0] && r[13] == r[10..][3];
    PaddedDigits(t.hour, 2, r, 11);
    PaddedDigits(t.minute, 2, r, 14);
    PaddedRoundTrip(t.hour, 2);
    PaddedRoundTrip(t.minute, 2);
  }

  /** `standardize_date`: format_date with the time, or "N/A". */
  function StandardizeDate(s: string, parse: Parser): (r: string)
    ensures r == "N/A" <==> ParseDate(s, parse).None?
    ensures ParseDate(s, parse).Some? ==> r == FormatDate(ParseDate(s, parse), true)
  {
    var p := ParseDate(s, parse);
    if p.Some? then FormatDate(p, true) else "N/A"
  }

  /** `dates_are_equal`: same calendar day, ignoring the time; false when
      either side does not parse. */
  function DatesAreEqual(s1: string, s2: string, parse: Parser): (r: bool)
    ensures ParseDate(s1, parse).None? || ParseDate(s2, parse).None? ==> !r
  {
    var d1 := ParseDate(s1, parse);
    var d2 := ParseDate(s2, parse);
    if d1.None? || d2.None? then false else d1.value.ToDate() == d2.value.ToDate()
  }

  lemma DatesAreEqualSymmetric(s1: string, s2: string, parse: Parser)
    ensures DatesAreEqual(s1, s2, parse) == DatesAreEqual(s2, s1, parse)
  {
  }

  /** `calculate_date_difference`: days from the first date to the second. */
  function CalculateDateDifference(s1: string, s2: string, parse: Parser): (r: Option<int>)
    ensures r.None? <==> ParseDate(s1, parse).None? || ParseDate(s2, parse).None?
  {
    var d1 := ParseDate(s1, parse);
    var d2 := ParseDate(s2, parse);
    if d1.None? || d2.None? then None
    else Some(Ordinal(d2.value.ToDate()) - Ordinal(d1.value.ToDate()))
  }

  lemma DifferenceAntisymmetric(s1: string, s2: string, parse: Parser)
    ensures CalculateDateDifference(s1, s2, parse).Some? ==>
      CalculateDateDifference(s2, s1, parse) == Some(-CalculateDateDifference(s1, s2, parse).value)
  {
  }

  /** The difference is zero exactly when `dates_are_equal` holds, and its sign
      follows the calendar order. */
  lemma DifferenceZeroIffEqual(s1: string, s2: string, parse: Parser)
    ensures DatesAreEqual(s1, s2, parse) <==> CalculateDateDifference(s1, s2, parse) == Some(0)
    ensures CalculateDateDifference(s1, s2, parse).Some? ==>
      (CalculateDateDifference(s1, s2, parse).value > 0 <==>
         DateLess(ParseDate(s1, parse).value.ToDate(), ParseDate(s2, parse).value.ToDate()))
  {
    var d1 := ParseDate(s1, parse);
    var d2 := ParseDate(s2, parse);
    if d1.Some? && d2.Some? {
      var a, b := d1.value.ToDate(), d2.value.ToDate();
      OrdinalInjective(a, b);
      if DateLess(a, b) { OrdinalStrictlyMonotone(a, b); }
      if DateLess(b, a) { OrdinalStrictlyMonotone(b, a); }
    }
  }

  /** `get_date_range`: both parsed, in order, or (None, None). */
  function GetDateRange(s1: string, s2: string, parse: Parser): (r: (Option<Instant>, Option<Instant>))
    ensures r.0.None? <==> r.1.None?
    ensures r.0.None? <==> ParseDate(s1, parse).None? || ParseDate(s2, parse).None?
    ensures r.0.Some? ==> !After(r.0.value, r.1.value)
    ensures r.0.Some? ==>
      multiset{r.0.value, r.1.value} == multiset{ParseDate(s1, parse).value, ParseDate(s2, parse).value}
  {
    var a := ParseDate(s1, parse);
    var b := ParseDate(s2, parse);
    if a.None? || b.None? then (None, None)
    else if After(a.value, b.value) then
      AfterStrictTotal(a.value, b.value);
      (b, a)
    else (a, b)
  }
}
