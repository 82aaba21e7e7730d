/** Model of backend/services/holiday_utils.py: two fixed holiday tables keyed
    by ISO 8601 extended-format calendar dates (YYYY-MM-DD), the inclusive
    range filter over them, and the one-line summary built from the result. */
module HolidayUtils {
  import opened Strings
  import opened Wrappers
  import opened DateUtils

  /** Reads an ISO 8601 extended calendar date "YYYY-MM-DD", as
      `datetime.strptime(key, "%Y-%m-%d")` does for the keys of the tables. */
  function ParseIsoKey(s: string): Option<Date>
  {
    if |s| == 10 && DigitsAt(s, 0, 4) && s[4] == '-' && DigitsAt(s, 5, 7) && s[7] == '-'
       && DigitsAt(s, 8, 10) then
      var d := Date(DigitsValue(s[0..4]), DigitsValue(s[5..7]), DigitsValue(s[8..10]));
      if ValidDate(d) then Some(d) else None
    else None
  }

  /** The ISO 8601 extended calendar-date rendering "YYYY-MM-DD". */
  function IsoKey(d: Date): (s: string)
    requires ValidDate(d)
    ensures |s| == 10 && s[4] == '-' && s[7] == '-'
  {
    Padded(d.year, 4) + "-" + Padded(d.month, 2) + "-" + Padded(d.day, 2)
  }

  /** Reading a rendered key gives back the date. */
  lemma IsoKeyRoundTrip(d: Date)
    requires ValidDate(d)
    ensures ParseIsoKey(IsoKey(d)) == Some(d)
  {
    var s := IsoKey(d);
    assert s[0..4] == Padded(d.year, 4) && s[5..7] == Padded(d.month, 2) && s[8..10] == Padded(d.day, 2);
    PaddedDigits(d.year, 4, s, 0);
    PaddedDigits(d.month, 2, s, 5);
    PaddedDigits(d.day, 2, s, 8);
    PaddedRoundTrip(d.year, 4);
    PaddedRoundTrip(d.month, 2);
    PaddedRoundTrip(d.day, 2);
  }

  /** A table row (key, holiday name) whose key is a valid ISO date. */
  type Holiday = e: (string, string) | ParseIsoKey(e.0).Some?
    witness (IsoKeyRoundTrip(Date(2025, 1, 1)); (IsoKey(Date(2025, 1, 1)), ""))

  /** The table row whose key is the date year-month-day. */
  function H(year: int, month: int, day: int, name: string): (e: Holiday)
    requires ValidDate(Date(year, month, day))
    ensures KeyDate(e) == Date(year, month, day) && e.1 == name
  {
    IsoKeyRoundTrip(Date(year, month, day));
    (IsoKey(Date(year, month, day)), name)
  }

  function KeyDate(e: Holiday): (d: Date)
    ensures ValidDate(d)
  {
    ParseIsoKey(e.0).value
  }

  /** FRENCH_HOLIDAYS, in the dict's insertion order. */
  const FrenchHolidays: seq<Holiday> := [
    H(2025, 1, 1, "New Year's Day"),
    H(2025, 4, 21, "Easter Monday"),
    H(2025, 5, 1, "Labour Day"),
    H(2025, 5, 8, "Victory Day"),
    H(2025, 5, 29, "Ascension Day"),
    H(2025, 6, 9, "Whit Monday"),
    H(2025, 7, 14, "Bastille Day"),
    H(2025, 8, 15, "Assumption Day"),
    H(2025, 11, 1, "All Saints' Day"),
    H(2025, 11, 11, "Armistice Day"),
    H(2025, 12, 25, "Christmas Day"),
    H(2026, 1, 1, "New Year's Day"),
    H(2026, 4, 6, "Easter Monday"),
    H(2026, 5, 1, "Labour Day"),
    H(2026, 5, 8, "Victory Day"),
    H(2026, 5, 14, "Ascension Day"),
    H(2026, 5, 25, "Whit Monday"),
    H(2026, 7, 14, "Bastille Day"),
    H(2026, 8, 15, "Assumption Day"),
    H(2026, 11, 1, "All Saints' Day"),
    H(2026, 11, 11, "Armistice Day"),
    H(2026, 12, 25, "Christmas Day")
  ]

  /** INDIA_HOLIDAYS, in the dict's insertion order (2025 rows, then 2026 rows). */
  const IndiaHolidays: seq<Holiday> := India2025 + India2026

  const India2025: seq<Holiday> := [
    H(2025, 1, 26, "Republic Day"),
    H(2025, 3, 14, "Holi"),
    H(2025, 3, 31, "Eid ul-Fitr"),
    H(2025, 4, 10, "Mahavir Jayanti"),
    H(2025, 4, 14, "Ambedkar Jayanti"),
    H(2025, 4, 18, "Good Friday"),
    H(2025, 5, 1, "May Day"),
    H(2025, 6, 7, "Eid ul-Adha"),
    H(2025, 7, 6, "Muharram"),
    H(2025, 8, 15, "Independence Day"),
    H(2025, 8, 27, "Janmashtami"),
    H(2025, 9, 5, "Milad un-Nabi"),
    H(2025, 10, 2, "Gandhi Jayanti"),
    H(2025, 10, 21, "Dussehra"),
    H(2025, 10, 22, "Diwali"),
    H(2025, 11, 5, "Guru Nanak Jayanti"),
    H(2025, 12, 25, "Christmas Day")
  ]

  /** The 2026 rows. The source keeps one dict; it is written here as two
      halves of the year only so that each literal's well-formedness proof
      stays small. The concatenation is the dict's rows, in order. */
  const India2026: seq<Holiday> := India2026H1 + India2026H2

  const India2026H1: seq<Holiday> := [
    H(2026, 1, 26, "Republic Day"),
    H(2026, 3, 3, "Holi"),
    H(2026, 3, 20, "Eid ul-Fitr"),
    H(2026, 3, 30, "Mahavir Jayanti"),
    H(2026, 4, 3, "Good Friday"),
    H(2026, 4, 14, "Ambedkar Jayanti"),
    H(2026, 5, 1, "May Day"),
    H(2026, 5, 28, "Eid ul-Adha"),
    H(2026, 6, 25, "Muharram")
  ]

  const India2026H2: seq<Holiday> := [
    H(2026, 8, 15, "Independence Day"),
    H(2026, 8, 16, "Janmashtami"),
    H(2026, 8, 25, "Milad un-Nabi"),
    H(2026, 10, 2, "Gandhi Jayanti"),
    H(2026, 10, 10, "Dussehra"),
    H(2026, 10, 29, "Diwali"),
    H(2026, 11, 24, "Guru Nanak Jayanti"),
    H(2026, 12, 25, "Christmas Day")
  ]

  /** The bounds are compared as dates, both inclusive. */
  predicate InRange(lo: Date, hi: Date, e: Holiday)
  {
    DateLessEq(lo, KeyDate(e)) && DateLessEq(KeyDate(e), hi)
  }

  function Midnight(d: Date): Instant
    requires ValidDate(d)
  {
    DateTime(d.year, d.month, d.day, 0, 0, 0)
  }

  /** "Name (DD/MM/YYYY)". */
  function Entry(e: Holiday): string
  {
    e.1 + " (" + Dmy(Midnight(KeyDate(e))) + ")"
  }

  /** An entry is the name, " (", the ten-character date and ")". */
  lemma EntryShape(e: Holiday)
    ensures var r := Entry(e);
      && e.1 + " (" <= r && r[|r| - 1] == ')' && |r| == |e.1| + 13
      && r[|e.1| + 2..|r| - 1] == Dmy(Midnight(KeyDate(e)))
  {
    var r := Entry(e);
    assert r[|e.1| + 2..|r| - 1] == Dmy(Midnight(KeyDate(e)));
  }

  /** The entries of `table` inside [lo, hi], in table order. */
  function Filter(table: seq<Holiday>, lo: Date, hi: Date): (r: seq<string>)
  {
    if table == [] then []
    else (if InRange(lo, hi, table[0]) then [Entry(table[0])] else []) + Filter(table[1..], lo, hi)
  }

  lemma {:induction false} FilterAppend(a: seq<Holiday>, b: seq<Holiday>, lo: Date, hi: Date)
    ensures Filter(a + b, lo, hi) == Filter(a, lo, hi) + Filter(b, lo, hi)
  {
    if a != [] {
      var head := if InRange(lo, hi, a[0]) then [Entry(a[0])] else [];
      assert (a + b)[0] == a[0] && (a + b)[1..] == a[1..] + b;
      assert Filter(a + b, lo, hi) == head + Filter(a[1..] + b, lo, hi);
      FilterAppend(a[1..], b, lo, hi);
      assert Filter(a, lo, hi) == head + Filter(a[1..], lo, hi);
    } else {
      assert a + b == b;
    }
  }

  /** A single row is kept exactly when its date lies within the bounds. */
  lemma FilterSingle(e: Holiday, lo: Date, hi: Date)
    ensures Filter([e], lo, hi) == if InRange(lo, hi, e) then [Entry(e)] else []
  {
    assert [e][1..] == [];
  }

  /** Filtering one more row of a prefix appends that row's entry when it is in range. */
  lemma FilterSnoc(table: seq<Holiday>, i: nat, lo: Date, hi: Date)
    requires i < |table|
    ensures Filter(table[..i + 1], lo, hi)
      == Filter(table[..i], lo, hi) + (if InRange(lo, hi, table[i]) then [Entry(table[i])] else [])
  {
    FilterAppend(table[..i], [table[i]], lo, hi);
    FilterSingle(table[i], lo, hi);
    assert table[..i + 1] == table[..i] + [table[i]];
  }

  /** Never more rows than the table has; every row comes from an in-range
      table entry; every in-range entry is present. */
  lemma {:induction false} FilterContents(table: seq<Holiday>, lo: Date, hi: Date)
    ensures |Filter(table, lo, hi)| <= |table|
    ensures forall x :: x in Filter(table, lo, hi) ==> exists e :: e in table && InRange(lo, hi, e) && x == Entry(e)
    ensures forall e :: e in table && InRange(lo, hi, e) ==> Entry(e) in Filter(table, lo, hi)
  {
    if table != [] {
      FilterContents(table[1..], lo, hi);
      assert table == [table[0]] + table[1..];
      forall x | x in Filter(table, lo, hi)
        ensures exists e :: e in table && InRange(lo, hi, e) && x == Entry(e)
      {
        if x !in Filter(table[1..], lo, hi) {
          assert InRange(lo, hi, table[0]) && x == Entry(table[0]);
        } else {
          var e :| e in table[1..] && InRange(lo, hi, e) && x == Entry(e);
          assert e in table;
        }
      }
    }
  }

  /** The date-only bounds `get_holidays_between_dates` uses. */
  function Bounds(start: Instant, end: Instant): (b: (Date, Date))
    ensures DateLessEq(b.0, b.1)
    ensures {b.0, b.1} == {start.ToDate(), end.ToDate()}
  {
    if After(start, end) then (end.ToDate(), start.ToDate()) else (start.ToDate(), end.ToDate())
  }

  /** The pair ("french", "india") `get_holidays_between_dates` returns. */
  function HolidaysBetween(start: Option<Instant>, end: Option<Instant>): (seq<string>, seq<string>)
  {
    if start.None? || end.None? then ([], [])
    else
      var (lo, hi) := Bounds(start.value, end.value);
      (Filter(FrenchHolidays, lo, hi), Filter(IndiaHolidays, lo, hi))
  }

  /** Swapping the arguments changes nothing. */
  lemma HolidaysOrderIndependent(start: Option<Instant>, end: Option<Instant>)
    ensures HolidaysBetween(start, end) == HolidaysBetween(end, start)
  {
    if start.Some? && end.Some? {
      AfterStrictTotal(start.value, end.value);
    }
  }

  /** `get_holidays_between_dates`: two loops appending the in-range entries. */
  method GetHolidaysBetweenDates(start: Option<Instant>, end: Option<Instant>)
    returns (french: seq<string>, india: seq<string>)
    ensures (french, india) == HolidaysBetween(start, end)
    ensures start.None? || end.None? ==> french == [] && india == []
  {
    if start.None? || end.None? {
      return [], [];
    }
    var s, e := start.value, end.value;
    if After(s, e) {
      s, e := e, s;
    }
    french := CollectInRange(FrenchHolidays, s.ToDate(), e.ToDate());
    india := CollectInRange(IndiaHolidays, s.ToDate(), e.ToDate());
  }

  /** One of the two `for date_str, holiday_name in TABLE.items()` loops. */
  method CollectInRange(table: seq<Holiday>, lo: Date, hi: Date) returns (out: seq<string>)
    ensures out == Filter(table, lo, hi)
  {
    out := [];
    var i := 0;
    while i < |table|
      invariant 0 <= i <= |table|
      invariant out == Filter(table[..i], lo, hi)
    {
      var d := KeyDate(table[i]);
      FilterSnoc(table, i, lo, hi);
      if DateLessEq(lo, d) && DateLessEq(d, hi) {
        out := out + [Entry(table[i])];
      }
      i := i + 1;
    }
    assert table[..i] == table;
  }

  const NoHolidays := "No public holidays between the dates."

  /** `format_holidays_for_summary`. */
  function FormatHolidaysForSummary(french: seq<string>, india: seq<string>): (r: string)
  {
    if french == [] && india == [] then NoHolidays
    else
      var parts := (if french != [] then ["French Holidays: " + Join(", ", french)] else [])
                 + (if india != [] then ["India Holidays: " + Join(", ", india)] else []);
      Join("; ", parts)
  }

  /** The fixed message appears exactly for two empty lists; otherwise the
      French section comes first, sections are joined by "; ", an empty one is
      omitted. */
  lemma SummaryShape(french: seq<string>, india: seq<string>)
    ensures FormatHolidaysForSummary(french, india) == NoHolidays <==> french == [] && india == []
    ensures french != [] && india == [] ==>
      FormatHolidaysForSummary(french, india) == "French Holidays: " + Join(", ", french)
    ensures french == [] && india != [] ==>
      FormatHolidaysForSummary(french, india) == "India Holidays: " + Join(", ", india)
    ensures french != [] && india != [] ==>
      FormatHolidaysForSummary(french, india)
        == "French Holidays: " + Join(", ", french) + "; " + "India Holidays: " + Join(", ", india)
  {
    var r := FormatHolidaysForSummary(french, india);
    if french != [] || india != [] {
      var parts := (if french != [] then ["French Holidays: " + Join(", ", french)] else [])
                 + (if india != [] then ["India Holidays: " + Join(", ", india)] else []);
      assert r == Join("; ", parts);
      JoinStartsWithFirst("; ", parts);
      assert parts[0][0] == 'F' || parts[0][0] == 'I';
      assert r[0] == parts[0][0];
      assert NoHolidays[0] == 'N';
      if french != [] && india != [] {
        assert parts[1..] == ["India Holidays: " + Join(", ", india)];
      }
    }
  }
}
