/**
 * The part of Python's `datetime` the notices need: calendar validity, the proleptic
 * Gregorian day number `toordinal()`, `weekday()`, chronological comparison, `strptime`
 * for the formats the extractor tries, and `strftime('%m/%d/%Y')`.
 * A datetime here is a date at midnight, which is what `strptime` produces.
 */
module Dates {
  import opened Wrappers
  import opened Text
  import opened Numerals

  datatype Date = Date(year: int, month: int, day: int)

  predicate IsLeapYear(y: int) {
    y % 4 == 0 && (y % 100 != 0 || y % 400 == 0)
  }

  function DaysInMonth(y: int, m: int): (n: int)
    requires 1 <= m <= 12
    ensures 28 <= n <= 31
    ensures n == 29 <==> m == 2 && IsLeapYear(y)
  {
    if m == 2 then (if IsLeapYear(y) then 29 else 28)
    else if m == 4 || m == 6 || m == 9 || m == 11 then 30
    else 31
  }

  /** A day of the proleptic Gregorian calendar from year 1 on, with no upper bound on the year. */
  predicate WellFormed(d: Date) {
    d.year >= 1 && 1 <= d.month <= 12 && 1 <= d.day <= DaysInMonth(d.year, d.month)
  }

  /** What `datetime(y, m, d)` accepts: `MINYEAR <= y <= MAXYEAR` and a day that exists. */
  predicate IsValid(d: Date) {
    WellFormed(d) && d.year <= 9999
  }

  type CalDate = d: Date | IsValid(d) witness Date(1, 1, 1)

  function DaysInYear(y: int): int {
    if IsLeapYear(y) then 366 else 365
  }

  /** The days of the years before `y`, counted one year at a time. */
  function DaysBeforeYear(y: int): (n: int)
    requires y >= 1
    ensures n >= 365 * (y - 1)
    decreases y
  {
    if y == 1 then 0 else DaysBeforeYear(y - 1) + DaysInYear(y - 1)
  }

  function DaysBeforeMonth(y: int, m: int): int
    requires 1 <= m <= 12
  {
    [0, 31, 59, 90, 120, 151, 181, 212, 243, 273, 304, 334][m - 1]
    + (if m > 2 && IsLeapYear(y) then 1 else 0)
  }

  /** `date.toordinal()`: January 1 of year 1 is day 1. */
  function Ordinal(d: Date): (n: int)
    requires WellFormed(d)
    ensures n >= 1
  {
    DaysBeforeYear(d.year) + DaysBeforeMonth(d.year, d.month) + d.day
  }

  /** `(b - a).days` for two datetimes at midnight. */
  function DaysBetween(a: Date, b: Date): int
    requires WellFormed(a) && WellFormed(b)
  {
    Ordinal(b) - Ordinal(a)
  }

  /** `date.weekday()`: Monday is 0 and Sunday is 6. */
  function Weekday(d: Date): (w: int)
    requires WellFormed(d)
    ensures 0 <= w < 7
  {
    (Ordinal(d) + 6) % 7
  }

  /** `a < b` on datetimes: by year, then month, then day. */
  predicate Before(a: Date, b: Date) {
    a.year < b.year
    || (a.year == b.year && a.month < b.month)
    || (a.year == b.year && a.month == b.month && a.day < b.day)
  }

  /** The following calendar day, defined by the calendar rules alone. */
  function NextDay(d: Date): (n: Date)
    requires WellFormed(d)
    ensures WellFormed(n) && Before(d, n)
  {
    if d.day < DaysInMonth(d.year, d.month) then Date(d.year, d.month, d.day + 1)
    else if d.month < 12 then Date(d.year, d.month + 1, 1)
    else Date(d.year + 1, 1, 1)
  }

  /** The day `n` days after `d`, by stepping through the calendar. */
  function AddDays(d: Date, n: nat): (r: Date)
    requires WellFormed(d)
    ensures WellFormed(r)
    decreases n
  {
    if n == 0 then d else AddDays(NextDay(d), n - 1)
  }

  /** The year count agrees with the closed formula `datetime` itself uses. */
  lemma {:induction false} DaysBeforeYearClosedForm(y: int)
    requires y >= 1
    ensures var p := y - 1; DaysBeforeYear(y) == p * 365 + p / 4 - p / 100 + p / 400
    decreases y
  {
    if y > 1 {
      DaysBeforeYearClosedForm(y - 1);
      var p := y - 1;
      QuotientSteps(p);
      assert DaysInYear(p) == 365 + (if p % 4 == 0 then 1 else 0) - (if p % 100 == 0 then 1 else 0)
                              + (if p % 400 == 0 then 1 else 0);
    }
  }

  /** Going from `p - 1` to `p`, each quotient grows by one exactly at the multiples of its divisor. */
  lemma QuotientSteps(p: int)
    requires p >= 1
    ensures p / 4 == (p - 1) / 4 + (if p % 4 == 0 then 1 else 0)
    ensures p / 100 == (p - 1) / 100 + (if p % 100 == 0 then 1 else 0)
    ensures p / 400 == (p - 1) / 400 + (if p % 400 == 0 then 1 else 0)
    ensures p % 400 == 0 ==> p % 100 == 0
    ensures p % 100 == 0 ==> p % 4 == 0
  {
  }

  lemma {:induction false} DaysBeforeYearMonotone(y: int, z: int)
    requires 1 <= y <= z
    ensures DaysBeforeYear(y) + 365 * (z - y) <= DaysBeforeYear(z)
    decreases z - y
  {
    if y < z {
      DaysBeforeYearMonotone(y, z - 1);
    }
  }

  lemma DaysBeforeMonthStep(y: int, m: int)
    requires 1 <= m < 12
    ensures DaysBeforeMonth(y, m + 1) == DaysBeforeMonth(y, m) + DaysInMonth(y, m)
  {
  }

  /** Every day of a month lies before the first day of any later month of that year. */
  lemma DaysBeforeMonthMonotone(y: int, m: int, n: int)
    requires 1 <= m < n <= 12
    ensures DaysBeforeMonth(y, m) + DaysInMonth(y, m) <= DaysBeforeMonth(y, n)
  {
  }

  /** The last day of a year comes right before the first day of the next. */
  lemma MonthWithinYear(y: int, m: int)
    requires y >= 1 && 1 <= m <= 12
    ensures DaysBeforeMonth(y, m) + DaysInMonth(y, m) <= DaysBeforeYear(y + 1) - DaysBeforeYear(y)
  {
  }

  /** `NextDay` is one day number on, so day numbers count calendar days. */
  lemma OrdinalNextDay(d: Date)
    requires WellFormed(d)
    ensures Ordinal(NextDay(d)) == Ordinal(d) + 1
  {
    if d.day == DaysInMonth(d.year, d.month) {
      if d.month < 12 {
        DaysBeforeMonthStep(d.year, d.month);
      } else {
        assert DaysBeforeYear(d.year + 1) == DaysBeforeYear(d.year) + DaysInYear(d.year);
      }
    }
  }

  /** Stepping `n` days on adds `n` to the day number. */
  lemma {:induction false} OrdinalAddDays(d: Date, n: nat)
    requires WellFormed(d)
    ensures Ordinal(AddDays(d, n)) == Ordinal(d) + n
    decreases n
  {
    if n > 0 {
      OrdinalNextDay(d);
      OrdinalAddDays(NextDay(d), n - 1);
    }
  }

  /** The weekday advances by one from each day to the next. */
  lemma WeekdayNextDay(d: Date)
    requires WellFormed(d)
    ensures Weekday(NextDay(d)) == (Weekday(d) + 1) % 7
  {
    OrdinalNextDay(d);
    SuccessorMod7(Ordinal(d) + 6);
  }

  lemma SuccessorMod7(x: int)
    ensures (x + 1) % 7 == (x % 7 + 1) % 7
  {
  }

  /** Chronological order is day-number order. */
  lemma {:induction false} BeforeIsOrdinalOrder(a: Date, b: Date)
    requires WellFormed(a) && WellFormed(b)
    ensures Before(a, b) <==> Ordinal(a) < Ordinal(b)
  {
    if Before(a, b) {
      BeforeOrdinal(a, b);
    } else if a != b {
      assert Before(b, a);
      BeforeOrdinal(b, a);
    }
  }

  lemma {:induction false} BeforeOrdinal(a: Date, b: Date)
    requires WellFormed(a) && WellFormed(b) && Before(a, b)
    ensures Ordinal(a) < Ordinal(b)
  {
    if a.year < b.year {
      MonthWithinYear(a.year, a.month);
      DaysBeforeYearMonotone(a.year + 1, b.year);
    } else if a.month < b.month {
      DaysBeforeMonthMonotone(a.year, a.month, b.month);
    }
  }

  /** Different days have different day numbers. */
  lemma OrdinalInjective(a: Date, b: Date)
    requires WellFormed(a) && WellFormed(b) && Ordinal(a) == Ordinal(b)
    ensures a == b
  {
    if a != b {
      if Before(a, b) { BeforeOrdinal(a, b); } else { assert Before(b, a); BeforeOrdinal(b, a); }
    }
  }

  // ----- strptime -----

  /**
   * The directives of the extractor's formats. `strptime` compiles a format to a regular
   * expression, with IGNORECASE, and a run of spaces in the format to `\s+`:
   * `%m` is `1[0-2]|0[1-9]|[1-9]`, `%d` is `3[01]|[12]\d|0[1-9]|[1-9]| [1-9]`,
   * `%Y` is four digits and `%y` two, `%B`/`%b` the English month names.
   */
  datatype Directive = MonthNum | DayNum | Year4 | Year2 | MonthName(full: bool) | Lit(c: char) | Blank

  /** The fields a format fills in, starting from `strptime`'s defaults of 1900-01-01. */
  datatype Fields = Fields(year: int, month: int, day: int)

  /** Where a directive's match ends, and the number it read. */
  datatype Scan = Scan(value: int, end: nat)

  const FullMonthNames: seq<string> := ["january", "february", "march", "april", "may", "june",
    "july", "august", "september", "october", "november", "december"]

  const AbbrMonthNames: seq<string> := ["jan", "feb", "mar", "apr", "may", "jun",
    "jul", "aug", "sep", "oct", "nov", "dec"]

  function TwoDigitValue(t: string, i: nat): int
    requires i + 1 < |t| && IsDigit(t[i]) && IsDigit(t[i + 1])
  {
    10 * DigitValue(t[i]) + DigitValue(t[i + 1])
  }

  /** `%m`: the first of its alternatives that matches at `i`. */
  function MonthNumAt(t: string, i: nat): (r: Option<Scan>)
    requires i <= |t|
    ensures r.Some? ==> 1 <= r.value.value <= 12 && i < r.value.end <= i + 2 && r.value.end <= |t|
  {
    if i + 1 < |t| && t[i] == '1' && '0' <= t[i + 1] <= '2' then Some(Scan(TwoDigitValue(t, i), i + 2))
    else if i + 1 < |t| && t[i] == '0' && '1' <= t[i + 1] <= '9' then Some(Scan(TwoDigitValue(t, i), i + 2))
    else if i < |t| && '1' <= t[i] <= '9' then Some(Scan(DigitValue(t[i]), i + 1))
    else None
  }

  /** `%d`: the first of its alternatives that matches at `i`. */
  function DayNumAt(t: string, i: nat): (r: Option<Scan>)
    requires i <= |t|
    ensures r.Some? ==> 1 <= r.value.value <= 31 && i < r.value.end <= i + 2 && r.value.end <= |t|
  {
    if i + 1 < |t| && t[i] == '3' && '0' <= t[i + 1] <= '1' then Some(Scan(TwoDigitValue(t, i), i + 2))
    else if i + 1 < |t| && '1' <= t[i] <= '2' && IsDigit(t[i + 1]) then Some(Scan(TwoDigitValue(t, i), i + 2))
    else if i + 1 < |t| && t[i] == '0' && '1' <= t[i + 1] <= '9' then Some(Scan(TwoDigitValue(t, i), i + 2))
    else if i < |t| && '1' <= t[i] <= '9' then Some(Scan(DigitValue(t[i]), i + 1))
    else if i + 1 < |t| && t[i] == ' ' && '1' <= t[i + 1] <= '9' then Some(Scan(DigitValue(t[i + 1]), i + 2))
    else None
  }

  /** `n` decimal digits at `i`. */
  function FixedDigitsAt(t: string, i: nat, n: nat): (r: Option<Scan>)
    requires i <= |t|
    ensures r.Some? ==> r.value.end == i + n <= |t|
  {
    if i + n <= |t| && AllDigits(t[i..i + n]) then Some(Scan(DigitsValue(t[i..i + n]), i + n))
    else None
  }

  /**
   * `%B`/`%b`: a month name at `i`, ignoring case. No name is a prefix of another, so at most
   * one matches and the order in which the compiled alternation tries them does not matter.
   */
  function MonthNameAt(t: string, i: nat, names: seq<string>, k: nat): (r: Option<Scan>)
    requires i <= |t| && k <= |names|
    ensures r.Some? ==> k + 1 <= r.value.value <= |names| && i <= r.value.end <= |t|
    decreases |names| - k, |t|
  {
    if k == |names| then None
    else if WordAt(t, i, names[k]) then Some(Scan(k + 1, i + |names[k]|))
    else MonthNameAt(t, i, names, k + 1)
  }

  /** One directive at `i`: the fields it sets and where it ends. */
  function DirectiveAt(dir: Directive, t: string, i: nat, f: Fields): (r: Option<(Fields, nat)>)
    requires i <= |t|
    ensures r.Some? ==> i <= r.value.1 <= |t|
  {
    match dir
    case MonthNum =>
      (match MonthNumAt(t, i) case Some(s) => Some((f.(month := s.value), s.end)) case None => None)
    case DayNum =>
      (match DayNumAt(t, i) case Some(s) => Some((f.(day := s.value), s.end)) case None => None)
    case Year4 =>
      (match FixedDigitsAt(t, i, 4) case Some(s) => Some((f.(year := s.value), s.end)) case None => None)
    case Year2 =>
      // `%y`: 00-68 are 2000-2068 and 69-99 are 1969-1999.
      (match FixedDigitsAt(t, i, 2)
       case Some(s) => Some((f.(year := if s.value <= 68 then 2000 + s.value else 1900 + s.value), s.end))
       case None => None)
    case MonthName(full) =>
      (match MonthNameAt(t, i, if full then FullMonthNames else AbbrMonthNames, 0)
       case Some(s) => Some((f.(month := s.value), s.end)) case None => None)
    case Lit(c) =>
      if i < |t| && t[i] == c then Some((f, i + 1)) else None
    case Blank =>
      if i < |t| && IsSpace(t[i]) then Some((f, SkipSpaces(t, i))) else None
  }

  /**
   * The compiled format matched from `i`. Each directive is followed by a literal, a blank or
   * the end of the format, none of which can start where a shorter alternative of the
   * directive would stop, so the first alternatives the regex engine tries are the only ones
   * that can lead to a match.
   */
  function FormatAt(fmt: seq<Directive>, t: string, i: nat, f: Fields): (r: Option<(Fields, nat)>)
    requires i <= |t|
    ensures r.Some? ==> i <= r.value.1 <= |t|
    decreases |fmt|, |t|
  {
    if fmt == [] then Some((f, i))
    else
      match DirectiveAt(fmt[0], t, i, f)
      case None => None
      case Some(step) => FormatAt(fmt[1..], t, step.1, step.0)
  }

  /**
   * `datetime.strptime(t, fmt)`: the format must match at the start and use up the whole
   * string, and the fields must name a real calendar day; otherwise `ValueError`, here `None`.
   */
  function Strptime(t: string, fmt: seq<Directive>): (r: Option<CalDate>)
    ensures r.Some? ==> FormatAt(fmt, t, 0, Fields(1900, 1, 1)).Some?
  {
    match FormatAt(fmt, t, 0, Fields(1900, 1, 1))
    case None => None
    case Some(res) =>
      var d := Date(res.0.year, res.0.month, res.0.day);
      if res.1 == |t| && IsValid(d) then Some(d) else None
  }

  /** `%m/%d/%Y`. */
  const SlashMDY: seq<Directive> := [MonthNum, Lit('/'), DayNum, Lit('/'), Year4]

  /** `d.strftime('%m/%d/%Y')`; the year is written as its decimal digits. */
  function FormatMDY(d: CalDate): (s: string)
    ensures d.year >= 1000 ==> |s| == 10 && s[2] == '/' && s[5] == '/'
  {
    NatToStringLength4(d.year);
    TwoDigits(d.month) + "/" + TwoDigits(d.day) + "/" + NatToString(d.year)
  }

  lemma {:induction false} NatToStringLength4(n: nat)
    ensures 1000 <= n <= 9999 ==> |NatToString(n)| == 4
  {
    if 1000 <= n <= 9999 {
      assert |NatToString(n / 10)| == 3 by {
        assert |NatToString(n / 100)| == 2 by {
          assert |NatToString(n / 1000)| == 1;
        }
      }
    }
  }

  /** `%m` reads back a month written with two digits. */
  lemma MonthNumTwoDigits(t: string, i: nat, m: int)
    requires 1 <= m <= 12 && i + 2 <= |t| && t[i..i + 2] == TwoDigits(m)
    ensures MonthNumAt(t, i) == Some(Scan(m, i + 2))
  {
    assert t[i] == t[i..i + 2][0] && t[i + 1] == t[i..i + 2][1];
  }

  /** `%d` reads back a day written with two digits. */
  lemma DayNumTwoDigits(t: string, i: nat, d: int)
    requires 1 <= d <= 31 && i + 2 <= |t| && t[i..i + 2] == TwoDigits(d)
    ensures DayNumAt(t, i) == Some(Scan(d, i + 2))
  {
    assert t[i] == t[i..i + 2][0] && t[i + 1] == t[i..i + 2][1];
  }

  /** What `strftime('%m/%d/%Y')` writes, `strptime` with the same format reads back. */
  lemma FormatMDYRoundTrip(d: CalDate)
    requires d.year >= 1000
    ensures Strptime(FormatMDY(d), SlashMDY) == Some(d)
  {
    var s := FormatMDY(d);
    NatToStringLength4(d.year);
    NatToStringRoundTrip(d.year);
    assert s[0..2] == TwoDigits(d.month);
    assert s[3..5] == TwoDigits(d.day);
    assert s[6..10] == NatToString(d.year);
    MonthNumTwoDigits(s, 0, d.month);
    DayNumTwoDigits(s, 3, d.day);
    var f0 := Fields(1900, 1, 1);
    var f1 := f0.(month := d.month);
    var f2 := f1.(day := d.day);
    var f3 := f2.(year := d.year);
    assert DirectiveAt(MonthNum, s, 0, f0) == Some((f1, 2));
    assert DirectiveAt(Lit('/'), s, 2, f1) == Some((f1, 3));
    assert DirectiveAt(DayNum, s, 3, f1) == Some((f2, 5));
    assert DirectiveAt(Lit('/'), s, 5, f2) == Some((f2, 6));
    assert DirectiveAt(Year4, s, 6, f2) == Some((f3, 10));
    assert FormatAt([], s, 10, f3) == Some((f3, 10));
    assert SlashMDY[4..] == [Year4] && SlashMDY[3..][1..] == SlashMDY[4..];
    assert FormatAt(SlashMDY[4..], s, 6, f2) == Some((f3, 10));
    assert FormatAt(SlashMDY[3..], s, 5, f2) == Some((f3, 10));
    assert FormatAt(SlashMDY[2..], s, 3, f1) == Some((f3, 10));
    assert FormatAt(SlashMDY[1..], s, 2, f1) == Some((f3, 10));
    assert FormatAt(SlashMDY, s, 0, f0) == Some((f3, 10));
  }

  // ----- chronological order of a list of dates -----

  /** Each date strictly before the next, as `list.sort()` leaves distinct datetimes. */
  predicate Increasing(s: seq<CalDate>) {
    forall i, j :: 0 <= i < j < |s| ==> Before(s[i], s[j])
  }

  predicate Distinct(s: seq<CalDate>) {
    forall i, j :: 0 <= i < j < |s| ==> s[i] != s[j]
  }

  /** `d` put in front of the first date of `s` that is not before it. */
  function InsertDate(d: CalDate, s: seq<CalDate>): (r: seq<CalDate>)
    ensures multiset(r) == multiset(s) + multiset{d}
  {
    if s == [] || !Before(s[0], d) then [d] + s
    else
      assert s == [s[0]] + s[1..];
      [s[0]] + InsertDate(d, s[1..])
  }

  /** `list.sort()` on datetimes: the same dates, in chronological order. */
  function SortDates(s: seq<CalDate>): (r: seq<CalDate>)
    ensures multiset(r) == multiset(s)
    ensures |r| == |s|
  {
    if s == [] then []
    else
      assert s == [s[0]] + s[1..];
      InsertDate(s[0], SortDates(s[1..]))
  }

  lemma {:induction false} InsertDateIncreasing(d: CalDate, s: seq<CalDate>)
    requires Increasing(s) && d !in s
    ensures Increasing(InsertDate(d, s))
  {
    if s != [] && Before(s[0], d) {
      var tail := InsertDate(d, s[1..]);
      assert d !in s[1..];
      InsertDateIncreasing(d, s[1..]);
      forall j | 0 <= j < |tail| ensures Before(s[0], tail[j]) {
        assert tail[j] in multiset(tail);
        assert tail[j] in multiset(s[1..]) || tail[j] == d;
      }
    }
  }

  /** Sorting distinct dates leaves them strictly increasing. */
  lemma {:induction false} SortDatesIncreasing(s: seq<CalDate>)
    requires Distinct(s)
    ensures Increasing(SortDates(s))
  {
    if s != [] {
      SortDatesIncreasing(s[1..]);
      assert s[0] !in multiset(s[1..]);
      assert s[0] !in multiset(SortDates(s[1..]));
      InsertDateIncreasing(s[0], SortDates(s[1..]));
    }
  }
}
