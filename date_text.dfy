/**
 * Calendar dates as JavaScript's Date holds them (local time, proleptic Gregorian calendar), the
 * `new Date(year, month, day)` constructor with its roll-over of out-of-range parts, and the
 * MM/DD/YYYY text form the onboarding and settings screens write and read back.
 */
module DateText {
  import opened Wrappers
  import opened JsText

  /** A Date: invalid (NaN time value) or a calendar day with a 0-based month. */
  datatype JsDate = InvalidDate | Date(year: int, month: int, day: int)

  predicate IsLeap(y: int) {
    y % 4 == 0 && (y % 100 != 0 || y % 400 == 0)
  }

  /** The number of days of the 0-based month m of year y. */
  function DaysInMonth(y: int, m: int): (n: int)
    requires 0 <= m < 12
    ensures 28 <= n <= 31
    ensures n == 29 <==> m == 1 && IsLeap(y)
  {
    if m == 1 then (if IsLeap(y) then 29 else 28)
    else if m == 3 || m == 5 || m == 8 || m == 10 then 30
    else 31
  }

  /** A day that exists in the calendar. */
  predicate ValidDate(y: int, m: int, d: int) {
    0 <= m < 12 && 1 <= d <= DaysInMonth(y, m)
  }

  /**
   * The calendar day that day d of month m of year y denotes when d may lie outside the month:
   * days below 1 roll back into the previous months, days past the end into the next ones.
   */
  function Normalize(y: int, m: int, d: int): (r: JsDate)
    requires 0 <= m < 12
    ensures r.Date? && ValidDate(r.year, r.month, r.day)
    ensures ValidDate(y, m, d) ==> r == Date(y, m, d)
    decreases if d < 1 then 1 - d else 0, d
  {
    if d < 1 then
      var py := if m == 0 then y - 1 else y;
      var pm := if m == 0 then 11 else m - 1;
      Normalize(py, pm, d + DaysInMonth(py, pm))
    else if d > DaysInMonth(y, m) then
      var ny := if m == 11 then y + 1 else y;
      var nm := if m == 11 then 0 else m + 1;
      Normalize(ny, nm, d - DaysInMonth(y, m))
    else Date(y, m, d)
  }

  /** The year the constructor uses: 0 to 99 mean 1900 to 1999. */
  function FullYear(y: int): (r: int)
    ensures 0 <= y <= 99 ==> r == 1900 + y
    ensures !(0 <= y <= 99) ==> r == y
  {
    if 0 <= y <= 99 then 1900 + y else y
  }

  /**
   * `new Date(year, month, day)`: any NaN part gives an invalid date; months outside 0..11 move
   * whole years, then the day rolls over within the calendar.
   */
  function NewDate(y: Option<int>, m: Option<int>, d: Option<int>): (r: JsDate)
    ensures r.InvalidDate? <==> y.None? || m.None? || d.None?
    ensures r.Date? ==> ValidDate(r.year, r.month, r.day)
    ensures y.Some? && m.Some? && d.Some? && !(0 <= y.value <= 99) && ValidDate(y.value, m.value, d.value) ==>
              r == Date(y.value, m.value, d.value)
  {
    if y.None? || m.None? || d.None? then InvalidDate
    else Normalize(FullYear(y.value) + m.value / 12, m.value % 12, d.value)
  }

  /** `parseInt(x) - 1`, where NaN stays NaN. */
  function MinusOne(v: Option<int>): (r: Option<int>)
    ensures r.Some? <==> v.Some?
    ensures r.Some? ==> r.value == v.value - 1
  {
    match v
    case None => None
    case Some(n) => Some(n - 1)
  }

  /**
   * `${String(getMonth() + 1).padStart(2, "0")}/${String(getDate()).padStart(2, "0")}/${getFullYear()}`;
   * every getter of an invalid date gives NaN.
   */
  function FormatMDY(date: JsDate): (r: string)
    ensures date.InvalidDate? ==> r == "NaN/NaN/NaN"
  {
    match date
    case InvalidDate => "NaN/NaN/NaN"
    case Date(y, m, d) => PadStart2(IntToString(m + 1)) + "/" + PadStart2(IntToString(d)) + "/" + IntToString(y)
  }

  /**
   * The birthday screen's reading of a stored birth date: only a text of exactly three
   * '/'-separated parts is read, as month, day and year with parseInt(_, 10).
   */
  function ParseBirthDate(s: string): (r: Option<JsDate>)
    ensures r.Some? <==> |Split(s, '/')| == 3
  {
    var parts := Split(s, '/');
    if |parts| != 3 then None
    else Some(NewDate(ParseInt(parts[2]), MinusOne(ParseInt(parts[0])), ParseInt(parts[1])))
  }

  /** The i-th element of a destructured array, read with the radix-less parseInt; a missing one is NaN. */
  function PartAt(parts: seq<string>, i: nat): Option<int> {
    if i < |parts| then ParseIntAutoRadix(parts[i]) else None
  }

  /**
   * The account screen's reading of a stored birth date: `const [month, day, year] = s.split('/')`
   * and the radix-less parseInt, so missing parts give an invalid date and extra parts are ignored.
   */
  function ParseAccountBirthDate(s: string): (r: JsDate)
    ensures |Split(s, '/')| < 3 ==> r.InvalidDate?
  {
    var parts := Split(s, '/');
    NewDate(PartAt(parts, 2), MinusOne(PartAt(parts, 0)), PartAt(parts, 1))
  }

  /** A printed natural number, padded or not, holds no '/'. */
  lemma PrintedHasNoSlash(n: nat)
    ensures '/' !in NatToString(n) && '/' !in PadStart2(NatToString(n))
  {
    DigitsHaveNoSlash(NatToString(n));
    PaddedDigits(NatToString(n));
    DigitsHaveNoSlash(PadStart2(NatToString(n)));
  }

  /** The formatted text of a date with non-negative parts, written with the natural-number printer. */
  lemma FormatMDYText(y: int, m: int, d: int)
    requires y >= 0 && m >= 0 && d >= 0
    ensures FormatMDY(Date(y, m, d)) ==
              PadStart2(NatToString(m + 1)) + ['/'] + PadStart2(NatToString(d)) + ['/'] + NatToString(y)
  {
    assert IntToString(m + 1) == NatToString(m + 1);
    assert IntToString(d) == NatToString(d);
    assert IntToString(y) == NatToString(y);
  }

  /** The three parts of a formatted valid date: two-digit month and day, and the year's digits. */
  lemma FormattedParts(y: int, m: int, d: int)
    requires ValidDate(y, m, d) && y >= 0
    ensures Split(FormatMDY(Date(y, m, d)), '/') ==
              [PadStart2(NatToString(m + 1)), PadStart2(NatToString(d)), NatToString(y)]
  {
    PrintedHasNoSlash(m + 1);
    PrintedHasNoSlash(d);
    PrintedHasNoSlash(y);
    FormatMDYText(y, m, d);
    SplitThree(PadStart2(NatToString(m + 1)), PadStart2(NatToString(d)), NatToString(y), '/');
  }

  /** A text that splits into three parts is read as a date built from those parts' integers. */
  lemma ParseOfThreeParts(s: string, a: string, b: string, c: string)
    requires Split(s, '/') == [a, b, c]
    ensures ParseBirthDate(s) == Some(NewDate(ParseInt(c), MinusOne(ParseInt(a)), ParseInt(b)))
  {
  }

  /** The birthday screen's reading of a formatted date hands the date's own parts to the constructor. */
  lemma ParsedParts(y: int, m: int, d: int)
    requires ValidDate(y, m, d) && y >= 0
    ensures ParseBirthDate(FormatMDY(Date(y, m, d))) == Some(NewDate(Some(y), Some(m), Some(d)))
  {
    FormattedParts(y, m, d);
    ParseOfThreeParts(FormatMDY(Date(y, m, d)), PadStart2(NatToString(m + 1)), PadStart2(NatToString(d)), NatToString(y));
    ParseIntPadded(m + 1);
    ParseIntPadded(d);
    ParseIntNatToString(y);
  }

  /** Reading back what formatDate wrote gives the same day, for every valid date from year 100 on. */
  lemma BirthDateRoundTrip(y: int, m: int, d: int)
    requires ValidDate(y, m, d) && y >= 100
    ensures ParseBirthDate(FormatMDY(Date(y, m, d))) == Some(Date(y, m, d))
  {
    ParsedParts(y, m, d);
  }

  /** A two-digit year does not survive the round trip: year y in 0..99 comes back as 1900 + y. */
  lemma TwoDigitYearShifts(y: int, m: int, d: int)
    requires ValidDate(y, m, d) && ValidDate(1900 + y, m, d) && 0 <= y <= 99
    ensures ParseBirthDate(FormatMDY(Date(y, m, d))) == Some(Date(1900 + y, m, d))
  {
    ParsedParts(y, m, d);
    NewDateOfTwoDigitYear(y, m, d);
  }

  /** `new Date(y, m, d)` with y in 0..99 builds the day in year 1900 + y. */
  lemma NewDateOfTwoDigitYear(y: int, m: int, d: int)
    requires ValidDate(1900 + y, m, d) && 0 <= y <= 99
    ensures NewDate(Some(y), Some(m), Some(d)) == Date(1900 + y, m, d)
  {
    assert FullYear(y) + m / 12 == 1900 + y && m % 12 == m;
  }

  /** The account screen reads back what its formatDate wrote, for every valid date from year 100 on. */
  lemma AccountBirthDateRoundTrip(y: int, m: int, d: int)
    requires ValidDate(y, m, d) && y >= 100
    ensures ParseAccountBirthDate(FormatMDY(Date(y, m, d))) == Date(y, m, d)
  {
    var s := FormatMDY(Date(y, m, d));
    var parts := [PadStart2(NatToString(m + 1)), PadStart2(NatToString(d)), NatToString(y)];
    assert Split(s, '/') == parts by {
      FormattedParts(y, m, d);
    }
    var pm := PartAt(parts, 0);
    var pd := PartAt(parts, 1);
    var py := PartAt(parts, 2);
    assert ParseAccountBirthDate(s) == NewDate(py, MinusOne(pm), pd);
    assert pm == Some(m + 1) by {
      AutoRadixPadded(m + 1);
    }
    assert pd == Some(d) by {
      AutoRadixPadded(d);
    }
    assert py == Some(y) by {
      AutoRadixNatToString(y);
    }
  }
}
