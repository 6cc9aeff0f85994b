// Calendar days: YYYY-MM-DD text, Go instants and durations, and day numbers.
// The grammar is full-date of section 5.6 of RFC 3339, month lengths are its
// section 5.7 and leap years its Appendix C.
module Calendar {
  import opened Common

  datatype Date = Date(year: int, month: int, day: int)

  const MAX_RENTAL_DAYS := 30
  const NANOS_PER_SECOND := 1_000_000_000
  const SECONDS_PER_DAY := 86_400
  // The day number of 1970-01-01, where Unix time starts.
  const UNIX_EPOCH_DAY := 719_528
  const MIN_DURATION: int := -0x8000_0000_0000_0000
  const MAX_DURATION: int := 0x7FFF_FFFF_FFFF_FFFF

  predicate Leap(year: int)
  {
    year % 4 == 0 && (year % 100 != 0 || year % 400 == 0)
  }

  function DaysIn(year: int, month: int): int
  {
    if month == 2 then (if Leap(year) then 29 else 28)
    else if month == 4 || month == 6 || month == 9 || month == 11 then 30
    else 31
  }

  predicate Valid(d: Date)
  {
    0 <= d.year <= 9999 && 1 <= d.month <= 12 && 1 <= d.day <= DaysIn(d.year, d.month)
  }

  /** A calendar day, such as the business zone's today. */
  type Day = d: Date | Valid(d) witness Date(2000, 1, 1)

  // ---------- Text ----------

  predicate IsDigit(c: char) { '0' <= c <= '9' }

  function DigitChar(n: int): char
    requires 0 <= n <= 9
  {
    (n + '0' as int) as char
  }

  function DigitValue(c: char): int
    requires IsDigit(c)
  {
    c as int - '0' as int
  }

  /** time.Format with the layout 2006-01-02. */
  function Format(d: Date): string
    requires Valid(d)
  {
    [ DigitChar(d.year / 1000), DigitChar(d.year / 100 % 10), DigitChar(d.year / 10 % 10), DigitChar(d.year % 10), '-',
      DigitChar(d.month / 10), DigitChar(d.month % 10), '-', DigitChar(d.day / 10), DigitChar(d.day % 10) ]
  }

  /** time.Parse with the layout 2006-01-02: fixed-width fields, the two dashes, nothing
      after them, and a month and a day that exist. */
  function Parse(s: string): Option<Date>
  {
    if |s| == 10 && IsDigit(s[0]) && IsDigit(s[1]) && IsDigit(s[2]) && IsDigit(s[3]) && s[4] == '-'
      && IsDigit(s[5]) && IsDigit(s[6]) && s[7] == '-' && IsDigit(s[8]) && IsDigit(s[9])
    then
      var d := Date(DigitValue(s[0]) * 1000 + DigitValue(s[1]) * 100 + DigitValue(s[2]) * 10 + DigitValue(s[3]),
                    DigitValue(s[5]) * 10 + DigitValue(s[6]), DigitValue(s[8]) * 10 + DigitValue(s[9]));
      if Valid(d) then Some(d) else None
    else None
  }

  /** parseDate: time.Parse, then a check that formatting gives the text back. */
  function ParseDate(s: string): Option<Date>
  {
    match Parse(s)
    case None => None
    case Some(d) => if Valid(d) && Format(d) == s then Some(d) else None
  }

  lemma DivideByTens(y: int)
    ensures y / 100 == y / 10 / 10
    ensures y / 1000 == y / 10 / 10 / 10
  {
    var q := y / 10;
    var p := q / 10;
    var o := p / 10;
    assert y == 10 * q + y % 10 && q == 10 * p + q % 10 && p == 10 * o + p % 10;
    assert y == 100 * p + (10 * (q % 10) + y % 10);
    assert y == 1000 * o + (100 * (p % 10) + 10 * (q % 10) + y % 10);
  }

  /** A year is its four digits, each a digit. */
  lemma YearDigits(y: int)
    requires 0 <= y <= 9999
    ensures y == y / 1000 * 1000 + y / 100 % 10 * 100 + y / 10 % 10 * 10 + y % 10
    ensures 0 <= y / 1000 <= 9
  {
    DivideByTens(y);
    var q := y / 10;
    var p := q / 10;
    assert y == 10 * q + y % 10 && q == 10 * p + q % 10 && p == 10 * (p / 10) + p % 10;
  }

  lemma DigitRoundTrip(n: int)
    requires 0 <= n <= 9
    ensures IsDigit(DigitChar(n)) && DigitValue(DigitChar(n)) == n
  {
  }

  lemma FormatIsParsed(d: Date)
    requires Valid(d)
    ensures ParseDate(Format(d)) == Some(d)
  {
    var Date(y, m, day) := d;
    YearDigits(y);
    assert m == m / 10 * 10 + m % 10 && day == day / 10 * 10 + day % 10;
    DigitRoundTrip(y / 1000);
    DigitRoundTrip(y / 100 % 10);
    DigitRoundTrip(y / 10 % 10);
    DigitRoundTrip(y % 10);
    DigitRoundTrip(m / 10);
    DigitRoundTrip(m % 10);
    DigitRoundTrip(day / 10);
    DigitRoundTrip(day % 10);
    assert Parse(Format(d)) == Some(d);
  }

  lemma DigitsOf(y0: int, y1: int, y2: int, y3: int)
    requires 0 <= y0 <= 9 && 0 <= y1 <= 9 && 0 <= y2 <= 9 && 0 <= y3 <= 9
    ensures var y := y0 * 1000 + y1 * 100 + y2 * 10 + y3;
            y / 1000 == y0 && y / 100 % 10 == y1 && y / 10 % 10 == y2 && y % 10 == y3
  {
    var y := y0 * 1000 + y1 * 100 + y2 * 10 + y3;
    assert y / 10 == y0 * 100 + y1 * 10 + y2;
    assert y / 100 == y0 * 10 + y1;
  }

  lemma ParsedFormatsBack(s: string)
    requires Parse(s).Some?
    ensures Format(Parse(s).value) == s
  {
    var d := Parse(s).value;
    DigitsOf(DigitValue(s[0]), DigitValue(s[1]), DigitValue(s[2]), DigitValue(s[3]));
    DigitsOf(0, 0, DigitValue(s[5]), DigitValue(s[6]));
    DigitsOf(0, 0, DigitValue(s[8]), DigitValue(s[9]));
    assert forall c: char | IsDigit(c) :: DigitChar(DigitValue(c)) == c;
    var f := Format(d);
    assert forall i | 0 <= i < 10 :: f[i] == s[i];
  }

  /** parseDate accepts exactly the formatted dates, formatting gives the text back, and
      its own round-trip check never refuses what time.Parse accepts. */
  lemma ParseDateIsCanonical(s: string)
    ensures ParseDate(s).Some? ==> Valid(ParseDate(s).value) && Format(ParseDate(s).value) == s
    ensures ParseDate(s) == Parse(s)
    ensures ParseDate(s).Some? <==> exists d :: Valid(d) && s == Format(d)
  {
    if Parse(s).Some? {
      ParsedFormatsBack(s);
    }
    forall d | Valid(d) && s == Format(d) ensures ParseDate(s).Some? {
      FormatIsParsed(d);
    }
  }

  // ---------- Day numbers ----------

  /** Days in the years 0 to year - 1. */
  function DaysBeforeYear(year: int): int
  {
    365 * year + (year + 3) / 4 - (year + 99) / 100 + (year + 399) / 400
  }

  function DaysBeforeMonth(year: int, month: int): int
    decreases month
  {
    if month <= 1 then 0 else DaysBeforeMonth(year, month - 1) + DaysIn(year, month - 1)
  }

  /** The number of days from 0000-01-01 to d. */
  function DayNumber(d: Date): int
  {
    DaysBeforeYear(d.year) + DaysBeforeMonth(d.year, d.month) + d.day - 1
  }

  /** The day after d, by the month lengths alone. */
  function NextDay(d: Date): Date
  {
    if d.day < DaysIn(d.year, d.month) then Date(d.year, d.month, d.day + 1)
    else if d.month < 12 then Date(d.year, d.month + 1, 1)
    else Date(d.year + 1, 1, 1)
  }

  lemma EveryFourth(y: int)
    ensures (y + 4) / 4 == (y + 3) / 4 + if y % 4 == 0 then 1 else 0
  {
    assert y == 4 * (y / 4) + y % 4;
  }

  lemma EveryHundredth(y: int)
    ensures (y + 100) / 100 == (y + 99) / 100 + if y % 100 == 0 then 1 else 0
  {
    assert y == 100 * (y / 100) + y % 100;
  }

  lemma EveryFourHundredth(y: int)
    ensures (y + 400) / 400 == (y + 399) / 400 + if y % 400 == 0 then 1 else 0
  {
    assert y == 400 * (y / 400) + y % 400;
  }

  lemma MultipleOfHundred(y: int, z: int)
    requires y == 100 * z
    ensures y % 100 == 0 && y % 4 == 0
  {
    assert y == 4 * (25 * z);
  }

  lemma LeapYears(y: int)
    ensures y % 400 == 0 ==> y % 100 == 0
    ensures y % 100 == 0 ==> y % 4 == 0
  {
    if y % 400 == 0 {
      MultipleOfHundred(y, 4 * (y / 400));
    } else if y % 100 == 0 {
      MultipleOfHundred(y, y / 100);
    }
  }

  lemma MonthSums(year: int)
    ensures DaysBeforeMonth(year, 12) + DaysIn(year, 12) == (if Leap(year) then 366 else 365)
  {
    assert DaysBeforeMonth(year, 4) == DaysIn(year, 2) + 62;
    assert DaysBeforeMonth(year, 7) == DaysIn(year, 2) + 153;
    assert DaysBeforeMonth(year, 10) == DaysIn(year, 2) + 245;
    assert DaysBeforeMonth(year, 12) == DaysIn(year, 2) + 306;
  }

  lemma YearLength(year: int)
    ensures DaysBeforeMonth(year, 12) + DaysIn(year, 12) == (if Leap(year) then 366 else 365)
    ensures DaysBeforeYear(year + 1) == DaysBeforeYear(year) + (if Leap(year) then 366 else 365)
  {
    MonthSums(year);
    EveryFourth(year);
    EveryHundredth(year);
    EveryFourHundredth(year);
    LeapYears(year);
  }

  lemma NextDayIsValid(d: Date)
    requires Valid(d) && d != Date(9999, 12, 31)
    ensures Valid(NextDay(d))
  {
    assert DaysIn(d.year, d.month + 1) >= 28;
  }

  lemma YearEnds(year: int)
    ensures DayNumber(Date(year + 1, 1, 1)) == DayNumber(Date(year, 12, 31)) + 1
  {
    YearLength(year);
  }

  lemma MonthEnds(year: int, month: int)
    requires 1 <= month < 12
    ensures DayNumber(Date(year, month + 1, 1)) == DayNumber(Date(year, month, DaysIn(year, month))) + 1
  {
    assert DaysBeforeMonth(year, month + 1) == DaysBeforeMonth(year, month) + DaysIn(year, month);
  }

  /** The day-number formula counts days: it is 0 on 0000-01-01 and the calendar's own
      next day always has the next number. */
  lemma NextDayIsNextNumber(d: Date)
    requires Valid(d)
    ensures DayNumber(NextDay(d)) == DayNumber(d) + 1
    ensures DayNumber(Date(0, 1, 1)) == 0
    ensures d != Date(9999, 12, 31) ==> Valid(NextDay(d))
  {
    if d != Date(9999, 12, 31) { NextDayIsValid(d); }
    var Date(year, month, day) := d;
    if day < DaysIn(year, month) {
      assert NextDay(d) == Date(year, month, day + 1);
    } else if month < 12 {
      MonthEnds(year, month);
    } else {
      YearEnds(year);
    }
  }

  /** The same number by a formula without month lengths: years begin in March, so that leap
      days come last, and 153 days make five months. */
  function CivilDay(year: int, month: int, day: int): int
  {
    var y := if month <= 2 then year - 1 else year;
    365 * y + y / 4 - y / 100 + y / 400 + (153 * ((month + 9) % 12) + 2) / 5 + day - 1 + 60
  }

  lemma ShiftedYear(y: int)
    ensures (y + 3) / 4 == (y - 1) / 4 + 1 && (y + 99) / 100 == (y - 1) / 100 + 1
    ensures (y + 399) / 400 == (y - 1) / 400 + 1
    ensures DaysBeforeYear(y) == 365 * y + (y - 1) / 4 - (y - 1) / 100 + (y - 1) / 400 + 1
  {
  }

  lemma MonthStarts(year: int, month: int)
    requires 1 <= month <= 12
    ensures month <= 2 ==> DaysBeforeMonth(year, month) == (153 * ((month + 9) % 12) + 2) / 5 - 306
    ensures month > 2 ==>
              DaysBeforeMonth(year, month) == (153 * ((month + 9) % 12) + 2) / 5 + 59 + if Leap(year) then 1 else 0
  {
    assert DaysBeforeMonth(year, 3) == DaysIn(year, 2) + 31;
    assert DaysBeforeMonth(year, 5) == DaysIn(year, 2) + 92;
    assert DaysBeforeMonth(year, 7) == DaysIn(year, 2) + 153;
    assert DaysBeforeMonth(year, 9) == DaysIn(year, 2) + 215;
    assert DaysBeforeMonth(year, 11) == DaysIn(year, 2) + 276;
  }

  lemma LeapShifts(y: int)
    ensures y / 4 - y / 100 + y / 400 == (y - 1) / 4 - (y - 1) / 100 + (y - 1) / 400 + if Leap(y) then 1 else 0
  {
    ShiftedYear(y);
    ShiftedYear(y + 1);
    YearLength(y);
  }

  /** The day number is the formula's, so every month has the length it gives. */
  lemma DayNumberIsCivil(d: Date)
    requires 1 <= d.month <= 12
    ensures DayNumber(d) == CivilDay(d.year, d.month, d.day)
  {
    ShiftedYear(d.year);
    MonthStarts(d.year, d.month);
    LeapShifts(d.year);
  }

  /** The first of the month after. */
  function NextMonth(year: int, month: int): int
  {
    if month < 12 then CivilDay(year, month + 1, 1) else CivilDay(year + 1, 1, 1)
  }

  /** A day of a month exists when it comes before the first of the next month. */
  predicate DayExists(year: int, month: int, day: int)
  {
    0 <= year <= 9999 && 1 <= month <= 12 && 1 <= day && CivilDay(year, month, day) < NextMonth(year, month)
  }

  lemma NextFirst(year: int, month: int)
    requires 1 <= month <= 12
    ensures DayNumber(if month < 12 then Date(year, month + 1, 1) else Date(year + 1, 1, 1))
         == DayNumber(Date(year, month, 1)) + DaysIn(year, month)
  {
    if month < 12 {
      MonthEnds(year, month);
    } else {
      YearEnds(year);
    }
  }

  lemma MonthIsCivil(year: int, month: int)
    requires 1 <= month <= 12
    ensures NextMonth(year, month) == CivilDay(year, month, 1) + DaysIn(year, month)
  {
    NextFirst(year, month);
    DayNumberIsCivil(Date(year, month, 1));
    DayNumberIsCivil(if month < 12 then Date(year, month + 1, 1) else Date(year + 1, 1, 1));
  }

  lemma DaysCountUp(year: int, month: int, day: int)
    ensures CivilDay(year, month, day) == CivilDay(year, month, 1) + day - 1
  {
  }

  lemma EpochDay()
    ensures CivilDay(1970, 1, 1) == 719_528
  {
  }

  /** The valid dates are the days that exist; 1970-01-01 is the instant 0 and a day has
      86,400 seconds. */
  lemma ValidExactly(d: Date)
    ensures Valid(d) <==> DayExists(d.year, d.month, d.day)
    ensures Valid(d) ==> Instant(d) == (CivilDay(d.year, d.month, d.day) - CivilDay(1970, 1, 1)) * 86_400
  {
    if 1 <= d.month <= 12 {
      MonthIsCivil(d.year, d.month);
      DaysCountUp(d.year, d.month, d.day);
    }
    if Valid(d) {
      EpochDay();
      DayNumberIsCivil(d);
    }
  }

  /** The number a text of decimal digits reads as. */
  function Decimal(s: string): int
  {
    if s == [] then 0 else 10 * Decimal(s[..|s| - 1]) + s[|s| - 1] as int - '0' as int
  }

  lemma DecimalAppends(s: string, c: char)
    ensures Decimal(s + [c]) == 10 * Decimal(s) + c as int - '0' as int
  {
    assert (s + [c])[..|s|] == s;
  }

  lemma TwoDigits(a: char, b: char)
    ensures Decimal([a, b]) == (a as int - '0' as int) * 10 + (b as int - '0' as int)
  {
    DecimalAppends([], a);
    DecimalAppends([a], b);
    assert [] + [a] == [a] && [a] + [b] == [a, b];
  }

  lemma FourDigits(a: char, b: char, c: char, d: char)
    ensures Decimal([a, b, c, d]) == (a as int - '0' as int) * 1000 + (b as int - '0' as int) * 100
                                     + (c as int - '0' as int) * 10 + (d as int - '0' as int)
  {
    TwoDigits(a, b);
    DecimalAppends([a, b], c);
    DecimalAppends([a, b, c], d);
    assert [a, b] + [c] == [a, b, c] && [a, b, c] + [d] == [a, b, c, d];
  }

  /** YYYY-MM-DD with decimal digits. */
  predicate IsDateShaped(s: string)
  {
    |s| == 10 && s[4] == '-' && s[7] == '-'
    && forall i | 0 <= i < 10 && i != 4 && i != 7 :: '0' <= s[i] <= '9'
  }

  /** The date the fields of the text read as. */
  function FieldsOf(s: string): Date
    requires |s| == 10
  {
    Date(Decimal(s[..4]), Decimal(s[5..7]), Decimal(s[8..]))
  }

  lemma ParsesFields(s: string)
    requires IsDateShaped(s)
    ensures Parse(s) == if Valid(FieldsOf(s)) then Some(FieldsOf(s)) else None
  {
    assert s[..4] == [s[0], s[1], s[2], s[3]] && s[5..7] == [s[5], s[6]] && s[8..] == [s[8], s[9]];
    FourDigits(s[0], s[1], s[2], s[3]);
    TwoDigits(s[5], s[6]);
    TwoDigits(s[8], s[9]);
  }

  /** parseDate accepts exactly YYYY-MM-DD with a day that exists, and reads its numbers. */
  lemma ParseDateExactly(s: string)
    ensures ParseDate(s).Some? <==>
              IsDateShaped(s) && DayExists(FieldsOf(s).year, FieldsOf(s).month, FieldsOf(s).day)
    ensures ParseDate(s).Some? ==> ParseDate(s).value == FieldsOf(s)
  {
    ParseDateIsCanonical(s);
    if IsDateShaped(s) {
      ParsesFields(s);
      ValidExactly(FieldsOf(s));
    }
  }

  lemma {:induction false} MonthsOrdered(year: int, m: int, n: int)
    requires 1 <= m < n <= 13
    ensures DaysBeforeMonth(year, m) + DaysIn(year, m) <= DaysBeforeMonth(year, n)
    decreases n
  {
    if m + 1 < n {
      MonthsOrdered(year, m, n - 1);
    }
  }

  lemma {:induction false} YearsOrdered(y: int, z: int)
    requires y <= z
    ensures DaysBeforeYear(y) <= DaysBeforeYear(z)
    decreases z - y
  {
    if y < z {
      YearsOrdered(y, z - 1);
      YearLength(z - 1);
    }
  }

  predicate Earlier(a: Date, b: Date)
  {
    a.year < b.year || (a.year == b.year && (a.month < b.month || (a.month == b.month && a.day < b.day)))
  }

  lemma EarlierHasSmallerNumber(a: Date, b: Date)
    requires Valid(a) && Valid(b) && Earlier(a, b)
    ensures DayNumber(a) < DayNumber(b)
  {
    if a.year < b.year {
      YearsOrdered(a.year + 1, b.year);
      YearLength(a.year);
      if a.month < 12 { MonthsOrdered(a.year, a.month, 12); }
      if b.month > 1 { MonthsOrdered(b.year, 1, b.month); }
    } else if a.month < b.month {
      MonthsOrdered(a.year, a.month, b.month);
    }
  }

  /** Day numbers order dates chronologically and tell any two apart. */
  lemma DayNumberOrdersDates(a: Date, b: Date)
    requires Valid(a) && Valid(b)
    ensures Earlier(a, b) <==> DayNumber(a) < DayNumber(b)
    ensures DayNumber(a) == DayNumber(b) ==> a == b
  {
    if Earlier(a, b) {
      EarlierHasSmallerNumber(a, b);
    } else if a != b {
      EarlierHasSmallerNumber(b, a);
    }
  }

  // ---------- Text order ----------

  lemma YearCompare(y: int, z: int)
    requires 0 <= y <= 9999 && 0 <= z <= 9999
    ensures y / 1000 < z / 1000 ==> y < z
    ensures y / 1000 == z / 1000 && y / 100 % 10 < z / 100 % 10 ==> y < z
    ensures y / 1000 == z / 1000 && y / 100 % 10 == z / 100 % 10 && y / 10 % 10 < z / 10 % 10 ==> y < z
    ensures y / 1000 == z / 1000 && y / 100 % 10 == z / 100 % 10 && y / 10 % 10 == z / 10 % 10 && y % 10 < z % 10
        ==> y < z
    ensures y / 1000 == z / 1000 && y / 100 % 10 == z / 100 % 10 && y / 10 % 10 == z / 10 % 10 && y % 10 == z % 10
        ==> y == z
  {
    YearDigits(y);
    YearDigits(z);
  }

  lemma SamePrefix(s: string, t: string, k: nat)
    requires k <= |s| && k <= |t| && s[..k] == t[..k]
    ensures forall i | 0 <= i < k :: s[i] == t[i]
  {
    assert forall i | 0 <= i < k :: s[i] == s[..k][i] && t[i] == t[..k][i];
  }

  lemma SmallerDigitIsEarlier(a: Date, b: Date, k: nat)
    requires Valid(a) && Valid(b)
    requires k < 10 && Format(a)[..k] == Format(b)[..k] && Format(a)[k] < Format(b)[k]
    ensures Earlier(a, b)
  {
    var s, t := Format(a), Format(b);
    YearCompare(a.year, b.year);
    SamePrefix(s, t, k);
    assert k > 0 ==> s[0] == t[0];
    assert k > 1 ==> s[1] == t[1];
    assert k > 2 ==> s[2] == t[2];
    assert k > 3 ==> s[0] == t[0] && s[1] == t[1] && s[2] == t[2] && s[3] == t[3];
    assert k > 3 ==> a.year == b.year;
    assert k > 5 ==> s[5] == t[5];
    assert k > 6 ==> s[5] == t[5] && s[6] == t[6];
    assert k > 6 ==> a.month == b.month;
    assert k > 8 ==> s[8] == t[8];
    assert k < 4 ==> a.year < b.year;
    assert k == 5 ==> a.month / 10 < b.month / 10;
    assert k == 6 ==> a.month / 10 == b.month / 10 && a.month % 10 < b.month % 10;
    assert k == 8 ==> a.day / 10 < b.day / 10;
    assert k == 9 ==> a.day / 10 == b.day / 10 && a.day % 10 < b.day % 10;
  }

  lemma DigitsCompare(a: Date, b: Date, k: nat)
    requires Valid(a) && Valid(b)
    requires k < 10 && Format(a)[..k] == Format(b)[..k] && Format(a)[k] != Format(b)[k]
    ensures Format(a)[k] < Format(b)[k] <==> Earlier(a, b)
  {
    if Format(a)[k] < Format(b)[k] {
      SmallerDigitIsEarlier(a, b, k);
    } else {
      SmallerDigitIsEarlier(b, a, k);
    }
  }

  /** On canonical dates the text order SQL and Go compare by is the order of days. */
  lemma TextOrderIsDayOrder(a: Date, b: Date)
    requires Valid(a) && Valid(b)
    ensures StrLess(Format(a), Format(b)) <==> DayNumber(a) < DayNumber(b)
    ensures StrLe(Format(a), Format(b)) <==> DayNumber(a) <= DayNumber(b)
  {
    DayNumberOrdersDates(a, b);
    FormatIsParsed(a);
    FormatIsParsed(b);
    if a == b {
      NotLessItself(Format(a));
    } else {
      var k := FindDifference(Format(a), Format(b));
      DigitsCompare(a, b, k);
      FirstDifferenceDecides(Format(a), Format(b), k);
    }
  }

  // ---------- Instants and durations ----------

  /** Midnight UTC of d in Unix seconds, the instant time.Parse returns. */
  function Instant(d: Date): int
  {
    (DayNumber(d) - UNIX_EPOCH_DAY) * SECONDS_PER_DAY
  }

  /** int64 wrap-around. */
  function Wrap64(n: int): int
  {
    (n - MIN_DURATION) % 0x1_0000_0000_0000_0000 + MIN_DURATION
  }

  /** time.Time.Sub on whole seconds: multiply in int64, and when adding the product back
      does not give t the true difference overflowed, so saturate. */
  function Sub(t: int, u: int): int
  {
    var d := Wrap64((t - u) * NANOS_PER_SECOND);
    if u * NANOS_PER_SECOND + d == t * NANOS_PER_SECOND then d
    else if t < u then MIN_DURATION
    else MAX_DURATION
  }

  /** end.Sub(start) >= maxRentalDays*24*time.Hour */
  predicate ExceedsRentalCap(start: Date, end: Date)
  {
    Sub(Instant(end), Instant(start)) >= MAX_RENTAL_DAYS * 24 * 3600 * NANOS_PER_SECOND
  }

  /** The duration test refuses exactly the spans longer than 30 inclusive days, also for
      dates centuries apart whose difference does not fit in an int64. */
  lemma CapIsThirtyInclusiveDays(start: Date, end: Date)
    ensures ExceedsRentalCap(start, end) <==> DayNumber(end) - DayNumber(start) + 1 > 30
  {
    var diff := DayNumber(end) - DayNumber(start);
    var nanos := diff * (SECONDS_PER_DAY * NANOS_PER_SECOND);
    assert (Instant(end) - Instant(start)) * NANOS_PER_SECOND == nanos;
    var wide: int := 0x1_0000_0000_0000_0000;
    if MIN_DURATION <= nanos <= MAX_DURATION {
      assert (nanos - MIN_DURATION) % wide == nanos - MIN_DURATION;
      assert Wrap64(nanos) == nanos;
    } else {
      assert MIN_DURATION <= Wrap64(nanos) <= MAX_DURATION;
    }
  }

  /** end.Before(start) on the parsed instants is the order of days. */
  lemma InstantOrderIsDayOrder(a: Date, b: Date)
    ensures Instant(a) < Instant(b) <==> DayNumber(a) < DayNumber(b)
  {
  }
}
