/**
 * The part of Python's datetime library that the billing service relies on:
 *   - datetime.strptime(value, "%Y-%m-%d")           (ParseDate)
 *   - datetime.strptime(value, "%Y-%m-%d %H:%M:%S")  (ParseDateTime)
 *   - strftime("%Y-%m-%d %H:%M:%S") and isoformat(" ") (FormatDateTime)
 *
 * CPython's strptime compiles each directive to a regular expression
 *   %Y  \d\d\d\d          %m  1[0-2]|0[1-9]|[1-9]
 *   %d  3[01]|[12]\d|0[1-9]|[1-9]| [1-9]
 *   %H  2[0-3]|[0-1]\d|\d %M  [0-5]\d|\d          %S  6[01]|[0-5]\d|\d
 * turns a space of the format into \s+, matches from the start of the
 * string and refuses unconverted trailing text. It then builds a date
 * (for the julian day), which refuses year 0 and a day the month does not
 * have, and finally the datetime constructor refuses second 60 or 61;
 * each refusal is the same ValueError. Every field but the last is
 * followed by a literal separator that no alternative of that field can
 * consume, so each field is the text up to its separator and the
 * alternation reduces to the *Field functions below. The one exception is
 * %d in the second format, which is followed by \s+ rather than a
 * literal and whose " [1-9]" alternative itself starts with a space;
 * DayAndClock handles it.
 */
module Dates {
  import opened Wrappers

  datatype Date = Date(year: int, month: int, day: int)

  datatype DateTime = DateTime(date: Date, hour: int, minute: int, second: int)

  function Midnight(d: Date): DateTime {
    DateTime(d, 0, 0, 0)
  }

  // ---------------------------------------------------------------------
  // The proleptic Gregorian calendar of datetime (MINYEAR 1, MAXYEAR 9999)
  // ---------------------------------------------------------------------

  predicate IsLeapYear(year: int) {
    year % 4 == 0 && (year % 100 != 0 || year % 400 == 0)
  }

  function DaysInMonth(year: int, month: int): int
    requires 1 <= month <= 12
  {
    if month == 2 then (if IsLeapYear(year) then 29 else 28)
    else if month == 4 || month == 6 || month == 9 || month == 11 then 30
    else 31
  }

  predicate ValidDate(d: Date) {
    1 <= d.year <= 9999 && 1 <= d.month <= 12 && 1 <= d.day <= DaysInMonth(d.year, d.month)
  }

  predicate ValidDateTime(t: DateTime) {
    ValidDate(t.date) && 0 <= t.hour <= 23 && 0 <= t.minute <= 59 && 0 <= t.second <= 59
  }

  // ---------------------------------------------------------------------
  // Characters
  // ---------------------------------------------------------------------

  predicate IsDigit(c: char) {
    '0' <= c <= '9'
  }

  function DigitValue(c: char): int
    requires IsDigit(c)
  {
    c as int - '0' as int
  }

  function DigitChar(n: int): char
    requires 0 <= n <= 9
  {
    ('0' as int + n) as char
  }

  /** The characters Python's str.isspace accepts, which is what \s matches in a str pattern. */
  predicate IsSpace(c: char) {
    var n := c as int;
    (9 <= n <= 13) || (28 <= n <= 32) || n == 0x85 || n == 0xA0 || n == 0x1680
    || (0x2000 <= n <= 0x200A) || n == 0x2028 || n == 0x2029 || n == 0x202F
    || n == 0x205F || n == 0x3000
  }

  // ---------------------------------------------------------------------
  // Scanning helpers
  // ---------------------------------------------------------------------

  /** Index of the first c in s, or |s| when there is none. */
  function Find(s: string, c: char): (k: int)
    ensures 0 <= k <= |s|
    ensures k < |s| ==> s[k] == c
    ensures forall i :: 0 <= i < k ==> s[i] != c
  {
    if |s| == 0 then 0 else if s[0] == c then 0 else 1 + Find(s[1..], c)
  }

  /** Length of the longest prefix of s made of digits. */
  function DigitRun(s: string): (k: int)
    ensures 0 <= k <= |s|
    ensures k < |s| ==> !IsDigit(s[k])
    ensures forall i :: 0 <= i < k ==> IsDigit(s[i])
  {
    if |s| == 0 || !IsDigit(s[0]) then 0 else 1 + DigitRun(s[1..])
  }

  /** Length of the longest prefix of s made of whitespace: what a greedy \s+ consumes. */
  function SpaceRun(s: string): (k: int)
    ensures 0 <= k <= |s|
    ensures k < |s| ==> !IsSpace(s[k])
    ensures forall i :: 0 <= i < k ==> IsSpace(s[i])
  {
    if |s| == 0 || !IsSpace(s[0]) then 0 else 1 + SpaceRun(s[1..])
  }

  lemma FindIs(s: string, c: char, k: int)
    requires 0 <= k < |s| && s[k] == c
    requires forall i :: 0 <= i < k ==> s[i] != c
    ensures Find(s, c) == k
  {
  }

  lemma DigitRunIs(s: string, k: int)
    requires 0 <= k <= |s|
    requires k < |s| ==> !IsDigit(s[k])
    requires forall i :: 0 <= i < k ==> IsDigit(s[i])
    ensures DigitRun(s) == k
  {
  }

  lemma SpaceRunIs(s: string, k: int)
    requires 0 <= k <= |s|
    requires k < |s| ==> !IsSpace(s[k])
    requires forall i :: 0 <= i < k ==> IsSpace(s[i])
    ensures SpaceRun(s) == k
  {
  }

  // ---------------------------------------------------------------------
  // Fields: one function per strptime directive, on the field's text
  // ---------------------------------------------------------------------

  function TwoDigitValue(t: string): int
    requires |t| == 2 && IsDigit(t[0]) && IsDigit(t[1])
  {
    10 * DigitValue(t[0]) + DigitValue(t[1])
  }

  /** %Y: exactly four digits. */
  function YearField(t: string): Option<int> {
    if |t| == 4 && IsDigit(t[0]) && IsDigit(t[1]) && IsDigit(t[2]) && IsDigit(t[3])
    then Some(1000 * DigitValue(t[0]) + 100 * DigitValue(t[1]) + 10 * DigitValue(t[2]) + DigitValue(t[3]))
    else None
  }

  /** %m: 1[0-2] | 0[1-9] | [1-9] */
  function MonthField(t: string): Option<int> {
    if |t| == 2 && t[0] == '1' && '0' <= t[1] <= '2' then Some(TwoDigitValue(t))
    else if |t| == 2 && t[0] == '0' && '1' <= t[1] <= '9' then Some(TwoDigitValue(t))
    else if |t| == 1 && '1' <= t[0] <= '9' then Some(DigitValue(t[0]))
    else None
  }

  /** %d: 3[01] | [12]\d | 0[1-9] | [1-9] | ' '[1-9] */
  function DayField(t: string): Option<int> {
    if |t| == 2 && t[0] == '3' && '0' <= t[1] <= '1' then Some(TwoDigitValue(t))
    else if |t| == 2 && '1' <= t[0] <= '2' && IsDigit(t[1]) then Some(TwoDigitValue(t))
    else if |t| == 2 && t[0] == '0' && '1' <= t[1] <= '9' then Some(TwoDigitValue(t))
    else if |t| == 1 && '1' <= t[0] <= '9' then Some(DigitValue(t[0]))
    else if |t| == 2 && t[0] == ' ' && '1' <= t[1] <= '9' then Some(DigitValue(t[1]))
    else None
  }

  /** %H: 2[0-3] | [0-1]\d | \d */
  function HourField(t: string): Option<int> {
    if |t| == 2 && t[0] == '2' && '0' <= t[1] <= '3' then Some(TwoDigitValue(t))
    else if |t| == 2 && '0' <= t[0] <= '1' && IsDigit(t[1]) then Some(TwoDigitValue(t))
    else if |t| == 1 && IsDigit(t[0]) then Some(DigitValue(t[0]))
    else None
  }

  /** %M: [0-5]\d | \d */
  function MinuteField(t: string): Option<int> {
    if |t| == 2 && '0' <= t[0] <= '5' && IsDigit(t[1]) then Some(TwoDigitValue(t))
    else if |t| == 1 && IsDigit(t[0]) then Some(DigitValue(t[0]))
    else None
  }

  /** %S: 6[01] | [0-5]\d | \d  (60 and 61 pass the pattern; the datetime constructor refuses them) */
  function SecondField(t: string): Option<int> {
    if |t| == 2 && t[0] == '6' && '0' <= t[1] <= '1' then Some(TwoDigitValue(t))
    else if |t| == 2 && '0' <= t[0] <= '5' && IsDigit(t[1]) then Some(TwoDigitValue(t))
    else if |t| == 1 && IsDigit(t[0]) then Some(DigitValue(t[0]))
    else None
  }

  // ---------------------------------------------------------------------
  // strptime
  // ---------------------------------------------------------------------

  /** The "%Y-%m-" prefix both formats share: year, month, and the text after the second '-'. */
  function YearMonthPrefix(s: string): Option<(int, int, string)> {
    if |s| < 5 || s[4] != '-' then None
    else
      var rest := s[5..];
      var k := Find(rest, '-');
      if k == |rest| then None
      else
        match (YearField(s[..4]), MonthField(rest[..k]))
        case (Some(y), Some(m)) => Some((y, m, rest[k + 1..]))
        case _ => None
  }

  /** datetime.strptime(s, "%Y-%m-%d"); None stands for the ValueError it raises. */
  function ParseDate(s: string): (r: Option<Date>)
    ensures r.Some? ==> ValidDate(r.value)
  {
    match YearMonthPrefix(s)
    case None => None
    case Some((y, m, tail)) =>
      match DayField(tail)
      case None => None
      case Some(d) => if ValidDate(Date(y, m, d)) then Some(Date(y, m, d)) else None
  }

  /** The "%H:%M:%S" part: hour, minute and second, each field the text up to its ':'. */
  function ClockFields(clock: string): Option<(int, int, int)> {
    var i := Find(clock, ':');
    if i == |clock| then None
    else
      var minSec := clock[i + 1..];
      var j := Find(minSec, ':');
      if j == |minSec| then None
      else
        match (HourField(clock[..i]), MinuteField(minSec[..j]), SecondField(minSec[j + 1..]))
        case (Some(hh), Some(mm), Some(ss)) => Some((hh, mm, ss))
        case _ => None
  }

  /** The "%d %H:%M:%S" part. The day is followed by \s+, so it is " d" when it starts with a
      space and otherwise its run of digits; the greedy \s+ takes every space before the hour. */
  function DayAndClock(tail: string): Option<(int, (int, int, int))> {
    var dayLength := if |tail| > 0 && tail[0] == ' ' then 2 else DigitRun(tail);
    if |tail| < dayLength then None
    else
      var afterDay := tail[dayLength..];
      var spaces := SpaceRun(afterDay);
      if spaces == 0 then None
      else
        match (DayField(tail[..dayLength]), ClockFields(afterDay[spaces..]))
        case (Some(d), Some(clock)) => Some((d, clock))
        case _ => None
  }

  /** datetime.strptime(s, "%Y-%m-%d %H:%M:%S"); None stands for the ValueError it raises. */
  function ParseDateTime(s: string): (r: Option<DateTime>)
    ensures r.Some? ==> ValidDateTime(r.value)
  {
    match YearMonthPrefix(s)
    case None => None
    case Some((y, m, tail)) =>
      match DayAndClock(tail)
      case None => None
      case Some((d, (hh, mm, ss))) =>
        var t := DateTime(Date(y, m, d), hh, mm, ss);
        if ValidDateTime(t) then Some(t) else None
  }

  // ---------------------------------------------------------------------
  // strftime / isoformat
  // ---------------------------------------------------------------------

  function Pad2(n: int): string
    requires 0 <= n <= 99
  {
    [DigitChar(n / 10), DigitChar(n % 10)]
  }

  function Pad4(n: int): string
    requires 0 <= n <= 9999
  {
    [DigitChar(n / 1000), DigitChar(n / 100 % 10), DigitChar(n / 10 % 10), DigitChar(n % 10)]
  }

  /** "%Y-%m-%d %H:%M:%S" with every field zero-padded; isoformat(" ") writes the same text
      for a datetime without microseconds. */
  function FormatDateTime(t: DateTime): string
    requires ValidDateTime(t)
  {
    Pad4(t.date.year) + "-" + Pad2(t.date.month) + "-" + Pad2(t.date.day) + " "
    + Pad2(t.hour) + ":" + Pad2(t.minute) + ":" + Pad2(t.second)
  }

  // ---------------------------------------------------------------------
  // The spellings strptime("%Y-%m-%d") accepts, listed independently of the parser
  // ---------------------------------------------------------------------

  function MonthSpellings(m: int): set<string>
    requires 1 <= m <= 12
  {
    {Pad2(m)} + (if m < 10 then {[DigitChar(m)]} else {})
  }

  function DaySpellings(d: int): set<string>
    requires 1 <= d <= 31
  {
    {Pad2(d)} + (if d < 10 then {[DigitChar(d)], [' ', DigitChar(d)]} else {})
  }

  /** s is the four-digit year, '-', a month spelling, '-', a day spelling of d. */
  ghost predicate SpelledAs(s: string, d: Date) {
    0 <= d.year <= 9999 && 1 <= d.month <= 12 && 1 <= d.day <= 31 &&
    exists mt, dt :: mt in MonthSpellings(d.month) && dt in DaySpellings(d.day)
                     && s == Pad4(d.year) + "-" + mt + "-" + dt
  }

  // ---------------------------------------------------------------------
  // Lemmas about the fields
  // ---------------------------------------------------------------------

  lemma DigitCharValue(c: char)
    requires IsDigit(c)
    ensures DigitChar(DigitValue(c)) == c
  {
  }

  lemma Pad2Digits(n: int)
    requires 0 <= n <= 99
    ensures IsDigit(Pad2(n)[0]) && IsDigit(Pad2(n)[1])
    ensures TwoDigitValue(Pad2(n)) == n
  {
  }

  lemma FourDigits(a: int, b: int, c: int, d: int)
    requires 0 <= a <= 9 && 0 <= b <= 9 && 0 <= c <= 9 && 0 <= d <= 9
    ensures var y := 1000 * a + 100 * b + 10 * c + d;
            y / 1000 == a && y / 100 % 10 == b && y / 10 % 10 == c && y % 10 == d
  {
    var y := 1000 * a + 100 * b + 10 * c + d;
    assert y / 10 == 100 * a + 10 * b + c;
    assert y / 100 == 10 * a + b;
  }

  lemma FourDigitsOf(y: int)
    requires 0 <= y <= 9999
    ensures 1000 * (y / 1000) + 100 * (y / 100 % 10) + 10 * (y / 10 % 10) + y % 10 == y
  {
    assert y == 10 * (y / 10) + y % 10;
    assert y / 10 == 10 * (y / 100) + y / 10 % 10;
    assert y / 100 == 10 * (y / 1000) + y / 100 % 10;
  }

  lemma YearFieldPad4(t: string, y: int)
    ensures YearField(t) == Some(y) <==> 0 <= y <= 9999 && t == Pad4(y)
  {
    if YearField(t) == Some(y) {
      FourDigits(DigitValue(t[0]), DigitValue(t[1]), DigitValue(t[2]), DigitValue(t[3]));
      DigitCharValue(t[0]); DigitCharValue(t[1]); DigitCharValue(t[2]); DigitCharValue(t[3]);
      assert t == Pad4(y);
    }
    if 0 <= y <= 9999 && t == Pad4(y) {
      FourDigitsOf(y);
    }
  }

  lemma MonthFieldSpellings(t: string, m: int)
    ensures MonthField(t) == Some(m) <==> 1 <= m <= 12 && t in MonthSpellings(m)
  {
    if MonthField(t) == Some(m) {
      if |t| == 2 {
        DigitCharValue(t[0]); DigitCharValue(t[1]);
        assert t == Pad2(m);
      } else {
        DigitCharValue(t[0]);
        assert t == [DigitChar(m)];
      }
    }
    if 1 <= m <= 12 && t in MonthSpellings(m) {
      Pad2Digits(m);
    }
  }

  lemma DayFieldSpellings(t: string, d: int)
    ensures DayField(t) == Some(d) <==> 1 <= d <= 31 && t in DaySpellings(d)
  {
    if DayField(t) == Some(d) {
      if |t| == 2 && t[0] == ' ' {
        DigitCharValue(t[1]);
        assert t == [' ', DigitChar(d)];
      } else if |t| == 2 {
        DigitCharValue(t[0]); DigitCharValue(t[1]);
        assert t == Pad2(d);
      } else {
        DigitCharValue(t[0]);
        assert t == [DigitChar(d)];
      }
    }
    if 1 <= d <= 31 && t in DaySpellings(d) {
      Pad2Digits(d);
    }
  }

  lemma MonthSpellingShape(mt: string, m: int)
    requires 1 <= m <= 12 && mt in MonthSpellings(m)
    ensures 1 <= |mt| <= 2 && forall i :: 0 <= i < |mt| ==> IsDigit(mt[i])
  {
  }

  /** The shared prefix reads back the year and the month it was written with. */
  lemma YearMonthPrefixOf(y: int, mt: string, m: int, tail: string)
    requires 0 <= y <= 9999 && 1 <= m <= 12 && mt in MonthSpellings(m)
    ensures YearMonthPrefix(Pad4(y) + "-" + mt + "-" + tail) == Some((y, m, tail))
  {
    var s := Pad4(y) + "-" + mt + "-" + tail;
    MonthSpellingShape(mt, m);
    assert s[..4] == Pad4(y);
    var rest := s[5..];
    assert rest == mt + "-" + tail;
    FindIs(rest, '-', |mt|);
    assert rest[..|mt|] == mt;
    assert rest[|mt| + 1..] == tail;
    YearFieldPad4(Pad4(y), y);
    MonthFieldSpellings(mt, m);
  }

  /** Whatever the shared prefix accepts is spelled with a four-digit year and a month spelling. */
  lemma YearMonthPrefixSpelled(s: string)
    requires YearMonthPrefix(s).Some?
    ensures var (y, m, tail) := YearMonthPrefix(s).value;
            0 <= y <= 9999 && 1 <= m <= 12 &&
            exists mt :: mt in MonthSpellings(m) && s == Pad4(y) + "-" + mt + "-" + tail
  {
    var (y, m, tail) := YearMonthPrefix(s).value;
    var rest := s[5..];
    var k := Find(rest, '-');
    var mt := rest[..k];
    YearFieldPad4(s[..4], y);
    MonthFieldSpellings(mt, m);
    assert s == s[..4] + "-" + mt + "-" + tail;
  }

  // ---------------------------------------------------------------------
  // The properties of the two parsers
  // ---------------------------------------------------------------------

  /** strptime(s, "%Y-%m-%d") succeeds with d exactly when d is a real calendar date and s is one
      of its spellings: four-digit year, month and day with or without a leading zero, and a day
      below 10 also with a leading space. */
  lemma ParseDateSpellings(s: string, d: Date)
    ensures ParseDate(s) == Some(d) <==> ValidDate(d) && SpelledAs(s, d)
  {
    if ParseDate(s) == Some(d) {
      YearMonthPrefixSpelled(s);
      var (y, m, tail) := YearMonthPrefix(s).value;
      var mt :| mt in MonthSpellings(m) && s == Pad4(y) + "-" + mt + "-" + tail;
      DayFieldSpellings(tail, d.day);
      assert SpelledAs(s, d);
    }
    if ValidDate(d) && SpelledAs(s, d) {
      var mt, dt :| mt in MonthSpellings(d.month) && dt in DaySpellings(d.day)
                    && s == Pad4(d.year) + "-" + mt + "-" + dt;
      YearMonthPrefixOf(d.year, mt, d.month, dt);
      DayFieldSpellings(dt, d.day);
    }
  }

  lemma ClockFieldsOf(hh: int, mm: int, ss: int)
    requires 0 <= hh <= 23 && 0 <= mm <= 59 && 0 <= ss <= 59
    ensures ClockFields(Pad2(hh) + ":" + Pad2(mm) + ":" + Pad2(ss)) == Some((hh, mm, ss))
  {
    var clock := Pad2(hh) + ":" + Pad2(mm) + ":" + Pad2(ss);
    Pad2Digits(hh); Pad2Digits(mm); Pad2Digits(ss);
    FindIs(clock, ':', 2);
    assert clock[..2] == Pad2(hh);
    var minSec := clock[3..];
    assert minSec == Pad2(mm) + ":" + Pad2(ss);
    FindIs(minSec, ':', 2);
    assert minSec[..2] == Pad2(mm);
    assert minSec[3..] == Pad2(ss);
  }

  lemma DayAndClockOf(d: int, clock: string, fields: (int, int, int))
    requires 1 <= d <= 31 && ClockFields(clock) == Some(fields)
    requires |clock| > 0 && IsDigit(clock[0])
    ensures DayAndClock(Pad2(d) + " " + clock) == Some((d, fields))
  {
    var tail := Pad2(d) + " " + clock;
    Pad2Digits(d);
    DigitRunIs(tail, 2);
    assert tail[..2] == Pad2(d);
    DayFieldSpellings(Pad2(d), d);
    var afterDay := tail[2..];
    assert afterDay == " " + clock;
    SpaceRunIs(afterDay, 1);
    assert afterDay[1..] == clock;
  }

  /** Every datetime strftime writes is read back by strptime with the same format. */
  lemma FormatDateTimeParses(t: DateTime)
    requires ValidDateTime(t)
    ensures ParseDateTime(FormatDateTime(t)) == Some(t)
  {
    var clock := Pad2(t.hour) + ":" + Pad2(t.minute) + ":" + Pad2(t.second);
    var tail := Pad2(t.date.day) + " " + clock;
    assert FormatDateTime(t) == Pad4(t.date.year) + "-" + Pad2(t.date.month) + "-" + tail;
    assert Pad2(t.date.month) in MonthSpellings(t.date.month);
    YearMonthPrefixOf(t.date.year, Pad2(t.date.month), t.date.month, tail);
    ClockFieldsOf(t.hour, t.minute, t.second);
    Pad2Digits(t.hour);
    DayAndClockOf(t.date.day, clock, (t.hour, t.minute, t.second));
  }

  // ---------------------------------------------------------------------
  // strftime("%Y") on a C library that does not pad the year
  // ---------------------------------------------------------------------

  /** The decimal digits of n, without leading zeros. */
  function Decimal(n: int): string
    requires n >= 0
  {
    if n < 10 then [DigitChar(n)] else Decimal(n / 10) + [DigitChar(n % 10)]
  }

  /** "%Y-%m-%d %H:%M:%S" as strftime writes it where the C library prints %Y without
      padding (glibc, under CPython versions that hand %Y to it unchanged). */
  function FormatDateTimeUnpaddedYear(t: DateTime): string
    requires ValidDateTime(t)
  {
    Decimal(t.date.year) + "-" + Pad2(t.date.month) + "-" + Pad2(t.date.day) + " "
    + Pad2(t.hour) + ":" + Pad2(t.minute) + ":" + Pad2(t.second)
  }

  lemma {:induction false} DecimalShort(n: int)
    requires 0 <= n < 1000
    ensures 1 <= |Decimal(n)| <= 3
  {
    if n >= 10 {
      DecimalShort(n / 10);
      if n / 10 >= 10 {
        assert n / 10 / 10 < 10;
      }
    }
  }

  /** With an unpadded year, a year below 1000 leaves a '-' among the first four characters,
      so the second strptime refuses what the first strptime accepted. */
  lemma UnpaddedYearDoesNotParse(t: DateTime)
    requires ValidDateTime(t) && t.date.year < 1000
    ensures ParseDateTime(FormatDateTimeUnpaddedYear(t)) == None
  {
    var s := FormatDateTimeUnpaddedYear(t);
    var k := |Decimal(t.date.year)|;
    DecimalShort(t.date.year);
    assert s[k] == '-';
    assert s[..4][k] == '-';
    assert YearField(s[..4]) == None;
  }

  /** The input of the finding: the first format accepts "0999-01-01" ... */
  lemma PaddedYear999Parses()
    ensures ParseDate("0999-01-01") == Some(Date(999, 1, 1))
  {
    var d := Date(999, 1, 1);
    assert Pad4(999) == "0999";
    assert Pad2(1) == "01";
    assert "0999-01-01" == Pad4(999) + "-" + "01" + "-" + "01";
    assert "01" in MonthSpellings(1) && "01" in DaySpellings(1);
    assert SpelledAs("0999-01-01", d);
    ParseDateSpellings("0999-01-01", d);
  }

  /** ... an unpadded strftime writes it back as "999-01-01 00:00:00" ... */
  lemma UnpaddedYear999Text()
    ensures FormatDateTimeUnpaddedYear(Midnight(Date(999, 1, 1))) == "999-01-01 00:00:00"
  {
    assert Decimal(9) == "9";
    assert Decimal(99) == "99";
    assert Decimal(999) == "999";
    assert Pad2(0) == "00" && Pad2(1) == "01";
  }

  /** ... and the second format refuses that text. */
  lemma UnpaddedYearCounterexample()
    ensures ParseDate("0999-01-01") == Some(Date(999, 1, 1))
    ensures ParseDateTime(FormatDateTimeUnpaddedYear(Midnight(Date(999, 1, 1)))) == None
    ensures ParseDateTime("999-01-01 00:00:00") == None
  {
    PaddedYear999Parses();
    UnpaddedYear999Text();
    UnpaddedYearDoesNotParse(Midnight(Date(999, 1, 1)));
  }
}
