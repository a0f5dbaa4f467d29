/**
 Calendar dates as the controllers accept and compare them: `YYYY-MM-DD` strings that
 are checked once and from then on compared as plain strings.
 */
module CalendarDate {
  import opened Strings

  const DAYS_IN_MONTH: seq<nat> := [31, 28, 31, 30, 31, 30, 31, 31, 30, 31, 30, 31]

  /** Four digits, two digits, two digits, with hyphens between. */
  predicate HasDateShape(s: string) {
    |s| == 10 && IsNumeral(s[..4]) && s[4] == '-' && IsNumeral(s[5..7]) && s[7] == '-' && IsNumeral(s[8..])
  }

  predicate IsValidDate(s: string) {
    HasDateShape(s) &&
    var year, month, day := Num(s[..4]), Num(s[5..7]), Num(s[8..]);
    if month < 1 || month > 12 || day < 1 then false
    else
      var leapYear := year % 4 == 0 && (year % 100 != 0 || year % 400 == 0);
      var daysInThisMonth := if month == 2 && leapYear then 29 else DAYS_IN_MONTH[month - 1];
      day <= daysInThisMonth
  }

  // ---------------------------------------------------------------------------
  // The Gregorian calendar
  // ---------------------------------------------------------------------------

  datatype Date = Date(year: nat, month: nat, day: nat)

  /** Appendix C of RFC 3339. */
  predicate Leap(year: nat) {
    year % 400 == 0 || (year % 4 == 0 && year % 100 != 0)
  }

  /** The table of section 5.7 of RFC 3339. */
  function MonthLength(year: nat, month: nat): nat {
    if month in {4, 6, 9, 11} then 30
    else if month == 2 then if Leap(year) then 29 else 28
    else 31
  }

  predicate Civil(d: Date) {
    d.year <= 9999 && 1 <= d.month <= 12 && 1 <= d.day <= MonthLength(d.year, d.month)
  }

  function DaysBeforeMonth(year: nat, month: nat): nat
    requires month <= 13
  {
    if month <= 1 then 0 else DaysBeforeMonth(year, month - 1) + MonthLength(year, month - 1)
  }

  function DaysBeforeYear(year: nat): nat {
    if year == 0 then 0 else DaysBeforeYear(year - 1) + DaysBeforeMonth(year - 1, 13)
  }

  /** Days since 0000-01-01. */
  function DayNumber(d: Date): nat
    requires Civil(d)
  {
    DaysBeforeYear(d.year) + DaysBeforeMonth(d.year, d.month) + d.day - 1
  }

  /** The day after; the last day of a month is followed by the first of the next. */
  function Next(d: Date): Date {
    if d.day < MonthLength(d.year, d.month) then d.(day := d.day + 1)
    else if d.month < 12 then Date(d.year, d.month + 1, 1)
    else Date(d.year + 1, 1, 1)
  }

  function Render(d: Date): string
    requires d.year <= 9999 && d.month < 100 && d.day < 100
  {
    Two(d.year / 100) + Two(d.year % 100) + "-" + Two(d.month) + "-" + Two(d.day)
  }

  function Parse(s: string): Date
    requires HasDateShape(s)
  {
    Date(Num(s[..4]), Num(s[5..7]), Num(s[8..]))
  }

  // ---------------------------------------------------------------------------
  // Theorems
  // ---------------------------------------------------------------------------

  lemma NumOfTwo(s: string)
    requires |s| == 2 && IsNumeral(s)
    ensures Num(s) == 10 * DigitValue(s[0]) + DigitValue(s[1])
    ensures Num(s) < 100 && Two(Num(s)) == s
  {
    assert s[..1][..0] == [];
    assert Num(s[..1]) == DigitValue(s[0]);
  }

  lemma NumOfFour(s: string)
    requires |s| == 4 && IsNumeral(s)
    ensures Num(s) == 100 * Num(s[..2]) + Num(s[2..])
  {
    assert s[..3][..2] == s[..2];
    NumOfTwo(s[2..]);
    assert Num(s[..3]) == 10 * Num(s[..2]) + DigitValue(s[2]);
  }

  lemma TwoDenotes(n: nat)
    requires n < 100
    ensures |Two(n)| == 2 && IsNumeral(Two(n)) && Num(Two(n)) == n
  {
    NumOfTwo(Two(n));
  }

  lemma ParseRenders(s: string)
    requires HasDateShape(s)
    ensures var d := Parse(s); d.year <= 9999 && d.month < 100 && d.day < 100 && Render(d) == s
  {
    var y := s[..4];
    NumOfFour(y);
    NumOfTwo(y[..2]);
    NumOfTwo(y[2..]);
    NumOfTwo(s[5..7]);
    NumOfTwo(s[8..]);
    var a, b := Num(y[..2]), Num(y[2..]);
    assert Num(y) / 100 == a && Num(y) % 100 == b;
    assert s == y[..2] + y[2..] + "-" + s[5..7] + "-" + s[8..];
  }

  lemma MonthLengths(year: nat, month: nat)
    requires 1 <= month <= 12
    ensures MonthLength(year, month) ==
            if month == 2 && year % 4 == 0 && (year % 100 != 0 || year % 400 == 0) then 29
            else DAYS_IN_MONTH[month - 1]
  {
  }

  lemma ValidIsCivil(s: string)
    requires HasDateShape(s)
    ensures IsValidDate(s) <==> Civil(Parse(s))
  {
    ParseRenders(s);
    var d := Parse(s);
    if 1 <= d.month <= 12 {
      MonthLengths(d.year, d.month);
    }
  }

  lemma RenderParses(d: Date)
    requires d.year <= 9999 && d.month < 100 && d.day < 100
    ensures HasDateShape(Render(d)) && Parse(Render(d)) == d
  {
    var s, y := Render(d), Two(d.year / 100) + Two(d.year % 100);
    TwoDenotes(d.year / 100);
    TwoDenotes(d.year % 100);
    TwoDenotes(d.month);
    TwoDenotes(d.day);
    assert y[..2] == Two(d.year / 100) && y[2..] == Two(d.year % 100);
    NumOfFour(y);
    assert s[..4] == y && s[5..7] == Two(d.month) && s[8..] == Two(d.day);
  }

  /** The accepted strings are exactly the rendered Gregorian dates, year 0000 included. */
  lemma AcceptsExactlyTheCalendar(s: string)
    ensures IsValidDate(s) <==> exists d :: Civil(d) && s == Render(d)
    ensures IsValidDate(s) ==> Civil(Parse(s)) && s == Render(Parse(s))
  {
    if HasDateShape(s) {
      ValidIsCivil(s);
      ParseRenders(s);
    }
    if exists d :: Civil(d) && s == Render(d) {
      var d :| Civil(d) && s == Render(d);
      RenderParses(d);
    }
  }

  lemma {:induction false} MonthsAccumulate(year: nat, m: nat, n: nat)
    requires 1 <= m < n <= 13
    ensures DaysBeforeMonth(year, m) + MonthLength(year, m) <= DaysBeforeMonth(year, n)
    decreases n
  {
    if m + 1 < n {
      MonthsAccumulate(year, m, n - 1);
    }
  }

  lemma {:induction false} YearsAccumulate(m: nat, n: nat)
    requires m < n
    ensures DaysBeforeYear(m) + DaysBeforeMonth(m, 13) <= DaysBeforeYear(n)
    decreases n
  {
    if m + 1 < n {
      YearsAccumulate(m, n - 1);
    }
  }

  predicate Earlier(a: Date, b: Date) {
    a.year < b.year || (a.year == b.year && (a.month < b.month || (a.month == b.month && a.day < b.day)))
  }

  lemma EarlierHasSmallerNumber(a: Date, b: Date)
    requires Civil(a) && Civil(b) && Earlier(a, b)
    ensures DayNumber(a) < DayNumber(b)
  {
    if a.year < b.year {
      YearsAccumulate(a.year, b.year);
      MonthsAccumulate(a.year, a.month, 13);
    } else if a.month < b.month {
      MonthsAccumulate(a.year, a.month, b.month);
    }
  }

  lemma StringOrderIsFieldOrder(s: string, t: string)
    requires HasDateShape(s) && HasDateShape(t)
    ensures Less(s, t) <==> Earlier(Parse(s), Parse(t))
  {
    assert s == s[..4] + (['-'] + (s[5..7] + (['-'] + s[8..])));
    assert t == t[..4] + (['-'] + (t[5..7] + (['-'] + t[8..])));
    LessAppend(s[..4], ['-'] + (s[5..7] + (['-'] + s[8..])), t[..4], ['-'] + (t[5..7] + (['-'] + t[8..])));
    LessAppend(['-'], s[5..7] + (['-'] + s[8..]), ['-'], t[5..7] + (['-'] + t[8..]));
    LessAppend(s[5..7], ['-'] + s[8..], t[5..7], ['-'] + t[8..]);
    LessAppend(['-'], s[8..], ['-'], t[8..]);
    LessIsTotal(['-'], ['-']);
    NumeralOrder(s[..4], t[..4]);
    NumeralOrder(s[5..7], t[5..7]);
    NumeralOrder(s[8..], t[8..]);
  }

  /** Accepted dates compare as strings exactly as they follow each other in time. */
  lemma StringOrderIsTimeOrder(s: string, t: string)
    requires IsValidDate(s) && IsValidDate(t)
    ensures Civil(Parse(s)) && Civil(Parse(t))
    ensures Less(s, t) <==> DayNumber(Parse(s)) < DayNumber(Parse(t))
    ensures s == t <==> DayNumber(Parse(s)) == DayNumber(Parse(t))
  {
    AcceptsExactlyTheCalendar(s);
    AcceptsExactlyTheCalendar(t);
    var a, b := Parse(s), Parse(t);
    StringOrderIsFieldOrder(s, t);
    if Earlier(a, b) {
      EarlierHasSmallerNumber(a, b);
    } else if Earlier(b, a) {
      EarlierHasSmallerNumber(b, a);
    } else {
      assert a == b;
    }
  }

  lemma NextIsOneDayLater(d: Date)
    requires Civil(d) && d != Date(9999, 12, 31)
    ensures Civil(Next(d)) && DayNumber(Next(d)) == DayNumber(d) + 1
  {
    if d.day == MonthLength(d.year, d.month) && d.month == 12 {
      assert DaysBeforeMonth(d.year, 13) == DaysBeforeMonth(d.year, 12) + 31;
    }
  }

  /** No gaps: every accepted date but the last is followed by an accepted date one day later. */
  lemma EveryDayHasASuccessor(s: string)
    requires IsValidDate(s) && Parse(s) != Date(9999, 12, 31)
    ensures Civil(Parse(s)) && Civil(Next(Parse(s)))
    ensures IsValidDate(Render(Next(Parse(s)))) && Parse(Render(Next(Parse(s)))) == Next(Parse(s))
    ensures DayNumber(Next(Parse(s))) == DayNumber(Parse(s)) + 1
  {
    AcceptsExactlyTheCalendar(s);
    NextIsOneDayLater(Parse(s));
    RenderParses(Next(Parse(s)));
    ValidIsCivil(Render(Next(Parse(s))));
  }

  /** The period guard of the controllers rejects exactly the periods that end before they start. */
  lemma PeriodCheckIsExact(startsOn: string, endsOn: string)
    requires IsValidDate(startsOn) && IsValidDate(endsOn)
    ensures Civil(Parse(startsOn)) && Civil(Parse(endsOn))
    ensures !Less(endsOn, startsOn) <==> DayNumber(Parse(startsOn)) <= DayNumber(Parse(endsOn))
  {
    StringOrderIsTimeOrder(endsOn, startsOn);
  }
}
