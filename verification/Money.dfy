/**
 Printed amounts: an integer number of tiyn as `12 345,67`.  The render gate and the
 server each have their own algorithm, one splitting off thousands arithmetically, the
 other walking over the digits from the right; both are here.
 */
module Money {
  import opened Strings
  import opened Wrappers

  function Three(n: nat): (s: string)
    requires n < 1000
    ensures |s| == 3 && IsNumeral(s)
  {
    [DigitChar(n / 100), DigitChar(n / 10 % 10), DigitChar(n % 10)]
  }

  /** Thousands groups, separated by one space. */
  function Grouped(whole: nat): string {
    if whole < 1000 then Decimal(whole) else Grouped(whole / 1000) + " " + Three(whole % 1000)
  }

  function Abs(n: int): nat { if n < 0 then -n else n }

  function Printed(tiyn: int): string {
    (if tiyn < 0 then "-" else "") + Grouped(Abs(tiyn) / 100) + "," + Two(Abs(tiyn) % 100)
  }

  function Reversed(groups: seq<string>): seq<string> {
    if groups == [] then [] else Reversed(groups[1..]) + [groups[0]]
  }

  function JoinedBySpace(groups: seq<string>): string {
    if groups == [] then ""
    else if |groups| == 1 then groups[0]
    else groups[0] + " " + JoinedBySpace(groups[1..])
  }

  /** What follows the leading group: the collected groups, last one first, each after a space. */
  function Tail(groups: seq<string>): string {
    if groups == [] then ""
    else " " + groups[|groups| - 1] + Tail(groups[..|groups| - 1])
  }

  lemma {:induction false} ReverseAppend(groups: seq<string>, g: string)
    ensures Reversed(groups + [g]) == [g] + Reversed(groups)
  {
    if groups == [] {
      assert [g][1..] == [];
    } else {
      assert (groups + [g])[1..] == groups[1..] + [g];
      ReverseAppend(groups[1..], g);
    }
  }

  lemma {:induction false} JoinReversed(groups: seq<string>, g: string)
    ensures JoinedBySpace(Reversed(groups + [g])) == g + Tail(groups)
  {
    ReverseAppend(groups, g);
    assert ([g] + Reversed(groups))[1..] == Reversed(groups);
    if groups == [] {
      assert [g] + Reversed(groups) == [g] && g + "" == g;
    } else {
      var n := |groups| - 1;
      JoinReversed(groups[..n], groups[n]);
      ReverseAppend(groups[..n], groups[n]);
      assert groups[..n] + [groups[n]] == groups;
      assert g + " " + (groups[n] + Tail(groups[..n])) == g + (" " + groups[n] + Tail(groups[..n]));
    }
  }

  lemma SplitOffGroup(whole: nat, groups: seq<string>)
    requires whole >= 1000
    ensures Grouped(whole) + Tail(groups) == Grouped(whole / 1000) + Tail(groups + [Three(whole % 1000)])
  {
    var g := Three(whole % 1000);
    assert (groups + [g])[..|groups|] == groups;
    assert Grouped(whole / 1000) + " " + g + Tail(groups) == Grouped(whole / 1000) + (" " + g + Tail(groups));
  }

  /** money() of the render gate. */
  method Format(tiyn: int) returns (s: string)
    ensures s == Printed(tiyn)
  {
    var sign := if tiyn < 0 then "-" else "";
    var whole: nat, frac: nat := Abs(tiyn) / 100, Abs(tiyn) % 100;
    var groups: seq<string> := [];
    assert Grouped(whole) + Tail([]) == Grouped(whole);
    while whole >= 1000
      invariant Grouped(Abs(tiyn) / 100) == Grouped(whole) + Tail(groups)
    {
      SplitOffGroup(whole, groups);
      var rest := whole % 1000;
      whole := whole / 1000;
      groups := groups + [Three(rest)];
    }
    JoinReversed(groups, Decimal(whole));
    groups := groups + [Decimal(whole)];
    s := sign + JoinedBySpace(Reversed(groups)) + "," + Two(frac);
  }

  // ---------------------------------------------------------------------------
  // The server's algorithm
  // ---------------------------------------------------------------------------

  /** A space before every third digit from the right. */
  function Spaced(digits: string): string {
    if |digits| <= 3 then digits
    else Spaced(digits[..|digits| - 3]) + " " + digits[|digits| - 3..]
  }

  lemma {:induction false} SpacedCons(c: char, rest: string)
    ensures Spaced([c] + rest) == [c] + (if |rest| > 0 && |rest| % 3 == 0 then " " else "") + Spaced(rest)
  {
    var d := [c] + rest;
    if |rest| > 3 {
      var k := |rest| - 3;
      assert d[..|d| - 3] == [c] + rest[..k] && d[|d| - 3..] == rest[k..];
      SpacedCons(c, rest[..k]);
    } else if |rest| == 3 {
      assert d[..1] == [c] && d[1..] == rest;
    } else {
      assert [c] + "" + rest == d;
    }
  }

  lemma ShortDecimal(n: nat)
    requires n < 1000
    ensures |Decimal(n)| <= 3
  {
    if n >= 10 {
      DecimalUnfold(n);
      if n >= 100 {
        DecimalUnfold(n / 10);
        assert |Decimal(n / 10 / 10)| == 1;
      }
    }
  }

  lemma SpacedGroup(front: string, group: string)
    requires front != "" && |group| == 3
    ensures Spaced(front + group) == Spaced(front) + " " + group
  {
    var d := front + group;
    assert d[|d| - 3..] == group && d[..|d| - 3] == front;
  }

  lemma {:induction false} GroupedIsSpaced(n: nat)
    ensures Grouped(n) == Spaced(Decimal(n))
  {
    if n < 1000 {
      ShortDecimal(n);
    } else {
      DecimalSplits(n);
      SpacedGroup(Decimal(n / 1000), Three(n % 1000));
      GroupedIsSpaced(n / 1000);
    }
  }

  lemma DivideByTenThrice(n: nat)
    ensures n / 10 / 10 / 10 == n / 1000 && n / 10 / 10 == n / 100
    ensures n % 1000 / 100 == n / 100 % 10 && n % 1000 / 10 % 10 == n / 10 % 10 && n % 1000 % 10 == n % 10
  {
  }

  lemma DecimalUnfold(n: nat)
    requires n >= 10
    ensures Decimal(n) == Decimal(n / 10) + [DigitChar(n % 10)]
  {
  }

  lemma DecimalSplits(n: nat)
    requires n >= 1000
    ensures Decimal(n) == Decimal(n / 1000) + Three(n % 1000)
  {
    DivideByTenThrice(n);
    DecimalUnfold(n);
    DecimalUnfold(n / 10);
    DecimalUnfold(n / 100);
    var a, b, c := [DigitChar(n / 100 % 10)], [DigitChar(n / 10 % 10)], [DigitChar(n % 10)];
    assert Three(n % 1000) == a + b + c;
    assert Decimal(n / 1000) + a + b + c == Decimal(n / 1000) + (a + b + c);
  }

  function Backwards(s: string): string {
    if s == "" then "" else Backwards(s[1..]) + [s[0]]
  }

  lemma {:induction false} BackwardsAppend(s: string, c: char)
    ensures Backwards(s + [c]) == [c] + Backwards(s)
  {
    if s == "" {
      assert [c][1..] == "";
    } else {
      assert (s + [c])[1..] == s[1..] + [c];
      BackwardsAppend(s[1..], c);
    }
  }

  function Pushed(grouped: string, taken: nat, c: char): string {
    (if taken > 0 && taken % 3 == 0 then grouped + [' '] else grouped) + [c]
  }

  lemma PushStep(grouped: string, done: string, c: char)
    requires Backwards(grouped) == Spaced(done)
    ensures Backwards(Pushed(grouped, |done|, c)) == Spaced([c] + done)
  {
    SpacedCons(c, done);
    BackwardsAppend(grouped, ' ');
    BackwardsAppend(if |done| > 0 && |done| % 3 == 0 then grouped + [' '] else grouped, c);
  }

  /** The walk over the digits from the right, collecting the result back to front. */
  method SpaceBackwards(digits: string) returns (grouped: string)
    ensures Backwards(grouped) == Spaced(digits)
  {
    grouped := "";
    var left: nat := |digits|;
    var taken: nat := 0;
    while left > 0
      invariant left + taken == |digits|
      invariant Backwards(grouped) == Spaced(digits[left..])
    {
      PushStep(grouped, digits[left..], digits[left - 1]);
      assert digits[left - 1..] == [digits[left - 1]] + digits[left..];
      left := left - 1;
      grouped := Pushed(grouped, taken, digits[left]);
      taken := taken + 1;
    }
  }

  /** format_tiyn_ru(): a negative amount is refused, None standing for the exception. */
  method FormatTiynRu(tiyn: int) returns (s: Option<string>)
    ensures s == if tiyn < 0 then None else Some(Printed(tiyn))
  {
    if tiyn < 0 {
      return None;
    }
    var whole, frac := tiyn / 100, tiyn % 100;
    var grouped := SpaceBackwards(Decimal(whole));
    GroupedIsSpaced(whole);
    assert "" + Grouped(whole) == Grouped(whole);
    s := Some(Backwards(grouped) + "," + Two(frac));
  }

  // ---------------------------------------------------------------------------
  // What a printed amount says
  // ---------------------------------------------------------------------------

  /** One to three digits, then groups of a space and three digits. */
  predicate IsGrouped(w: string) {
    var n := |w|;
    if n <= 3 then n > 0 && IsNumeral(w)
    else n > 4 && w[n - 4] == ' ' && IsNumeral(w[n - 3..]) && IsGrouped(w[..n - 4])
  }

  /** The gate's pattern for a printed amount, anchored at both ends. */
  predicate PrintedMoney(s: string) {
    |s| >= 3 && s[|s| - 3] == ',' && IsNumeral(s[|s| - 2..]) && IsGrouped(s[..|s| - 3])
  }

  predicate NoLeadingZero(s: string) {
    s != "" && (s[0] != '0' || (|s| > 1 && s[1] == ','))
  }

  /** The string without its separators. */
  function Bare(s: string): string {
    if s == "" then ""
    else if s[0] == ' ' || s[0] == ',' then Bare(s[1..])
    else [s[0]] + Bare(s[1..])
  }

  lemma {:induction false} BareAppend(a: string, b: string)
    ensures Bare(a + b) == Bare(a) + Bare(b)
  {
    if a == "" {
      assert a + b == b;
    } else {
      assert (a + b)[1..] == a[1..] + b;
      BareAppend(a[1..], b);
    }
  }

  lemma {:induction false} BareNumeral(s: string)
    requires IsNumeral(s)
    ensures Bare(s) == s
  {
    if s != "" {
      BareNumeral(s[1..]);
      assert IsDigit(s[0]);
      assert s == [s[0]] + s[1..];
    }
  }

  lemma {:induction false} GroupedMatches(n: nat)
    ensures IsGrouped(Grouped(n))
    ensures Bare(Grouped(n)) == Decimal(n)
    ensures Grouped(n)[0] == Decimal(n)[0]
    ensures |Grouped(n)| > 1 ==> Grouped(n)[0] != '0' || n == 0
  {
    if n < 1000 {
      BareNumeral(Decimal(n));
      DecimalDenotes(n);
      assert n >= 10 ==> Decimal(n) == Decimal(n / 10) + [DigitChar(n % 10)];
      assert n >= 100 ==> Decimal(n / 10) == Decimal(n / 10 / 10) + [DigitChar(n / 10 % 10)];
      assert n / 10 / 10 < 10;
      assert |Decimal(n)| <= 3;
    } else {
      GroupedMatches(n / 1000);
      DecimalSplits(n);
      DecimalDenotes(n);
      var g, u, t := Grouped(n), Grouped(n / 1000), Three(n % 1000);
      assert g[..|g| - 4] == u && g[|g| - 3..] == t;
      BareAppend(u + " ", t);
      BareAppend(u, " ");
      BareNumeral(t);
      assert Bare(" ") == "" by { assert " "[1..] == ""; }
      assert Bare(u) + "" == Bare(u);
    }
  }

  /** The decimal numeral of tiyn with zeros in front to make three digits. */
  function Padded(tiyn: nat): string {
    if tiyn < 10 then "00" + Decimal(tiyn) else if tiyn < 100 then "0" + Decimal(tiyn) else Decimal(tiyn)
  }

  lemma PaddedIsWholeAndFraction(tiyn: nat)
    ensures Padded(tiyn) == Decimal(tiyn / 100) + Two(tiyn % 100)
    ensures IsNumeral(Padded(tiyn)) && Num(Padded(tiyn)) == tiyn
  {
    var w, f := tiyn / 100, tiyn % 100;
    if tiyn >= 100 {
      DecimalUnfold(tiyn);
      DecimalUnfold(tiyn / 10);
      DivideByTenThrice(tiyn);
      assert Decimal(w) + [DigitChar(tiyn / 10 % 10)] + [DigitChar(tiyn % 10)] == Decimal(w) + Two(f);
    } else if tiyn >= 10 {
      DecimalUnfold(tiyn);
    }
    DecimalDenotes(w);
    NumAppend(Decimal(w), DigitChar(f / 10));
    NumAppend(Decimal(w) + [DigitChar(f / 10)], DigitChar(f % 10));
    assert Decimal(w) + [DigitChar(f / 10)] + [DigitChar(f % 10)] == Decimal(w) + Two(f);
  }

  /** Reading a printed amount back: the number its digits denote. */
  function Decoded(s: string): nat {
    if IsNumeral(Bare(s)) then Num(Bare(s)) else 0
  }

  /**
   Every amount is printed in the gate's grammar; without its separators it is the padded
   decimal of the integer; so it decodes to that integer.
   */
  lemma PrintedSaysTheAmount(tiyn: nat)
    ensures PrintedMoney(Printed(tiyn)) && NoLeadingZero(Printed(tiyn))
    ensures Bare(Printed(tiyn)) == Padded(tiyn)
    ensures Decoded(Printed(tiyn)) == tiyn
  {
    var g, f := Grouped(tiyn / 100), Two(tiyn % 100);
    GroupedMatches(tiyn / 100);
    DecimalDenotes(tiyn / 100);
    var s := Printed(tiyn);
    assert s == g + "," + f;
    assert s[..|s| - 3] == g && s[|s| - 2..] == f;
    BareAppend(g + ",", f);
    BareAppend(g, ",");
    assert Bare(",") == "" by { assert ","[1..] == ""; }
    assert Bare(g) + "" == Bare(g);
    BareNumeral(f);
    PaddedIsWholeAndFraction(tiyn);
    assert tiyn / 100 == 0 ==> g == "0";
  }

  lemma SignInFront(a: int)
    ensures a < 0 ==> Printed(a) == "-" + Printed(Abs(a))
    ensures Printed(a)[0] == '-' <==> a < 0
  {
    var x := Abs(a);
    var g, f := Grouped(x / 100), Two(x % 100);
    GroupedMatches(x / 100);
    assert IsDigit(Decimal(x / 100)[0]);
    assert Printed(x) == g + "," + f by { assert "" + g == g; }
    assert "-" + g + "," + f == "-" + (g + "," + f);
  }

  /** Two amounts never print alike, negative ones included. */
  lemma PrintedInjective(a: int, b: int)
    requires Printed(a) == Printed(b)
    ensures a == b
  {
    SignInFront(a);
    SignInFront(b);
    assert a < 0 ==> Printed(a)[1..] == Printed(Abs(a));
    assert b < 0 ==> Printed(b)[1..] == Printed(Abs(b));
    PrintedSaysTheAmount(Abs(a));
    PrintedSaysTheAmount(Abs(b));
  }

  lemma {:induction false} GroupedCovers(w: string)
    requires IsGrouped(w) && (w[0] != '0' || |w| == 1)
    ensures IsNumeral(Bare(w)) && w == Grouped(Num(Bare(w)))
    ensures w[0] != '0' ==> Num(Bare(w)) > 0
  {
    var n := |w|;
    if n <= 3 {
      BareNumeral(w);
      NumeralIsDecimal(w);
      NumBound3(w);
    } else {
      var u, t := w[..n - 4], w[n - 3..];
      GroupedCovers(u);
      assert w == u + " " + t;
      BareAppend(u + " ", t);
      BareAppend(u, " ");
      assert Bare(" ") == "" by { assert " "[1..] == ""; }
      assert Bare(u) + "" == Bare(u);
      BareNumeral(t);
      NumOfThree(Bare(u), t);
    }
  }

  lemma NumBound3(w: string)
    requires 0 < |w| <= 3 && IsNumeral(w)
    ensures Num(w) < 1000
  {
    var n := |w|;
    assert Num(w) == 10 * Num(w[..n - 1]) + DigitValue(w[n - 1]);
    if n > 1 {
      assert w[..n - 1][..n - 2] == w[..n - 2];
      assert Num(w[..n - 1]) == 10 * Num(w[..n - 2]) + DigitValue(w[n - 2]);
      if n > 2 {
        assert w[..1][..0] == "";
        assert Num(w[..1]) == DigitValue(w[0]);
      }
    }
  }

  lemma ThreeOfDigits(u: nat, a: nat, b: nat, c: nat)
    requires a < 10 && b < 10 && c < 10
    ensures (1000 * u + 100 * a + 10 * b + c) / 1000 == u
    ensures Three((1000 * u + 100 * a + 10 * b + c) % 1000) == [DigitChar(a), DigitChar(b), DigitChar(c)]
  {
    var m := 100 * a + 10 * b + c;
    assert (1000 * u + m) % 1000 == m;
    assert m / 100 == a && m / 10 == 10 * a + b && m % 10 == c;
    assert (10 * a + b) % 10 == b;
  }

  lemma NumOfThree(u: string, t: string)
    requires IsNumeral(u) && IsNumeral(t) && |t| == 3
    ensures IsNumeral(u + t) && Num(u + t) / 1000 == Num(u) && Three(Num(u + t) % 1000) == t
  {
    var a, b, c := DigitValue(t[0]), DigitValue(t[1]), DigitValue(t[2]);
    NumAppend(u, t[0]);
    NumAppend(u + [t[0]], t[1]);
    NumAppend(u + [t[0]] + [t[1]], t[2]);
    assert u + [t[0]] + [t[1]] + [t[2]] == u + t;
    ThreeOfDigits(Num(u), a, b, c);
    assert t == [DigitChar(a), DigitChar(b), DigitChar(c)];
  }

  lemma TwoOfNumeral(f: string)
    requires |f| == 2 && IsNumeral(f)
    ensures Num(f) < 100 && Two(Num(f)) == f
  {
    var a, b := DigitValue(f[0]), DigitValue(f[1]);
    NumAppend("", f[0]);
    NumAppend("" + [f[0]], f[1]);
    assert "" + [f[0]] + [f[1]] == f;
    assert Num(f) == 10 * a + b;
    assert (10 * a + b) / 10 == a && (10 * a + b) % 10 == b;
  }

  lemma GrammarIsPrinted(s: string) returns (tiyn: nat)
    requires PrintedMoney(s) && NoLeadingZero(s)
    ensures s == Printed(tiyn)
  {
    var w, f := s[..|s| - 3], s[|s| - 2..];
    assert s == w + "," + f;
    GroupedHasNoComma(w);
    assert |w| > 1 ==> w[1] in w && s[1] == w[1];
    GroupedCovers(w);
    TwoOfNumeral(f);
    var n := Num(Bare(w));
    tiyn := 100 * n + Num(f);
    assert tiyn / 100 == n && tiyn % 100 == Num(f);
    assert "" + w == w;
  }

  /** The strings money() prints are exactly the grammar's strings without a superfluous zero. */
  lemma PrintedRange(s: string)
    ensures PrintedMoney(s) && NoLeadingZero(s) <==> exists tiyn: nat :: s == Printed(tiyn)
  {
    if PrintedMoney(s) && NoLeadingZero(s) {
      var tiyn := GrammarIsPrinted(s);
    }
    if tiyn: nat :| s == Printed(tiyn) {
      PrintedSaysTheAmount(tiyn);
    }
  }

  lemma {:induction false} GroupedHasNoComma(w: string)
    requires IsGrouped(w)
    ensures ',' !in w
  {
    var n := |w|;
    if n > 3 {
      GroupedHasNoComma(w[..n - 4]);
      assert w == w[..n - 4] + [' '] + w[n - 3..];
    }
  }
}
