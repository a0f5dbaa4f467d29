/** String facts several components share: byte order, and decimal numerals. */
module Strings {

  // ---------------------------------------------------------------------------
  // Lexicographic order, as std::string and Python compare
  // ---------------------------------------------------------------------------

  predicate Less(a: string, b: string) {
    if b == [] then false
    else if a == [] then true
    else a[0] < b[0] || (a[0] == b[0] && Less(a[1..], b[1..]))
  }

  lemma {:induction false} LessIsTotal(a: string, b: string)
    ensures Less(a, b) || Less(b, a) || a == b
    ensures !(Less(a, b) && Less(b, a))
    ensures !Less(a, a)
  {
    if a != [] {
      LessIsTotal(a[1..], a[1..]);
      if b != [] && a[0] == b[0] {
        LessIsTotal(a[1..], b[1..]);
        assert a == [a[0]] + a[1..] && b == [b[0]] + b[1..];
      }
    }
  }

  lemma {:induction false} LessIsTransitive(a: string, b: string, c: string)
    requires Less(a, b) && Less(b, c)
    ensures Less(a, c)
  {
    if a != [] && a[0] == b[0] == c[0] {
      LessIsTransitive(a[1..], b[1..], c[1..]);
    }
  }

  predicate IsLeast(m: string, s: set<string>) {
    m in s && forall x :: x in s ==> x == m || Less(m, x)
  }

  lemma {:induction false} LeastExists(s: set<string>)
    requires s != {}
    ensures exists m :: IsLeast(m, s)
  {
    var x :| x in s;
    var rest := s - {x};
    if rest == {} {
      assert s == rest + {x};
      assert IsLeast(x, s);
    } else {
      LeastExists(rest);
      var m :| IsLeast(m, rest);
      LessIsTotal(x, m);
      if Less(x, m) {
        forall y | y in s && y != x ensures Less(x, y) {
          if y != m { LessIsTransitive(x, m, y); }
        }
        assert IsLeast(x, s);
      } else {
        assert IsLeast(m, s);
      }
    }
  }

  lemma LeastIsUnique(s: set<string>, m: string, n: string)
    requires IsLeast(m, s) && IsLeast(n, s)
    ensures m == n
  {
    LessIsTotal(m, n);
  }

  /** The elements of a set in ascending order: how a std::map iterates over its keys. */
  function SortedKeys(s: set<string>): (keys: seq<string>)
    ensures forall k :: k in keys <==> k in s
    decreases s
  {
    if s == {} then []
    else
      LeastExists(s);
      assert forall m, n :: IsLeast(m, s) && IsLeast(n, s) ==> m == n by {
        forall m, n | IsLeast(m, s) && IsLeast(n, s) ensures m == n { LeastIsUnique(s, m, n); }
      }
      var m :| IsLeast(m, s);
      [m] + SortedKeys(s - {m})
  }

  ghost predicate Ascending(keys: seq<string>) {
    forall i, j :: 0 <= i < j < |keys| ==> Less(keys[i], keys[j])
  }

  lemma {:induction false} SortedKeysAscend(s: set<string>)
    ensures Ascending(SortedKeys(s))
    decreases s
  {
    if s != {} {
      var keys := SortedKeys(s);
      assert IsLeast(keys[0], s) && keys == [keys[0]] + SortedKeys(s - {keys[0]});
      SortedKeysAscend(s - {keys[0]});
      forall j | 1 <= j < |keys| ensures Less(keys[0], keys[j]) {
        assert keys[j] == SortedKeys(s - {keys[0]})[j - 1];
        assert keys[j] in s - {keys[0]};
      }
    }
  }

  lemma {:induction false} LessAppend(a: string, b: string, c: string, d: string)
    requires |a| == |c|
    ensures Less(a + b, c + d) <==> Less(a, c) || (a == c && Less(b, d))
  {
    if a == [] {
      assert a + b == b && c + d == d;
    } else {
      assert (a + b)[1..] == a[1..] + b && (c + d)[1..] == c[1..] + d;
      assert a == [a[0]] + a[1..] && c == [c[0]] + c[1..];
      LessAppend(a[1..], b, c[1..], d);
    }
  }

  // ---------------------------------------------------------------------------
  // Decimal numerals
  // ---------------------------------------------------------------------------

  predicate IsDigit(c: char) { '0' <= c <= '9' }

  function DigitValue(c: char): nat
    requires IsDigit(c)
  {
    c as int - '0' as int
  }

  function DigitChar(n: nat): (c: char)
    requires n < 10
    ensures IsDigit(c) && DigitValue(c) == n
  {
    ('0' as int + n) as char
  }

  predicate IsNumeral(s: string) {
    forall i :: 0 <= i < |s| ==> IsDigit(s[i])
  }

  /** Two digits, the first of them 0 for a number below ten. */
  function Two(n: nat): (s: string)
    requires n < 100
    ensures |s| == 2 && IsNumeral(s)
  {
    [DigitChar(n / 10), DigitChar(n % 10)]
  }

  /** The number a string of digits denotes, leading zeros allowed. */
  function Num(s: string): nat
    requires IsNumeral(s)
  {
    if s == [] then 0 else 10 * Num(s[..|s| - 1]) + DigitValue(s[|s| - 1])
  }

  /** The shortest numeral of n, as std::to_string and str() print it. */
  function Decimal(n: nat): (s: string)
    ensures s != [] && IsNumeral(s)
  {
    if n < 10 then [DigitChar(n)] else Decimal(n / 10) + [DigitChar(n % 10)]
  }

  lemma {:induction false} DecimalDenotes(n: nat)
    ensures Num(Decimal(n)) == n
    ensures n > 0 ==> Decimal(n)[0] != '0'
  {
    var s := Decimal(n);
    if n < 10 {
      assert s[..0] == [];
    } else {
      DecimalDenotes(n / 10);
      assert s[..|s| - 1] == Decimal(n / 10);
    }
  }

  lemma DecimalInjective(m: nat, n: nat)
    requires Decimal(m) == Decimal(n)
    ensures m == n
  {
    DecimalDenotes(m);
    DecimalDenotes(n);
  }

  /** Numerals of one length compare as strings the way they compare as numbers. */
  lemma {:induction false} NumeralOrder(a: string, b: string)
    requires IsNumeral(a) && IsNumeral(b) && |a| == |b|
    ensures Less(a, b) <==> Num(a) < Num(b)
    ensures a == b <==> Num(a) == Num(b)
  {
    if a != [] {
      var n := |a| - 1;
      NumeralOrder(a[..n], b[..n]);
      assert a == a[..n] + [a[n]] && b == b[..n] + [b[n]];
      LessAppend(a[..n], [a[n]], b[..n], [b[n]]);
    }
  }

  lemma NumAppend(s: string, c: char)
    requires IsNumeral(s) && IsDigit(c)
    ensures Num(s + [c]) == 10 * Num(s) + DigitValue(c)
  {
    assert (s + [c])[..|s|] == s;
  }

  lemma TenfoldSplits(m: nat, d: nat)
    requires d < 10
    ensures (10 * m + d) / 10 == m && (10 * m + d) % 10 == d
  {
  }

  /** A numeral that does not start with 0 is the decimal form of what it denotes. */
  lemma {:induction false} NumeralIsDecimal(s: string)
    requires s != [] && IsNumeral(s) && (s[0] != '0' || |s| == 1)
    ensures Decimal(Num(s)) == s
    ensures s[0] != '0' ==> Num(s) > 0
  {
    var n := |s| - 1;
    if n == 0 {
      assert s[..0] == [];
    } else {
      NumeralIsDecimal(s[..n]);
      TenfoldSplits(Num(s[..n]), DigitValue(s[n]));
      assert s == s[..n] + [s[n]];
    }
  }
}
