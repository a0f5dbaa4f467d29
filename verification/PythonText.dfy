/** The string methods of Python the render gate leans on. */
module PythonText {
  import opened Strings

  /** The characters str.strip() and str.isspace() treat as white space. */
  predicate IsSpace(c: char) {
    '\t' <= c <= '\r' || '\U{1c}' <= c <= ' ' || c == '\U{85}' || c == '\U{a0}' || c == '\U{1680}' ||
    '\U{2000}' <= c <= '\U{200a}' || c == '\U{2028}' || c == '\U{2029}' || c == '\U{202f}' ||
    c == '\U{205f}' || c == '\U{3000}'
  }

  function LeftStripped(s: string): string {
    if s != "" && IsSpace(s[0]) then LeftStripped(s[1..]) else s
  }

  function RightStripped(s: string): string {
    if s != "" && IsSpace(s[|s| - 1]) then RightStripped(s[..|s| - 1]) else s
  }

  function Stripped(s: string): string {
    RightStripped(LeftStripped(s))
  }

  /** No white space at either end. */
  predicate Trimmed(s: string) {
    s != "" ==> !IsSpace(s[0]) && !IsSpace(s[|s| - 1])
  }

  lemma {:induction false} StrippedIsTrimmed(s: string)
    ensures Trimmed(Stripped(s))
    ensures Stripped(s) == s <==> Trimmed(s)
    ensures |Stripped(s)| <= |s|
  {
    LeftStrip(s);
    RightStrip(LeftStripped(s));
  }

  /** Only white space is stripped to nothing. */
  lemma {:induction false} BlankIff(s: string)
    ensures Stripped(s) == "" <==> forall i :: 0 <= i < |s| ==> IsSpace(s[i])
    decreases |s|
  {
    if s != "" {
      if IsSpace(s[0]) {
        BlankIff(s[1..]);
        assert s == [s[0]] + s[1..];
      } else {
        RightStripBlank(s);
      }
    }
  }

  lemma {:induction false} RightStripBlank(s: string)
    requires s != "" && !IsSpace(s[0])
    ensures RightStripped(s) != ""
  {
    if IsSpace(s[|s| - 1]) {
      RightStripBlank(s[..|s| - 1]);
    }
  }

  lemma {:induction false} LeftStrip(s: string)
    ensures LeftStripped(s) == "" || !IsSpace(LeftStripped(s)[0])
    ensures LeftStripped(s) == s <==> s == "" || !IsSpace(s[0])
    ensures |LeftStripped(s)| <= |s|
  {
    if s != "" && IsSpace(s[0]) {
      LeftStrip(s[1..]);
    }
  }

  lemma {:induction false} RightStrip(s: string)
    ensures RightStripped(s) == "" || !IsSpace(RightStripped(s)[|RightStripped(s)| - 1])
    ensures RightStripped(s) == s <==> s == "" || !IsSpace(s[|s| - 1])
    ensures RightStripped(s) <= s
  {
    if s != "" && IsSpace(s[|s| - 1]) {
      RightStrip(s[..|s| - 1]);
    }
  }

  // ---------------------------------------------------------------------------
  // What float() reads
  // ---------------------------------------------------------------------------

  /** Digits, single underscores allowed between them. */
  predicate IsDigitPart(s: string) {
    s != "" && IsDigit(s[0]) && IsDigit(s[|s| - 1]) &&
    forall i :: 0 <= i < |s| && !IsDigit(s[i]) ==> s[i] == '_' && i + 1 < |s| && IsDigit(s[i + 1])
  }

  /** The position of the first character that is one of two, or the length. */
  function FirstOf(s: string, c: char, d: char): (n: nat)
    ensures n <= |s|
  {
    if s == "" || s[0] == c || s[0] == d then 0 else 1 + FirstOf(s[1..], c, d)
  }

  function Unsigned(s: string): string {
    if s != "" && (s[0] == '+' || s[0] == '-') then s[1..] else s
  }

  /** Digits, a point, digits: the point may be missing, and so may either part beside it, not both. */
  predicate IsMantissa(s: string) {
    var dot := FirstOf(s, '.', '.');
    if dot == |s| then IsDigitPart(s)
    else
      var whole, fraction := s[..dot], s[dot + 1..];
      whole + fraction != "" && (whole == "" || IsDigitPart(whole)) && (fraction == "" || IsDigitPart(fraction))
  }

  function LowerCase(s: string): string {
    seq(|s|, i requires 0 <= i < |s| =>
      if 'A' <= s[i] <= 'Z' then (s[i] as int + 32) as char else s[i])
  }

  /** The strings float() accepts, with ASCII digits. */
  predicate IsFloat(s: string) {
    var t := Unsigned(Stripped(s));
    var e := FirstOf(t, 'e', 'E');
    LowerCase(t) in {"inf", "infinity", "nan"} ||
    if e == |t| then IsMantissa(t) else IsMantissa(t[..e]) && IsDigitPart(Unsigned(t[e + 1..]))
  }
}
