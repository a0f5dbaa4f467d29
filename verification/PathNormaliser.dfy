/**
 Request paths as they go into metric labels and logs: every id-shaped segment becomes
 `:id`, and the single-use token of an account route becomes `:token`.
 */
module PathNormaliser {
  import opened Strings

  // ---------------------------------------------------------------------------
  // Segments
  // ---------------------------------------------------------------------------

  /** The number of characters before the next slash. */
  function RunLength(p: string): (n: nat)
    ensures n <= |p|
  {
    if p == [] || p[0] == '/' then 0 else 1 + RunLength(p[1..])
  }

  /** The non-empty pieces between slashes. */
  function Segments(p: string): seq<string>
    decreases |p|
  {
    if p == [] then []
    else if p[0] == '/' then Segments(p[1..])
    else [p[..RunLength(p)]] + Segments(p[RunLength(p)..])
  }

  function Join(segs: seq<string>): string {
    if segs == [] then "" else "/" + segs[0] + Join(segs[1..])
  }

  // ---------------------------------------------------------------------------
  // What a segment is
  // ---------------------------------------------------------------------------

  predicate HexDigit(c: char) {
    '0' <= c <= '9' || 'a' <= c <= 'f' || 'A' <= c <= 'F'
  }

  predicate UuidCharAt(s: string, i: nat)
    requires i < |s|
  {
    if i == 8 || i == 13 || i == 18 || i == 23 then s[i] == '-' else HexDigit(s[i])
  }

  /** 8-4-4-4-12 hexadecimal digits of either case. */
  predicate UuidShaped(s: string) {
    |s| == 36 && forall i :: 0 <= i < 36 ==> UuidCharAt(s, i)
  }

  predicate AllDigits(s: string) {
    s != [] && IsNumeral(s)
  }

  predicate IdShaped(s: string) {
    AllDigits(s) || UuidShaped(s)
  }

  predicate VersionSegment(s: string) {
    |s| >= 2 && s[0] == 'v' && IsNumeral(s[1..])
  }

  /** Index of the resource after /api or /api/vN. */
  function Base(segs: seq<string>): nat {
    if |segs| >= 2 && VersionSegment(segs[1]) then 2 else 1
  }

  predicate TokenVerb(s: string) {
    s == "confirm" || s == "reset-password" || s == "change-email" || s == "join-from-invite"
  }

  /** /api[/vN]/account/<verb>/<token>, and nothing after it. */
  predicate TokenRoute(segs: seq<string>) {
    var base := Base(segs);
    |segs| == base + 3 && segs[0] == "api" && segs[base] == "account" && TokenVerb(segs[base + 1])
  }

  predicate IsTokenAt(segs: seq<string>, k: nat) {
    TokenRoute(segs) && k == Base(segs) + 2
  }

  function Rewritten(segs: seq<string>): seq<string> {
    seq(|segs|, k requires 0 <= k < |segs| =>
      if IsTokenAt(segs, k) then ":token" else if IdShaped(segs[k]) then ":id" else segs[k])
  }

  function Normal(path: string): string {
    var segs := Segments(path);
    if segs == [] then "/" else Join(Rewritten(segs))
  }

  // ---------------------------------------------------------------------------
  // The loops
  // ---------------------------------------------------------------------------

  method IsUuidSegment(s: string) returns (yes: bool)
    ensures yes == UuidShaped(s)
  {
    if |s| != 36 {
      return false;
    }
    for i := 0 to 36
      invariant forall j :: 0 <= j < i ==> UuidCharAt(s, j)
    {
      var c := s[i];
      if i == 8 || i == 13 || i == 18 || i == 23 {
        if c != '-' {
          assert !UuidCharAt(s, i);
          return false;
        }
      } else if !HexDigit(c) {
        assert !UuidCharAt(s, i);
        return false;
      }
    }
    return true;
  }

  method Split(path: string) returns (segs: seq<string>)
    ensures segs == Segments(path)
  {
    segs := [];
    var i := 0;
    while i < |path|
      invariant i <= |path|
      invariant segs + Segments(path[i..]) == Segments(path)
    {
      if path[i] == '/' {
        assert path[i..][1..] == path[i + 1..];
        i := i + 1;
        continue;
      }
      var j := i;
      while j < |path| && path[j] != '/'
        invariant i <= j <= |path|
        invariant RunLength(path[i..]) == j - i + RunLength(path[j..])
      {
        assert path[j..][1..] == path[j + 1..];
        j := j + 1;
      }
      assert path[i..][..j - i] == path[i..j] && path[i..][j - i..] == path[j..];
      segs := segs + [path[i..j]];
      i := j;
    }
  }

  method IsAllDigits(s: string) returns (allDigits: bool)
    ensures allDigits == AllDigits(s)
  {
    allDigits := s != [];
    for c := 0 to |s|
      invariant allDigits <==> s != [] && forall j :: 0 <= j < c ==> IsDigit(s[j])
    {
      if !IsDigit(s[c]) {
        allDigits := false;
        break;
      }
    }
  }

  method AccountTokenRoute(segs: seq<string>, base: nat) returns (yes: bool)
    requires base == Base(segs)
    ensures yes == TokenRoute(segs)
  {
    yes := |segs| == base + 3 && segs[0] == "api" && segs[base] == "account" &&
      (segs[base + 1] == "confirm" || segs[base + 1] == "reset-password" ||
       segs[base + 1] == "change-email" || segs[base + 1] == "join-from-invite");
  }

  lemma JoinStep(out: string, want: seq<string>, k: nat)
    requires k < |want|
    ensures out + Join(want[k..]) == out + "/" + want[k] + Join(want[k + 1..])
  {
    assert want[k..][0] == want[k] && want[k..][1..] == want[k + 1..];
    assert out + ("/" + want[k] + Join(want[k + 1..])) == out + "/" + want[k] + Join(want[k + 1..]);
  }

  method NormalizePathForMetrics(path: string) returns (out: string)
    ensures out == Normal(path)
  {
    var segs := Split(path);
    var base := if |segs| >= 2 && VersionSegment(segs[1]) then 2 else 1;
    var tokenIdx := base + 2;
    var accountTokenRoute := AccountTokenRoute(segs, base);
    out := "";
    ghost var want := Rewritten(segs);
    assert want[0..] == want;
    for k := 0 to |segs|
      invariant out + Join(want[k..]) == Join(want)
      invariant k > 0 ==> out != ""
    {
      JoinStep(out, want, k);
      out := out + "/";
      if accountTokenRoute && k == tokenIdx {
        out := out + ":token";
        continue;
      }
      var allDigits := IsAllDigits(segs[k]);
      var isUuid := IsUuidSegment(segs[k]);
      if allDigits || isUuid {
        out := out + ":id";
      } else {
        out := out + segs[k];
      }
    }
    if out == "" {
      out := "/";
    }
  }

  // ---------------------------------------------------------------------------
  // Theorems
  // ---------------------------------------------------------------------------

  predicate Proper(s: string) { s != [] && '/' !in s }

  ghost predicate AllProper(segs: seq<string>) {
    forall k :: 0 <= k < |segs| ==> Proper(segs[k])
  }

  lemma {:induction false} RunLengthStops(s: string, rest: string)
    requires '/' !in s && (rest == [] || rest[0] == '/')
    ensures RunLength(s + rest) == |s|
  {
    if s == [] {
      assert s + rest == rest;
    } else {
      assert (s + rest)[1..] == s[1..] + rest;
      RunLengthStops(s[1..], rest);
    }
  }

  lemma {:induction false} RunIsSlashFree(p: string)
    ensures '/' !in p[..RunLength(p)]
    ensures p != [] && p[0] != '/' ==> RunLength(p) > 0
  {
    if p != [] && p[0] != '/' {
      RunIsSlashFree(p[1..]);
      assert p[..RunLength(p)] == [p[0]] + p[1..][..RunLength(p[1..])];
    }
  }

  lemma {:induction false} SegmentsAreProper(p: string)
    ensures AllProper(Segments(p))
    decreases |p|
  {
    if p != [] {
      if p[0] == '/' {
        SegmentsAreProper(p[1..]);
      } else {
        RunIsSlashFree(p);
        SegmentsAreProper(p[RunLength(p)..]);
      }
    }
  }

  lemma {:induction false} SplitUndoesJoin(segs: seq<string>)
    requires AllProper(segs)
    ensures Segments(Join(segs)) == segs
  {
    if segs != [] {
      SplitUndoesJoin(segs[1..]);
      assert Proper(segs[0]);
      FirstSegment(segs[0], Join(segs[1..]));
      assert segs == [segs[0]] + segs[1..];
    }
  }

  lemma FirstSegment(s: string, rest: string)
    requires Proper(s) && (rest == [] || rest[0] == '/')
    ensures Segments("/" + s + rest) == [s] + Segments(rest)
  {
    var p := s + rest;
    assert "/" + s + rest == "/" + p && ("/" + p)[1..] == p;
    RunLengthStops(s, rest);
    assert p[..|s|] == s && p[|s|..] == rest;
    assert p[0] == s[0] && s[0] in s;
  }

  lemma PlaceholdersAreFixed()
    ensures Proper(":token") && !IdShaped(":token") && !TokenVerb(":token") && !VersionSegment(":token")
    ensures Proper(":id") && !IdShaped(":id") && !TokenVerb(":id") && !VersionSegment(":id")
  {
    assert !IsDigit(":token"[0]) && !IsDigit(":id"[0]);
  }

  /** The words the route test looks at are never id-shaped, so rewriting does not touch them. */
  lemma RouteWordsAreKept(s: string)
    requires s == "api" || s == "account" || TokenVerb(s) || VersionSegment(s)
    ensures !IdShaped(s)
  {
    assert !IsDigit(s[0]);
    if |s| == 36 && VersionSegment(s) {
      assert !UuidCharAt(s, 0);
    }
  }

  lemma RewritingKeepsTheRoute(segs: seq<string>)
    requires AllProper(segs)
    ensures AllProper(Rewritten(segs))
    ensures Base(Rewritten(segs)) == Base(segs)
    ensures TokenRoute(Rewritten(segs)) <==> TokenRoute(segs)
  {
    PlaceholdersAreFixed();
    var out, base := Rewritten(segs), Base(segs);
    assert forall k :: 0 <= k < |segs| ==> out[k] == segs[k] || out[k] == ":token" || out[k] == ":id";
    if |segs| >= 2 {
      if VersionSegment(segs[1]) { RouteWordsAreKept(segs[1]); }
      assert !IsTokenAt(segs, 1);
    }
    forall k | 0 <= k < |segs| && !IsTokenAt(segs, k) &&
               (segs[k] == "api" || segs[k] == "account" || TokenVerb(segs[k]))
      ensures out[k] == segs[k]
    {
      RouteWordsAreKept(segs[k]);
    }
    assert ":token" != "api" && ":token" != "account" && ":id" != "api" && ":id" != "account";
  }

  /** One segment out for one segment in; none is empty, all digits, or a UUID. */
  lemma OutputSegments(path: string)
    ensures var segs, out := Segments(path), Segments(Normal(path));
            && out == Rewritten(segs) && |out| == |segs|
            && (forall k :: 0 <= k < |out| ==> Proper(out[k]) && !IdShaped(out[k]))
            && forall k :: 0 <= k < |out| ==>
                 out[k] == if IsTokenAt(segs, k) then ":token" else if IdShaped(segs[k]) then ":id" else segs[k]
  {
    var segs := Segments(path);
    SegmentsAreProper(path);
    RewritingKeepsTheRoute(segs);
    PlaceholdersAreFixed();
    if segs == [] {
      assert "/"[1..] == "";
    } else {
      SplitUndoesJoin(Rewritten(segs));
    }
  }

  lemma NormalisingTwiceIsNormalisingOnce(path: string)
    ensures Normal(Normal(path)) == Normal(path)
  {
    var segs := Segments(path);
    OutputSegments(path);
    SegmentsAreProper(path);
    RewritingKeepsTheRoute(segs);
    PlaceholdersAreFixed();
    assert Rewritten(Rewritten(segs)) == Rewritten(segs);
  }

  /** Equal up to concrete ids and, on an account token route, up to the token. */
  ghost predicate SameShape(segs: seq<string>, other: seq<string>) {
    && |segs| == |other|
    && forall k :: 0 <= k < |segs| ==>
         segs[k] == other[k] || (IdShaped(segs[k]) && IdShaped(other[k])) || IsTokenAt(segs, k)
  }

  lemma SameShapeSameRoute(segs: seq<string>, other: seq<string>)
    requires SameShape(segs, other)
    ensures Base(segs) == Base(other) && (TokenRoute(segs) <==> TokenRoute(other))
  {
    forall k | 0 <= k < |segs| && !IsTokenAt(segs, k)
      ensures segs[k] == "api" <==> other[k] == "api"
      ensures segs[k] == "account" <==> other[k] == "account"
      ensures TokenVerb(segs[k]) <==> TokenVerb(other[k])
      ensures VersionSegment(segs[k]) <==> VersionSegment(other[k])
    {
      if segs[k] == "api" || segs[k] == "account" || TokenVerb(segs[k]) || VersionSegment(segs[k]) {
        RouteWordsAreKept(segs[k]);
      }
      if other[k] == "api" || other[k] == "account" || TokenVerb(other[k]) || VersionSegment(other[k]) {
        RouteWordsAreKept(other[k]);
      }
    }
  }

  /** Neither concrete ids nor the token of an account route show in the output. */
  lemma IdsAndTokensDoNotShow(path: string, other: string)
    requires SameShape(Segments(path), Segments(other))
    ensures Normal(path) == Normal(other)
  {
    var s, t := Segments(path), Segments(other);
    SameShapeSameRoute(s, t);
    assert Rewritten(s) == Rewritten(t);
  }

  /** The four routes that end in a token, and a version segment such as v1. */
  predicate AccountVerb(s: string) { s in {"confirm", "reset-password", "change-email", "join-from-invite"} }

  predicate Version(s: string) { |s| >= 2 && s[0] == 'v' && forall i :: 1 <= i < |s| ==> '0' <= s[i] <= '9' }

  /** A token is looked for at the end of the four account routes, version segment or not, and nowhere else. */
  lemma TokenRoutesAreFound(segs: seq<string>, k: nat)
    ensures IsTokenAt(segs, k) <==>
              || (|segs| == 4 && k == 3 && segs[0] == "api" && segs[1] == "account" && AccountVerb(segs[2]))
              || (|segs| == 5 && k == 4 && segs[0] == "api" && Version(segs[1]) && segs[2] == "account" &&
                  AccountVerb(segs[3]))
  {
    assert !VersionSegment("account") && "account" != "api";
    if |segs| >= 2 {
      VersionsAre(segs[1]);
    }
  }

  lemma VersionsAre(s: string)
    ensures VersionSegment(s) <==> Version(s)
  {
    if VersionSegment(s) {
      forall i | 1 <= i < |s| ensures '0' <= s[i] <= '9' {
        assert IsDigit(s[1..][i - 1]);
      }
    }
  }

  /** On such a route the label is the same for every token, and shows none of it. */
  lemma TokenDoesNotShow(segs: seq<string>, k: nat, other: string)
    requires AllProper(segs) && k < |segs| && IsTokenAt(segs, k) && Proper(other)
    ensures Normal(Join(segs)) == Normal(Join(segs[k := other])) == Join(Rewritten(segs))
    ensures Rewritten(segs)[k] == ":token"
  {
    SplitUndoesJoin(segs);
    SplitUndoesJoin(segs[k := other]);
    IdsAndTokensDoNotShow(Join(segs), Join(segs[k := other]));
  }

  /** Nothing else is merged: segments that differ in the input and agree in the output were ids or tokens. */
  lemma OnlyIdsAndTokensAreMerged(path: string, other: string, k: nat)
    requires Normal(path) == Normal(other) && k < |Segments(path)|
    ensures |Segments(other)| == |Segments(path)|
    ensures var a, b := Segments(path)[k], Segments(other)[k];
            a == b || IdShaped(a) || IdShaped(b) || IsTokenAt(Segments(path), k) || IsTokenAt(Segments(other), k)
  {
    OutputSegments(path);
    OutputSegments(other);
    assert Rewritten(Segments(path))[k] == Rewritten(Segments(other))[k];
  }
}
