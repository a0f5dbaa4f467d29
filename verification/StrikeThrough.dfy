/**
 Layer 4 of the render gate: a word is struck through when a dark band crosses its whole
 box, sticks out on both sides, and has the word's own ink above and below it in the same
 pixel columns.
 */
module StrikeThrough {
  import opened Wrappers

  const INK_LEVEL: nat := 200
  const MAX_STRIKE_FINDINGS: nat := 8

  /** A page raster, one byte per pixel, row by row; 0 is black. */
  datatype Raster = Raster(width: nat, height: nat, px: seq<nat>)

  ghost predicate WellFormed(img: Raster) {
    |img.px| == img.width * img.height
  }

  /** A word's box after scaling to pixels and rounding, before it is clipped to the page. */
  datatype Box = Box(left: int, right: int, top: int, bottom: int)

  /** A page: its raster, how many pixels a rule must overhang, and its words' boxes. */
  datatype Page = Page(img: Raster, overhang: nat, words: seq<Box>)

  lemma PixelInRange(img: Raster, y: nat, x: nat)
    requires WellFormed(img) && x < img.width && y < img.height
    ensures 0 <= y * img.width + x < |img.px|
  {
    assert (y + 1) * img.width <= img.height * img.width;
  }

  predicate Ink(img: Raster, y: nat, x: nat)
    requires WellFormed(img) && x < img.width && y < img.height
  {
    PixelInRange(img, y, x);
    img.px[y * img.width + x] < INK_LEVEL
  }

  // ---------------------------------------------------------------------------
  // What the check looks for
  // ---------------------------------------------------------------------------

  /** The clipped box and its reach to both sides. */
  datatype Area = Area(x0: nat, x1: nat, y0: nat, y1: nat, ex0: nat, ex1: nat)

  ghost predicate Inside(img: Raster, a: Area) {
    WellFormed(img) && a.ex0 <= a.x0 <= a.x1 <= a.ex1 < img.width && a.y0 <= a.y1 < img.height
  }

  /** Row y is ink from column a to column b. */
  predicate Dark(img: Raster, y: nat, a: nat, b: nat)
    requires WellFormed(img) && b < img.width && y < img.height
  {
    forall x :: a <= x <= b ==> Ink(img, y, x)
  }

  /** The first row of the box that is dark across the box and its overhang. */
  ghost predicate IsSeed(img: Raster, a: Area, seed: nat)
    requires Inside(img, a)
  {
    && a.y0 <= seed <= a.y1 && Dark(img, seed, a.ex0, a.ex1)
    && forall y :: a.y0 <= y < seed ==> !Dark(img, y, a.ex0, a.ex1)
  }

  /** The rule: the maximal run of rows around the seed that are dark across the box. */
  ghost predicate IsRule(img: Raster, a: Area, seed: nat, top: nat, bottom: nat)
    requires Inside(img, a) && a.y0 <= seed <= a.y1
  {
    && a.y0 <= top <= seed <= bottom <= a.y1
    && (forall y :: top <= y <= bottom ==> Dark(img, y, a.x0, a.x1))
    && (top > a.y0 ==> !Dark(img, top - 1, a.x0, a.x1))
    && (bottom < a.y1 ==> !Dark(img, bottom + 1, a.x0, a.x1))
  }

  /** Column x has ink in some row of from..to-1. */
  ghost predicate InkIn(img: Raster, x: nat, from: nat, to: nat)
    requires WellFormed(img) && x < img.width && to <= img.height
  {
    exists y: nat :: from <= y < to && Ink(img, y, x)
  }

  /** Some column of the box has ink above the rule and ink below it. */
  ghost predicate InkOnBothSides(img: Raster, a: Area, top: nat, bottom: nat)
    requires Inside(img, a) && a.y0 <= top <= bottom <= a.y1
  {
    exists x: nat :: a.x0 <= x <= a.x1 && InkIn(img, x, a.y0, top) && InkIn(img, x, bottom + 1, a.y1 + 1)
  }

  ghost predicate Struck(img: Raster, a: Area)
    requires Inside(img, a)
  {
    exists seed, top, bottom ::
      IsSeed(img, a, seed) && IsRule(img, a, seed, top, bottom) && InkOnBothSides(img, a, top, bottom)
  }

  lemma RuleIsUnique(img: Raster, a: Area, seed: nat, top: nat, bottom: nat, seed': nat, top': nat, bottom': nat)
    requires Inside(img, a) && IsSeed(img, a, seed) && IsRule(img, a, seed, top, bottom)
    requires IsSeed(img, a, seed') && IsRule(img, a, seed', top', bottom')
    ensures (seed, top, bottom) == (seed', top', bottom')
  {
  }

  // ---------------------------------------------------------------------------
  // The detector
  // ---------------------------------------------------------------------------

  method IsDark(img: Raster, y: nat, a: nat, b: nat) returns (dark: bool)
    requires WellFormed(img) && a <= b < img.width && y < img.height
    ensures dark == Dark(img, y, a, b)
  {
    for x := a to b + 1
      invariant forall i :: a <= i < x ==> Ink(img, y, i)
    {
      if !Ink(img, y, x) {
        return false;
      }
    }
    return true;
  }

  /** The columns of the box with ink in some row of from..to-1. */
  method InkedColumns(img: Raster, a: Area, from: nat, to: nat) returns (columns: set<nat>)
    requires Inside(img, a) && from <= to <= a.y1 + 1
    ensures forall x :: x in columns <==> a.x0 <= x <= a.x1 && InkIn(img, x, from, to)
  {
    columns := {};
    for y := from to to
      invariant forall x :: x in columns <==> a.x0 <= x <= a.x1 && InkIn(img, x, from, y)
    {
      var row := set x: nat | a.x0 <= x <= a.x1 && Ink(img, y, x);
      forall x: nat | a.x0 <= x <= a.x1
        ensures InkIn(img, x, from, y + 1) <==> InkIn(img, x, from, y) || Ink(img, y, x)
      {
      }
      columns := columns + row;
    }
  }

  method FindSeed(img: Raster, a: Area) returns (seed: Option<nat>)
    requires Inside(img, a)
    ensures seed.Some? ==> IsSeed(img, a, seed.value)
    ensures seed.None? ==> forall y :: a.y0 <= y <= a.y1 ==> !Dark(img, y, a.ex0, a.ex1)
  {
    for y := a.y0 to a.y1 + 1
      invariant forall i :: a.y0 <= i < y ==> !Dark(img, i, a.ex0, a.ex1)
    {
      var dark := IsDark(img, y, a.ex0, a.ex1);
      if dark {
        return Some(y);
      }
    }
    return None;
  }

  method GrowRule(img: Raster, a: Area, seed: nat) returns (top: nat, bottom: nat)
    requires Inside(img, a) && a.y0 <= seed <= a.y1 && Dark(img, seed, a.x0, a.x1)
    ensures IsRule(img, a, seed, top, bottom)
  {
    top := seed;
    while top > a.y0
      invariant a.y0 <= top <= seed
      invariant forall y :: top <= y <= seed ==> Dark(img, y, a.x0, a.x1)
    {
      var dark := IsDark(img, top - 1, a.x0, a.x1);
      if !dark { break; }
      top := top - 1;
    }
    bottom := seed;
    while bottom < a.y1
      invariant seed <= bottom <= a.y1
      invariant forall y :: top <= y <= bottom ==> Dark(img, y, a.x0, a.x1)
    {
      var dark := IsDark(img, bottom + 1, a.x0, a.x1);
      if !dark { break; }
      bottom := bottom + 1;
    }
  }

  /** The loop body for one word whose clipped box is not degenerate. */
  method IsStruck(img: Raster, a: Area) returns (struck: bool)
    requires Inside(img, a)
    ensures struck == Struck(img, a)
  {
    var seed := FindSeed(img, a);
    if seed.None? {
      return false;
    }
    SeedIsDark(img, a, seed.value);
    var top, bottom := GrowRule(img, a, seed.value);
    var above := InkedColumns(img, a, a.y0, top);
    var below := InkedColumns(img, a, bottom + 1, a.y1 + 1);
    struck := above * below != {};
    DecidesStruck(img, a, seed.value, top, bottom, above, below);
  }

  lemma SeedIsDark(img: Raster, a: Area, seed: nat)
    requires Inside(img, a) && IsSeed(img, a, seed)
    ensures Dark(img, seed, a.x0, a.x1)
  {
  }

  lemma DecidesStruck(img: Raster, a: Area, seed: nat, top: nat, bottom: nat, above: set<nat>, below: set<nat>)
    requires Inside(img, a) && IsSeed(img, a, seed) && IsRule(img, a, seed, top, bottom)
    requires forall x :: x in above <==> a.x0 <= x <= a.x1 && InkIn(img, x, a.y0, top)
    requires forall x :: x in below <==> a.x0 <= x <= a.x1 && InkIn(img, x, bottom + 1, a.y1 + 1)
    ensures above * below != {} <==> Struck(img, a)
  {
    if above * below != {} {
      var x :| x in above * below;
      assert InkOnBothSides(img, a, top, bottom);
    }
    if Struck(img, a) {
      var s, t, b :| IsSeed(img, a, s) && IsRule(img, a, s, t, b) && InkOnBothSides(img, a, t, b);
      RuleIsUnique(img, a, seed, top, bottom, s, t, b);
      var x: nat :| a.x0 <= x <= a.x1 && InkIn(img, x, a.y0, top) && InkIn(img, x, bottom + 1, a.y1 + 1);
      assert x in above * below;
    }
  }

  // ---------------------------------------------------------------------------
  // All words of all pages
  // ---------------------------------------------------------------------------

  /** The box clipped to the page; None when nothing of it is left. */
  function Clipped(img: Raster, overhang: nat, b: Box): (a: Option<Area>)
    requires WellFormed(img)
    ensures a.Some? ==> Inside(img, a.value)
  {
    var x0: nat := if b.left < 0 then 0 else b.left;
    var x1: int := if img.width - 1 < b.right then img.width - 1 else b.right;
    var y0: nat := if b.top < 0 then 0 else b.top;
    var y1: int := if img.height - 1 < b.bottom then img.height - 1 else b.bottom;
    if x1 <= x0 || y1 <= y0 then None
    else Some(Area(x0, x1, y0, y1,
                   if x0 < overhang then 0 else x0 - overhang,
                   if img.width - 1 < x1 + overhang then img.width - 1 else x1 + overhang))
  }

  /** A column of the page the box covers, a row likewise. */
  predicate ColumnOf(img: Raster, b: Box, x: int) { 0 <= x < img.width && b.left <= x <= b.right }

  predicate RowOf(img: Raster, b: Box, y: int) { 0 <= y < img.height && b.top <= y <= b.bottom }

  /** A column of the page within the overhang of those of the box. */
  ghost predicate ReachOf(img: Raster, overhang: nat, b: Box, x: int) {
    0 <= x < img.width && exists c :: ColumnOf(img, b, c) && c - overhang <= x <= c + overhang
  }

  /** The area is made of the page's columns and rows the box covers, and reaches as far as the overhang. */
  ghost predicate IsAreaOf(img: Raster, overhang: nat, b: Box, a: Area) {
    && (forall x: int :: a.x0 <= x <= a.x1 <==> ColumnOf(img, b, x))
    && (forall y: int :: a.y0 <= y <= a.y1 <==> RowOf(img, b, y))
    && (forall x: int :: a.ex0 <= x <= a.ex1 <==> ReachOf(img, overhang, b, x))
  }

  lemma ClippedColumns(img: Raster, overhang: nat, b: Box)
    requires WellFormed(img)
    ensures match Clipped(img, overhang, b)
            case Some(a) =>
              && ColumnOf(img, b, a.x0) && ColumnOf(img, b, a.x0 + 1)
              && RowOf(img, b, a.y0) && RowOf(img, b, a.y0 + 1)
            case None => forall x, y :: !(ColumnOf(img, b, x) && ColumnOf(img, b, x + 1) &&
                                          RowOf(img, b, y) && RowOf(img, b, y + 1))
  {
  }

  /** Clipping, read on page and box: a word is skipped if at most one column or one row is left of it. */
  lemma ClippingIsExact(img: Raster, overhang: nat, b: Box)
    requires WellFormed(img)
    ensures var a := Clipped(img, overhang, b);
            && (a.Some? ==> IsAreaOf(img, overhang, b, a.value))
            && (a.Some? <==> exists x, y :: ColumnOf(img, b, x) && ColumnOf(img, b, x + 1) &&
                                            RowOf(img, b, y) && RowOf(img, b, y + 1))
  {
    ClippedColumns(img, overhang, b);
    if Clipped(img, overhang, b).Some? {
      var a := Clipped(img, overhang, b).value;
      forall x: int | 0 <= x < img.width ensures a.ex0 <= x <= a.ex1 <==> ReachOf(img, overhang, b, x) {
        var nearest := if x < a.x0 then a.x0 else if x > a.x1 then a.x1 else x;
        assert ColumnOf(img, b, nearest);
      }
    }
  }

  /**
   A word that is flagged has a row, inside its box, inked at every column of the page within
   the overhang of the box.
   */
  lemma FlaggedIsCrossed(page: Page, b: Box) returns (y: nat)
    requires WellFormed(page.img) && WordStruck(page, b)
    ensures RowOf(page.img, b, y)
    ensures forall x: nat :: ReachOf(page.img, page.overhang, b, x) ==> Ink(page.img, y, x)
  {
    ClippingIsExact(page.img, page.overhang, b);
    var a := Clipped(page.img, page.overhang, b).value;
    var seed, top, bottom :|
      IsSeed(page.img, a, seed) && IsRule(page.img, a, seed, top, bottom) && InkOnBothSides(page.img, a, top, bottom);
    y := seed;
  }

  /**
   Which words are flagged, read on page and box: two columns and two rows are left of the box,
   and the area it covers, whatever area that is, is struck.
   */
  lemma FlaggedIff(page: Page, b: Box, a: Area)
    requires WellFormed(page.img) && Inside(page.img, a) && IsAreaOf(page.img, page.overhang, b, a)
    ensures WordStruck(page, b) <==> a.x0 < a.x1 && a.y0 < a.y1 && Struck(page.img, a)
  {
    var img, overhang := page.img, page.overhang;
    ClippingIsExact(img, overhang, b);
    assert ColumnOf(img, b, a.x0) && ColumnOf(img, b, a.x1) && RowOf(img, b, a.y0) && RowOf(img, b, a.y1);
    if Clipped(img, overhang, b).Some? {
      SameArea(img, overhang, b, Clipped(img, overhang, b).value, a);
    }
  }

  lemma SameArea(img: Raster, overhang: nat, b: Box, a: Area, a': Area)
    requires Inside(img, a) && Inside(img, a')
    requires IsAreaOf(img, overhang, b, a) && IsAreaOf(img, overhang, b, a')
    ensures a == a'
  {
    assert ColumnOf(img, b, a.x0) && ColumnOf(img, b, a.x1) && ColumnOf(img, b, a'.x0) && ColumnOf(img, b, a'.x1);
    assert RowOf(img, b, a.y0) && RowOf(img, b, a.y1) && RowOf(img, b, a'.y0) && RowOf(img, b, a'.y1);
    assert ReachOf(img, overhang, b, a.ex0) && ReachOf(img, overhang, b, a.ex1);
    assert ReachOf(img, overhang, b, a'.ex0) && ReachOf(img, overhang, b, a'.ex1);
  }

  ghost predicate WordStruck(page: Page, b: Box)
    requires WellFormed(page.img)
  {
    var a := Clipped(page.img, page.overhang, b);
    a.Some? && Struck(page.img, a.value)
  }

  /** A failure line: a struck word by page and position, or the note that there are more. */
  datatype Finding = RuleThroughText(page: nat, word: nat) | AndMore(page: nat)

  ghost predicate Readable(pages: seq<Page>) {
    forall p :: 0 <= p < |pages| ==> WellFormed(pages[p].img)
  }

  /** The struck words of the first n words of a page. */
  ghost function StruckOn(page: Page, p: nat, n: nat): seq<Finding>
    requires WellFormed(page.img) && n <= |page.words|
  {
    if n == 0 then []
    else StruckOn(page, p, n - 1) + if WordStruck(page, page.words[n - 1]) then [RuleThroughText(p, n - 1)] else []
  }

  /** Every struck word of the first n pages, in reading order. */
  ghost function StruckWords(pages: seq<Page>, n: nat): seq<Finding>
    requires Readable(pages) && n <= |pages|
  {
    if n == 0 then [] else StruckWords(pages, n - 1) + StruckOn(pages[n - 1], n - 1, |pages[n - 1].words|)
  }

  /** At most eight findings are listed; a ninth struck word is only noted, and ends the search. */
  predicate Reports(failures: seq<Finding>, all: seq<Finding>) {
    |failures| == (if |all| <= MAX_STRIKE_FINDINGS then |all| else MAX_STRIKE_FINDINGS + 1) &&
    forall i :: 0 <= i < |failures| ==>
      failures[i] == if i < MAX_STRIKE_FINDINGS then all[i] else AndMore(all[i].page)
  }

  lemma {:induction false} StruckOnGrows(page: Page, p: nat, n: nat, m: nat)
    requires WellFormed(page.img) && n <= m <= |page.words|
    ensures StruckOn(page, p, n) <= StruckOn(page, p, m)
    decreases m
  {
    if n < m { StruckOnGrows(page, p, n, m - 1); }
  }

  lemma {:induction false} StruckWordsGrow(pages: seq<Page>, n: nat, m: nat)
    requires Readable(pages) && n <= m <= |pages|
    ensures StruckWords(pages, n) <= StruckWords(pages, m)
    decreases m
  {
    if n < m { StruckWordsGrow(pages, n, m - 1); }
  }

  lemma ReportsShort(all: seq<Finding>)
    requires |all| <= MAX_STRIKE_FINDINGS
    ensures Reports(all, all)
  {
  }

  lemma ReportsEarly(listed: seq<Finding>, p: nat, w: nat, all: seq<Finding>)
    requires |listed| == MAX_STRIKE_FINDINGS && listed + [RuleThroughText(p, w)] <= all
    ensures Reports(listed + [AndMore(p)], all)
  {
    var seen := listed + [RuleThroughText(p, w)];
    forall i | 0 <= i < |seen| ensures all[i] == seen[i] { assert all[..|seen|][i] == seen[i]; }
  }

  /** A struck word and all before it come first among all struck words. */
  lemma SeenComesFirst(pages: seq<Page>, p: nat, w: nat)
    requires Readable(pages) && p < |pages| && w < |pages[p].words|
    requires WordStruck(pages[p], pages[p].words[w])
    ensures StruckWords(pages, p) + StruckOn(pages[p], p, w) + [RuleThroughText(p, w)] <= StruckWords(pages, |pages|)
  {
    var page := pages[p];
    var seen := StruckWords(pages, p) + StruckOn(page, p, w) + [RuleThroughText(p, w)];
    StruckOnGrows(page, p, w + 1, |page.words|);
    StruckWordsGrow(pages, p + 1, |pages|);
    assert seen == StruckWords(pages, p) + StruckOn(page, p, w + 1);
    assert seen <= StruckWords(pages, p + 1);
  }

  /** The test of one word. */
  method IsWordStruck(page: Page, b: Box) returns (struck: bool)
    requires WellFormed(page.img)
    ensures struck == WordStruck(page, b)
  {
    var a := Clipped(page.img, page.overhang, b);
    if a.None? { return false; }
    struck := IsStruck(page.img, a.value);
  }

  /** check_struck_through(): the findings, in reading order, cut off after eight. */
  method CheckStruckThrough(pages: seq<Page>) returns (failures: seq<Finding>)
    requires Readable(pages)
    ensures Reports(failures, StruckWords(pages, |pages|))
  {
    failures := [];
    for p := 0 to |pages|
      invariant failures == StruckWords(pages, p) && |failures| <= MAX_STRIKE_FINDINGS
    {
      var page := pages[p];
      for w := 0 to |page.words|
        invariant failures == StruckWords(pages, p) + StruckOn(page, p, w) && |failures| <= MAX_STRIKE_FINDINGS
      {
        var struck := IsWordStruck(page, page.words[w]);
        if !struck { continue; }
        if |failures| >= MAX_STRIKE_FINDINGS {
          SeenComesFirst(pages, p, w);
          ReportsEarly(failures, p, w, StruckWords(pages, |pages|));
          return failures + [AndMore(p)];
        }
        failures := failures + [RuleThroughText(p, w)];
      }
    }
    ReportsShort(failures);
  }

  // ---------------------------------------------------------------------------
  // What it never and always reports
  // ---------------------------------------------------------------------------

  /**
   A rule with ink on one side only, an underline or a line above, never counts: if no row
   above the rule, or no row below it, is inked in a column, that column does not convict.
   */
  lemma OneSidedInkIsNotStruck(img: Raster, a: Area, seed: nat, top: nat, bottom: nat)
    requires Inside(img, a) && IsSeed(img, a, seed) && IsRule(img, a, seed, top, bottom)
    requires forall x: nat :: a.x0 <= x <= a.x1 ==> !InkIn(img, x, a.y0, top) || !InkIn(img, x, bottom + 1, a.y1 + 1)
    ensures !Struck(img, a)
  {
    if Struck(img, a) {
      var s, t, b :| IsSeed(img, a, s) && IsRule(img, a, s, t, b) && InkOnBothSides(img, a, t, b);
      RuleIsUnique(img, a, seed, top, bottom, s, t, b);
      assert false;
    }
  }

  // ---------------------------------------------------------------------------
  // Only the first rule is tried
  // ---------------------------------------------------------------------------

  /** What the check sets out to find: some row dark across box and overhang, with ink on both sides of its rule. */
  ghost predicate StruckBySome(img: Raster, a: Area)
    requires Inside(img, a)
  {
    exists y, top, bottom ::
      CrossesFully(img, a, y) && IsRule(img, a, y, top, bottom) && InkOnBothSides(img, a, top, bottom)
  }

  ghost predicate CrossesFully(img: Raster, a: Area, y: nat)
    requires Inside(img, a)
  {
    a.y0 <= y <= a.y1 && Dark(img, y, a.ex0, a.ex1)
  }

  /** Some column of the box has ink in some row of from..to-1. */
  ghost predicate SomeInk(img: Raster, a: Area, from: nat, to: nat)
    requires Inside(img, a) && to <= a.y1 + 1
  {
    exists x: nat :: a.x0 <= x <= a.x1 && InkIn(img, x, from, to)
  }

  /** Every column of the box has. */
  ghost predicate AllInked(img: Raster, a: Area, from: nat, to: nat)
    requires Inside(img, a) && to <= a.y1 + 1
  {
    forall x: nat :: a.x0 <= x <= a.x1 ==> InkIn(img, x, from, to)
  }

  /** Below the first rule there is a second one, and ink below that. */
  ghost predicate SecondRule(img: Raster, a: Area, bottom: nat)
    requires Inside(img, a)
  {
    exists y: nat, top': nat, bottom': nat ::
      CrossesFully(img, a, y) && IsRule(img, a, y, top', bottom') &&
      bottom < y && SomeInk(img, a, bottom' + 1, a.y1 + 1)
  }

  /** A full row inks every column of any band of rows around it. */
  lemma FullRowInks(img: Raster, a: Area, y: nat, from: nat, to: nat)
    requires Inside(img, a) && CrossesFully(img, a, y) && from <= y < to <= a.y1 + 1
    ensures AllInked(img, a, from, to)
  {
    forall x: nat | a.x0 <= x <= a.x1 ensures InkIn(img, x, from, to) {
      assert Ink(img, y, x);
    }
  }

  /** A full row is part of the first rule, or its rule lies apart from it, below. */
  lemma RulesLieApart(img: Raster, a: Area, seed: nat, top: nat, bottom: nat, y: nat, top': nat, bottom': nat)
    requires Inside(img, a) && IsSeed(img, a, seed) && IsRule(img, a, seed, top, bottom)
    requires CrossesFully(img, a, y) && IsRule(img, a, y, top', bottom')
    ensures seed <= y && (y <= bottom ==> top' == top && bottom' == bottom)
    ensures y > bottom ==> bottom < top'
  {
  }

  lemma InkAboveDecides(img: Raster, a: Area, top: nat, bottom: nat)
    requires Inside(img, a) && a.y0 <= top <= bottom <= a.y1
    requires AllInked(img, a, bottom + 1, a.y1 + 1)
    ensures InkOnBothSides(img, a, top, bottom) <==> SomeInk(img, a, a.y0, top)
  {
  }

  lemma InkBelowDecides(img: Raster, a: Area, top: nat, bottom: nat)
    requires Inside(img, a) && a.y0 <= top <= bottom <= a.y1
    requires AllInked(img, a, a.y0, top)
    ensures InkOnBothSides(img, a, top, bottom) <==> SomeInk(img, a, bottom + 1, a.y1 + 1)
  {
    if SomeInk(img, a, bottom + 1, a.y1 + 1) {
      var x: nat :| a.x0 <= x <= a.x1 && InkIn(img, x, bottom + 1, a.y1 + 1);
      assert InkIn(img, x, a.y0, top);
    }
  }

  /** Of two rules the first convicts exactly by ink above it, the second exactly by ink below it. */
  lemma TwoRules(img: Raster, a: Area, seed: nat, top: nat, bottom: nat, y: nat, top': nat, bottom': nat)
    requires Inside(img, a) && IsSeed(img, a, seed) && IsRule(img, a, seed, top, bottom)
    requires CrossesFully(img, a, y) && IsRule(img, a, y, top', bottom') && bottom < y
    ensures InkOnBothSides(img, a, top, bottom) <==> SomeInk(img, a, a.y0, top)
    ensures InkOnBothSides(img, a, top', bottom') <==> SomeInk(img, a, bottom' + 1, a.y1 + 1)
  {
    RulesLieApart(img, a, seed, top, bottom, y, top', bottom');
    FullRowInks(img, a, seed, a.y0, top');
    FullRowInks(img, a, y, bottom + 1, a.y1 + 1);
    InkAboveDecides(img, a, top, bottom);
    InkBelowDecides(img, a, top', bottom');
  }

  lemma FirstRuleConvicts(img: Raster, a: Area, seed: nat, top: nat, bottom: nat)
    requires Inside(img, a) && IsSeed(img, a, seed) && IsRule(img, a, seed, top, bottom)
    ensures Struck(img, a) <==> InkOnBothSides(img, a, top, bottom)
  {
    if Struck(img, a) {
      var s, t, b :| IsSeed(img, a, s) && IsRule(img, a, s, t, b) && InkOnBothSides(img, a, t, b);
      RuleIsUnique(img, a, seed, top, bottom, s, t, b);
    }
  }

  /**
   A word crossed by some rule is missed exactly if the first rule has no ink above it, and a
   second rule lies below it with ink below that.
   */
  lemma MissedIffFirstRuleIsOnTop(img: Raster, a: Area, seed: nat, top: nat, bottom: nat)
    requires Inside(img, a) && IsSeed(img, a, seed) && IsRule(img, a, seed, top, bottom)
    ensures StruckBySome(img, a) && !Struck(img, a) <==>
            !SomeInk(img, a, a.y0, top) && SecondRule(img, a, bottom)
  {
    FirstRuleConvicts(img, a, seed, top, bottom);
    if StruckBySome(img, a) && !Struck(img, a) {
      MissedHasSecondRule(img, a, seed, top, bottom);
    }
    if !SomeInk(img, a, a.y0, top) && SecondRule(img, a, bottom) {
      SecondRuleConvicts(img, a, seed, top, bottom);
    }
  }

  lemma MissedHasSecondRule(img: Raster, a: Area, seed: nat, top: nat, bottom: nat)
    requires Inside(img, a) && IsSeed(img, a, seed) && IsRule(img, a, seed, top, bottom)
    requires StruckBySome(img, a) && !InkOnBothSides(img, a, top, bottom)
    ensures !SomeInk(img, a, a.y0, top) && SecondRule(img, a, bottom)
  {
    var y, t, b :| CrossesFully(img, a, y) && IsRule(img, a, y, t, b) && InkOnBothSides(img, a, t, b);
    RulesLieApart(img, a, seed, top, bottom, y, t, b);
    TwoRules(img, a, seed, top, bottom, y, t, b);
  }

  lemma SecondRuleConvicts(img: Raster, a: Area, seed: nat, top: nat, bottom: nat)
    requires Inside(img, a) && IsSeed(img, a, seed) && IsRule(img, a, seed, top, bottom)
    requires !SomeInk(img, a, a.y0, top) && SecondRule(img, a, bottom)
    ensures StruckBySome(img, a) && !InkOnBothSides(img, a, top, bottom)
  {
    var y: nat, t: nat, b: nat :| CrossesFully(img, a, y) && IsRule(img, a, y, t, b) &&
      bottom < y && SomeInk(img, a, b + 1, a.y1 + 1);
    TwoRules(img, a, seed, top, bottom, y, t, b);
  }

  /** What is flagged is crossed by some rule; a box no row crosses is neither. */
  lemma StruckIsStruckBySome(img: Raster, a: Area)
    requires Inside(img, a)
    ensures Struck(img, a) ==> StruckBySome(img, a)
    ensures StruckBySome(img, a) ==> exists y :: IsSeed(img, a, y)
  {
    if Struck(img, a) {
      var seed, top, bottom :|
        IsSeed(img, a, seed) && IsRule(img, a, seed, top, bottom) && InkOnBothSides(img, a, top, bottom);
      assert CrossesFully(img, a, seed);
    }
    if StruckBySome(img, a) {
      var y, top, bottom :|
        CrossesFully(img, a, y) && IsRule(img, a, y, top, bottom) && InkOnBothSides(img, a, top, bottom);
      FirstCrossing(img, a, y);
    }
  }

  lemma {:induction false} FirstCrossing(img: Raster, a: Area, y: nat)
    requires Inside(img, a) && CrossesFully(img, a, y)
    ensures exists seed :: IsSeed(img, a, seed)
    decreases y
  {
    if !IsSeed(img, a, y) {
      var z: nat :| a.y0 <= z < y && Dark(img, z, a.ex0, a.ex1);
      FirstCrossing(img, a, z);
    }
  }

  /** A word of six rows: a rule along its top, ink, a rule through it, ink. */
  lemma RuleOnTopHidesRuleThrough()
    ensures var img := Raster(4, 6, [0, 0, 0, 0,  255, 255, 255, 255,  255, 0, 255, 255,
                                     0, 0, 0, 0,  255, 0, 255, 255,  255, 255, 255, 255]);
            var a := Area(1, 2, 0, 5, 0, 3);
            Inside(img, a) && StruckBySome(img, a) && !Struck(img, a)
  {
    var img := Raster(4, 6, [0, 0, 0, 0,  255, 255, 255, 255,  255, 0, 255, 255,
                             0, 0, 0, 0,  255, 0, 255, 255,  255, 255, 255, 255]);
    var a := Area(1, 2, 0, 5, 0, 3);
    assert !Ink(img, 1, 1) && !Ink(img, 2, 2) && !Ink(img, 4, 2) && Ink(img, 4, 1);
    assert IsSeed(img, a, 0) && IsRule(img, a, 0, 0, 0);
    assert CrossesFully(img, a, 3) && IsRule(img, a, 3, 3, 3);
    assert SomeInk(img, a, 4, 6) by { assert InkIn(img, 1, 4, 6); }
    MissedIffFirstRuleIsOnTop(img, a, 0, 0, 0);
  }

  // ---------------------------------------------------------------------------
  // Silence
  // ---------------------------------------------------------------------------

  /** The gate is silent if and only if no word of any page is struck. */
  lemma SilentIffNoneStruck(pages: seq<Page>, failures: seq<Finding>)
    requires Readable(pages) && Reports(failures, StruckWords(pages, |pages|))
    ensures failures == [] <==>
            forall p, w :: 0 <= p < |pages| && 0 <= w < |pages[p].words| ==> !WordStruck(pages[p], pages[p].words[w])
  {
    NoneStruck(pages, |pages|);
  }

  ghost predicate IsStruckWord(pages: seq<Page>, p: nat, w: nat)
    requires Readable(pages)
  {
    p < |pages| && w < |pages[p].words| && WordStruck(pages[p], pages[p].words[w])
  }

  ghost predicate ComesBefore(f: Finding, g: Finding) {
    f.RuleThroughText? && g.RuleThroughText? && (f.page < g.page || (f.page == g.page && f.word < g.word))
  }

  lemma {:induction false} StruckOnAre(page: Page, p: nat, n: nat)
    requires WellFormed(page.img) && n <= |page.words|
    ensures forall f :: f in StruckOn(page, p, n) <==>
              f.RuleThroughText? && f.page == p && f.word < n && WordStruck(page, page.words[f.word])
    ensures forall i, j :: 0 <= i < j < |StruckOn(page, p, n)| ==>
              ComesBefore(StruckOn(page, p, n)[i], StruckOn(page, p, n)[j])
  {
    if n > 0 {
      StruckOnAre(page, p, n - 1);
      var pre := StruckOn(page, p, n - 1);
      assert forall i :: 0 <= i < |pre| ==> pre[i] in pre;
    }
  }

  /** The struck words are listed each once, page by page and word by word. */
  lemma {:induction false} StruckWordsAre(pages: seq<Page>, n: nat)
    requires Readable(pages) && n <= |pages|
    ensures forall f :: f in StruckWords(pages, n) <==>
              f.RuleThroughText? && f.page < n && IsStruckWord(pages, f.page, f.word)
    ensures forall i, j :: 0 <= i < j < |StruckWords(pages, n)| ==>
              ComesBefore(StruckWords(pages, n)[i], StruckWords(pages, n)[j])
  {
    if n > 0 {
      StruckWordsAre(pages, n - 1);
      var page := pages[n - 1];
      StruckOnAre(page, n - 1, |page.words|);
      var pre, here := StruckWords(pages, n - 1), StruckOn(page, n - 1, |page.words|);
      assert forall i :: 0 <= i < |pre| ==> pre[i] in pre;
      assert forall i :: 0 <= i < |here| ==> here[i] in here;
    }
  }

  lemma {:induction false} NoneStruckOn(page: Page, p: nat, n: nat)
    requires WellFormed(page.img) && n <= |page.words|
    ensures StruckOn(page, p, n) == [] <==> forall w :: 0 <= w < n ==> !WordStruck(page, page.words[w])
  {
    if n > 0 { NoneStruckOn(page, p, n - 1); }
  }

  lemma {:induction false} NoneStruck(pages: seq<Page>, n: nat)
    requires Readable(pages) && n <= |pages|
    ensures StruckWords(pages, n) == [] <==>
            forall p, w :: 0 <= p < n && 0 <= w < |pages[p].words| ==> !WordStruck(pages[p], pages[p].words[w])
  {
    if n > 0 {
      NoneStruck(pages, n - 1);
      NoneStruckOn(pages[n - 1], n - 1, |pages[n - 1].words|);
    }
  }
}
