/**
 The directives of an expectation file, one by one, and what all of them together declare,
 entry by entry.
 */
module Directives {
  import opened Expectations
  import opened PythonText
  import opened Strings

  // ---------------------------------------------------------------------------
  // What each directive says
  // ---------------------------------------------------------------------------

  /** The directives with a text: any text without white space at its ends is read as it stands. */
  lemma DirectivesRead(text: string)
    requires text != "" && Trimmed(text)
    ensures ReadLine("unprinted " + text) == Unprinted(text)
    ensures ReadLine("known-defect " + text) == Defect(text)
    ensures ReadLine("#" + text) == Skipped
    ensures ReadLine("margin " + text + "mm") == if IsFloat(text) then Margin(text) else Malformed
  {
    UnprintedReads(text);
    DefectReads(text);
    CommentReads(text);
    MarginReads(text);
  }

  lemma UnprintedReads(text: string)
    requires text != "" && Trimmed(text)
    ensures ReadLine("unprinted " + text) == Unprinted(text)
  {
    Reads("unprinted ", text);
  }

  lemma DefectReads(text: string)
    requires text != "" && Trimmed(text)
    ensures ReadLine("known-defect " + text) == Defect(text)
  {
    Reads("known-defect ", text);
  }

  lemma CommentReads(text: string)
    requires text != "" && Trimmed(text)
    ensures ReadLine("#" + text) == Skipped
  {
    Reads("#", text);
  }

  lemma MarginReads(text: string)
    requires text != "" && Trimmed(text)
    ensures ReadLine("margin " + text + "mm") == if IsFloat(text) then Margin(text) else Malformed
  {
    var value := text + "mm";
    Reads("margin ", value);
    assert value[|text|..] == "mm" && value[..|text|] == text;
    assert "margin " + text + "mm" == "margin " + value;
    assert ReadLine("margin " + value) == ReadMargin(value);
  }

  /** A line that starts with a directive and ends in print is read as it stands. */
  lemma Reads(directive: string, text: string)
    requires directive != "" && !IsSpace(directive[0]) && text != "" && Trimmed(text)
    ensures Stripped(directive + text) == directive + text && (directive + text)[|directive|..] == text
    ensures Stripped(text) == text
  {
    StrippedIsTrimmed(directive + text);
    StrippedIsTrimmed(text);
  }

  predicate Spaceless(s: string) { forall i :: 0 <= i < |s| ==> !IsSpace(s[i]) }

  lemma {:induction false} PathTailIsSpaceless(s: string, inName: bool)
    requires PathTail(s, inName)
    ensures Spaceless(s)
    decreases |s|
  {
    if s != "" {
      if s[0] == '[' {
        PathTailIsSpaceless(s[2..], false);
        assert s == [s[0], s[1]] + s[2..];
      } else if s[0] == '.' {
        PathTailIsSpaceless(s[2..], true);
        assert s == [s[0], s[1]] + s[2..];
      } else {
        PathTailIsSpaceless(s[1..], true);
        assert s == [s[0]] + s[1..];
      }
    }
  }

  lemma {:induction false} WordStops(word: string, rest: string)
    requires Spaceless(word) && rest != "" && IsSpace(rest[0])
    ensures WordEnd(word + rest) == |word|
  {
    if word == "" {
      assert word + rest == rest;
    } else {
      assert (word + rest)[1..] == word[1..] + rest;
      WordStops(word[1..], rest);
    }
  }

  /** What follows the word `amount` on a line, the number with or without a minus. */
  lemma AmountWords(path: string, number: string)
    requires IsFixturePath(path) && number != "" && !IsSpace(number[0])
    ensures var words := path + " " + number;
            && LeftStripped(words) == words && words[..WordEnd(words)] == path
            && LeftStripped(words[WordEnd(words)..]) == number
  {
    PathTailIsSpaceless(path[1..], true);
    assert path == [path[0]] + path[1..];
    var words := path + " " + number;
    assert words == path + (" " + number);
    WordStops(path, " " + number);
    assert words[|path|..] == " " + number && (" " + number)[1..] == number;
    LeftStrip(words);
    LeftStrip(number);
  }

  lemma AmountLine(path: string, number: string)
    requires IsFixturePath(path) && number != "" && !IsSpace(number[0]) && !IsSpace(number[|number| - 1])
    ensures ReadLine("amount " + path + " " + number) == ReadAmount(path + " " + number)
  {
    var text := path + " " + number;
    assert Trimmed(text) by {
      PathTailIsSpaceless(path[1..], true);
      assert text[|text| - 1] == number[|number| - 1];
    }
    Reads("amount ", text);
    assert "amount " + path + " " + number == "amount " + text;
  }

  /** An amount directive says the path and the number written on it; a number below zero ends the gate. */
  lemma AmountReads(path: string, tiyn: nat)
    requires IsFixturePath(path)
    ensures ReadLine("amount " + path + " " + Decimal(tiyn)) == Amount(path, tiyn)
    ensures tiyn > 0 ==> ReadLine("amount " + path + " " + ("-" + Decimal(tiyn))) == Malformed
  {
    var digits := Decimal(tiyn);
    assert IsDigit(digits[0]) && IsDigit(digits[|digits| - 1]);
    AmountLine(path, digits);
    AmountLine(path, "-" + digits);
    PositiveAmount(path, tiyn);
    NegativeAmount(path, tiyn);
  }

  lemma PositiveAmount(path: string, tiyn: nat)
    requires IsFixturePath(path)
    ensures ReadAmount(path + " " + Decimal(tiyn)) == Amount(path, tiyn)
  {
    DecimalDenotes(tiyn);
    assert IsDigit(Decimal(tiyn)[0]);
    AmountWords(path, Decimal(tiyn));
  }

  lemma NegativeAmount(path: string, tiyn: nat)
    requires IsFixturePath(path)
    ensures tiyn > 0 ==> ReadAmount(path + " " + ("-" + Decimal(tiyn))) == Malformed
  {
    var number := "-" + Decimal(tiyn);
    assert number[1..] == Decimal(tiyn);
    DecimalDenotes(tiyn);
    AmountWords(path, number);
  }

  // ---------------------------------------------------------------------------
  // Fixture paths
  // ---------------------------------------------------------------------------

  predicate IsIdentifier(s: string) {
    s != "" && NameStart(s[0]) && forall i :: 0 <= i < |s| ==> NameChar(s[i])
  }

  lemma {:induction false} NameIsTail(s: string)
    requires forall i :: 0 <= i < |s| ==> NameChar(s[i])
    ensures PathTail(s, true)
  {
    if s != "" {
      NameIsTail(s[1..]);
    }
  }

  lemma {:induction false} TailGrows(s: string, inName: bool, more: string)
    requires PathTail(s, inName) && PathTail(more, false)
    requires more == "" || more[0] == '[' || more[0] == '.'
    ensures PathTail(s + more, inName)
    decreases |s|
  {
    if s == "" {
      assert s + more == more;
    } else if s[0] == '[' {
      assert (s + more)[2..] == s[2..] + more;
      TailGrows(s[2..], false, more);
    } else if s[0] == '.' {
      assert (s + more)[2..] == s[2..] + more;
      TailGrows(s[2..], true, more);
    } else {
      assert (s + more)[1..] == s[1..] + more;
      TailGrows(s[1..], true, more);
    }
  }

  /** Fixture paths are identifiers, the rows of a path, and the members of a path. */
  lemma FixturePathsCompose(path: string, name: string)
    requires IsFixturePath(path) && IsIdentifier(name)
    ensures IsFixturePath(name) && IsFixturePath(path + "[]") && IsFixturePath(path + "." + name)
  {
    NameIsTail(name[1..]);
    RowsIsTail();
    PathGrows(path, "[]");
    MemberIsTail(name);
    PathGrows(path, "." + name);
    assert path + "." + name == path + ("." + name);
  }

  lemma RowsIsTail()
    ensures PathTail("[]", false)
  {
    assert "[]"[2..] == "";
  }

  lemma MemberIsTail(name: string)
    requires IsIdentifier(name)
    ensures PathTail("." + name, false)
  {
    NameIsTail(name[1..]);
    assert ("." + name)[2..] == name[1..];
  }

  lemma PathGrows(path: string, more: string)
    requires IsFixturePath(path) && PathTail(more, false) && more != "" && (more[0] == '[' || more[0] == '.')
    ensures IsFixturePath(path + more)
  {
    TailGrows(path[1..], true, more);
    assert (path + more)[1..] == path[1..] + more;
  }

  predicate IsMember(path: string, i: nat) {
    i < |path| && path[i] == '.' && IsFixturePath(path[..i]) && IsIdentifier(path[i + 1..])
  }

  predicate IsRows(path: string) {
    |path| >= 2 && path[|path| - 2..] == "[]" && IsFixturePath(path[..|path| - 2])
  }

  /** And nothing else is one: a fixture path is an identifier, or its last component is one of the other two. */
  lemma FixturePathsDecompose(path: string)
    requires IsFixturePath(path)
    ensures IsIdentifier(path) || IsRows(path) || exists i: nat :: IsMember(path, i)
  {
    var s := path[1..];
    LastComponent(s, true);
    if AllName(s) {
      assert path == [path[0]] + s;
    } else if TailRows(s, true) {
      assert path[..|path| - 2][1..] == s[..|s| - 2] && path[|path| - 2..] == s[|s| - 2..];
    } else {
      var i: nat :| TailMember(s, i, true);
      assert path[..i + 1][1..] == s[..i] && path[i + 2..] == s[i + 1..];
      assert IsMember(path, i + 1);
    }
  }

  predicate AllName(s: string) { forall i :: 0 <= i < |s| ==> NameChar(s[i]) }

  predicate TailRows(s: string, inName: bool) {
    |s| >= 2 && s[|s| - 2..] == "[]" && PathTail(s[..|s| - 2], inName)
  }

  predicate TailMember(s: string, i: nat, inName: bool) {
    i < |s| && s[i] == '.' && PathTail(s[..i], inName) && IsIdentifier(s[i + 1..])
  }

  /** The first k characters are one step of the grammar. */
  predicate IsStep(s: string, k: nat, inName: bool, after: bool) {
    k <= |s| && s != "" &&
    if s[0] == '[' then k == 2 && s[1] == ']' && !after
    else if s[0] == '.' then k == 2 && NameStart(s[1]) && after
    else k == 1 && inName && NameChar(s[0]) && after
  }

  lemma StepTail(s: string, k: nat, inName: bool, after: bool, n: nat)
    requires IsStep(s, k, inName, after) && k <= n <= |s| && PathTail(s[k..n], after)
    ensures PathTail(s[..n], inName)
  {
    assert s[..n][k..] == s[k..n];
  }

  lemma {:induction false} LastComponent(s: string, inName: bool)
    requires PathTail(s, inName)
    ensures AllName(s) || TailRows(s, inName) || exists i: nat :: TailMember(s, i, inName)
    decreases |s|
  {
    if s != "" {
      var k := if s[0] == '[' || s[0] == '.' then 2 else 1;
      LastComponent(s[k..], s[0] != '[');
      ComponentAfter(s, k, inName, s[0] != '[');
    }
  }

  /** How the last component of the rest is that of the whole. */
  lemma ComponentAfter(s: string, k: nat, inName: bool, after: bool)
    requires IsStep(s, k, inName, after)
    requires AllName(s[k..]) || TailRows(s[k..], after) || exists i: nat :: TailMember(s[k..], i, after)
    requires AllName(s[k..]) && !after ==> s[k..] == ""
    ensures AllName(s) || TailRows(s, inName) || exists i: nat :: TailMember(s, i, inName)
  {
    if TailRows(s[k..], after) {
      RowsAfter(s, k, inName, after);
    } else if i: nat :| TailMember(s[k..], i, after) {
      MemberAfter(s, k, inName, after, i);
    } else {
      NameAfter(s, k, inName, after);
    }
  }

  lemma RowsAfter(s: string, k: nat, inName: bool, after: bool)
    requires IsStep(s, k, inName, after) && TailRows(s[k..], after)
    ensures TailRows(s, inName)
  {
    assert s[|s| - 2..] == s[k..][|s[k..]| - 2..];
    assert s[k..|s| - 2] == s[k..][..|s[k..]| - 2];
    StepTail(s, k, inName, after, |s| - 2);
  }

  lemma MemberAfter(s: string, k: nat, inName: bool, after: bool, i: nat)
    requires IsStep(s, k, inName, after) && TailMember(s[k..], i, after)
    ensures TailMember(s, i + k, inName)
  {
    assert s[k..i + k] == s[k..][..i] && s[i + k + 1..] == s[k..][i + 1..];
    StepTail(s, k, inName, after, i + k);
  }

  lemma NameAfter(s: string, k: nat, inName: bool, after: bool)
    requires IsStep(s, k, inName, after) && AllName(s[k..]) && (!after ==> s[k..] == "")
    ensures AllName(s) || TailRows(s, inName) || TailMember(s, 0, inName)
  {
    if s[0] == '[' {
      assert s == "[]" && s[..0] == "";
    } else if s[0] == '.' {
      assert s[1..] == [s[1]] + s[2..] && s[..0] == "";
    } else {
      assert s == [s[0]] + s[1..];
    }
  }

  // ---------------------------------------------------------------------------
  // What the files declare, line by line
  // ---------------------------------------------------------------------------

  /** The lines as the entries they are read as. */
  function Entries(lines: seq<string>): seq<Entry> {
    seq(|lines|, i requires 0 <= i < |lines| => ReadLine(lines[i]))
  }

  lemma EntriesSnoc(lines: seq<string>, line: string)
    ensures Entries(lines + [line]) == Entries(lines) + [ReadLine(line)]
  {
  }

  lemma {:induction false} GatheredAreEntries(lines: seq<string>, text: string, tiyn: nat)
    ensures text in Labels(lines) <==> Label(text) in Entries(lines)
    ensures text in Defects(lines) <==> Defect(text) in Entries(lines)
    ensures text in Margins(lines) <==> Margin(text) in Entries(lines)
    ensures (text, tiyn) in Amounts(lines) <==> Amount(text, tiyn) in Entries(lines)
    decreases |lines|
  {
    if lines != [] {
      var pre, last := lines[..|lines| - 1], lines[|lines| - 1];
      assert lines == pre + [last];
      GatheredAreEntries(pre, text, tiyn);
      EntriesSnoc(pre, last);
    }
  }

  lemma OthersAreEntries(lines: seq<string>, path: string)
    ensures path in UnprintedPaths(lines) <==> Unprinted(path) in Entries(lines)
    ensures AnyMalformed(lines) <==> Malformed in Entries(lines)
  {
    var es := Entries(lines);
    assert forall i :: 0 <= i < |lines| ==> es[i] == ReadLine(lines[i]);
    if AnyMalformed(lines) {
      var i :| 0 <= i < |lines| && ReadLine(lines[i]).Malformed?;
      assert es[i] == Malformed;
    }
  }

  lemma {:induction false} QuotedAre(defects: seq<string>, text: string)
    ensures text in Quoted(defects) <==> text in defects && !IsFixturePath(text)
  {
    if defects != [] {
      QuotedAre(defects[..|defects| - 1], text);
    }
  }

  /**
   What the gate goes on with, entry by entry: the labels some line declares and no known
   defect quotes; the paths some line excuses, as unprinted or as a known defect; the amounts
   some line derives.  It goes on only if every line is well formed.
   */
  lemma DeclaredIsWhatLinesSay(lines: seq<string>, text: string, tiyn: nat)
    requires Meaning(lines).Declared?
    ensures var r, es := Meaning(lines), Entries(lines);
            && (text in r.labels <==> Label(text) in es && !(Defect(text) in es && !IsFixturePath(text)))
            && (text in r.unprinted <==> Unprinted(text) in es || (Defect(text) in es && IsFixturePath(text)))
            && (text in r.defectLabels <==> Defect(text) in es && !IsFixturePath(text))
            && ((text, tiyn) in r.amounts <==> Amount(text, tiyn) in es)
            && (text == r.margin <==> Margin(text) in es)
            && Malformed !in es
  {
    GatheredAreEntries(lines, text, tiyn);
    OthersAreEntries(lines, text);
    DeclaredMembers(lines, text);
  }

  /** The same over the lists gathered from the lines. */
  lemma DeclaredMembers(lines: seq<string>, text: string)
    requires Meaning(lines).Declared?
    ensures var r := Meaning(lines);
            && (text in r.labels <==> text in Labels(lines) && !(text in Defects(lines) && !IsFixturePath(text)))
            && (text in r.unprinted <==>
                  text in UnprintedPaths(lines) || (text in Defects(lines) && IsFixturePath(text)))
            && (text in r.defectLabels <==> text in Defects(lines) && !IsFixturePath(text))
            && r.amounts == Amounts(lines) && (text == r.margin <==> text in Margins(lines)) && !AnyMalformed(lines)
  {
    var labels, defects := Labels(lines), Defects(lines);
    MeaningParts(lines);
    QuotedAre(defects, text);
    WithoutMembers(labels, Quoted(defects));
    assert text in NamedPaths(defects) <==> text in defects && IsFixturePath(text);
  }

  lemma MeaningParts(lines: seq<string>)
    requires Meaning(lines).Declared?
    ensures var r := Meaning(lines);
            && r.labels == Without(Labels(lines), Quoted(Defects(lines)))
            && r.unprinted == UnprintedPaths(lines) + NamedPaths(Defects(lines))
            && r.defectLabels == Quoted(Defects(lines)) && r.amounts == Amounts(lines)
            && Margins(lines) == [r.margin] && !AnyMalformed(lines)
  {
  }

  function MarginsOf(es: seq<Entry>): nat {
    if es == [] then 0 else MarginsOf(es[..|es| - 1]) + if es[|es| - 1].Margin? then 1 else 0
  }

  lemma {:induction false} MarginsAreEntries(lines: seq<string>)
    ensures |Margins(lines)| == MarginsOf(Entries(lines))
    decreases |lines|
  {
    if lines != [] {
      var pre, last := lines[..|lines| - 1], lines[|lines| - 1];
      assert lines == pre + [last];
      MarginsAreEntries(pre);
      EntriesSnoc(pre, last);
    }
  }

  /** Some entry is a margin, two are. */
  ghost predicate OneMargin(es: seq<Entry>) { exists i :: 0 <= i < |es| && es[i].Margin? }

  ghost predicate TwoMargins(es: seq<Entry>) { exists i, j :: 0 <= i < j < |es| && es[i].Margin? && es[j].Margin? }

  lemma MarginSnoc(es: seq<Entry>, e: Entry)
    ensures OneMargin(es + [e]) <==> OneMargin(es) || e.Margin?
    ensures TwoMargins(es + [e]) <==> TwoMargins(es) || (OneMargin(es) && e.Margin?)
  {
    var all := es + [e];
    assert all[|es|] == e && forall i :: 0 <= i < |es| ==> all[i] == es[i];
  }

  lemma {:induction false} MarginsCounted(es: seq<Entry>)
    ensures MarginsOf(es) >= 1 <==> OneMargin(es)
    ensures MarginsOf(es) >= 2 <==> TwoMargins(es)
  {
    if es != [] {
      var pre, last := es[..|es| - 1], es[|es| - 1];
      assert es == pre + [last];
      MarginsCounted(pre);
      MarginSnoc(pre, last);
    }
  }

  /** What ends the gate: a malformed line, no margin, or a second one. */
  lemma DiesIff(lines: seq<string>)
    ensures var es := Entries(lines);
            Meaning(lines) == Died <==> Malformed in es || !OneMargin(es) || TwoMargins(es)
  {
    OthersAreEntries(lines, "");
    MarginsAreEntries(lines);
    MarginsCounted(Entries(lines));
  }
}
