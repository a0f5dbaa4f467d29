/**
 The expectation files of the render gate: which labels a template promises to print,
 its margin, and the directives that excuse or derive values.
 */
module Expectations {
  import opened PythonText
  import opened Strings

  /** What one line of an expectation file declares. */
  datatype Entry =
    | Skipped
    | Margin(millimetres: string)
    | Amount(path: string, tiyn: nat)
    | Unprinted(path: string)
    | Defect(text: string)
    | Label(text: string)
    | Malformed

  datatype Outcome =
    | Died
    | Declared(labels: seq<string>, unprinted: set<string>, defects: seq<string>, defectLabels: seq<string>,
               amounts: seq<(string, nat)>, margin: string)

  // ---------------------------------------------------------------------------
  // Lines
  // ---------------------------------------------------------------------------

  predicate IsBreak(c: char) { c == '\n' || c == '\r' }

  predicate SingleLine(s: string) { forall i :: 0 <= i < |s| ==> !IsBreak(s[i]) }

  /**
   The lines a text file is read as. A "\r\n" shows up as one more empty line here, and
   empty lines are skipped.
   */
  function Lines(text: string): (lines: seq<string>)
    ensures lines != []
  {
    if text == "" then [""]
    else
      var rest := Lines(text[1..]);
      if IsBreak(text[0]) then [""] + rest else [[text[0]] + rest[0]] + rest[1..]
  }

  function AllLines(files: seq<string>): seq<string> {
    if files == [] then [] else AllLines(files[..|files| - 1]) + Lines(files[|files| - 1])
  }

  lemma {:induction false} LinesAreSingle(text: string)
    ensures forall k :: 0 <= k < |Lines(text)| ==> SingleLine(Lines(text)[k])
  {
    if text != "" {
      LinesAreSingle(text[1..]);
    }
  }

  lemma {:induction false} FirstLine(line: string, rest: string)
    requires SingleLine(line)
    ensures Lines(line + "\n" + rest) == [line] + Lines(rest)
  {
    var text := line + "\n" + rest;
    if line == "" {
      assert text == "\n" + rest;
      assert text[1..] == rest;
    } else {
      assert text[1..] == line[1..] + "\n" + rest;
      FirstLine(line[1..], rest);
      assert line == [line[0]] + line[1..];
    }
  }

  // ---------------------------------------------------------------------------
  // One line
  // ---------------------------------------------------------------------------

  predicate NameStart(c: char) { 'A' <= c <= 'Z' || 'a' <= c <= 'z' || c == '_' }

  predicate NameChar(c: char) { NameStart(c) || IsDigit(c) }

  /** What may follow a name in a fixture path: more of the name, `[]`, or `.` and a name. */
  predicate PathTail(s: string, inName: bool) {
    if s == "" then true
    else if s[0] == '[' then |s| >= 2 && s[1] == ']' && PathTail(s[2..], false)
    else if s[0] == '.' then |s| >= 2 && NameStart(s[1]) && PathTail(s[2..], true)
    else inName && NameChar(s[0]) && PathTail(s[1..], true)
  }

  predicate IsFixturePath(s: string) { s != "" && NameStart(s[0]) && PathTail(s[1..], true) }

  function WordEnd(s: string): (n: nat)
    ensures n <= |s|
  {
    if s == "" || IsSpace(s[0]) then 0 else 1 + WordEnd(s[1..])
  }

  /** What follows the word `amount`: a fixture path and a number of tiyn. */
  function ReadAmount(rest: string): Entry {
    var words := LeftStripped(rest);
    var path, number := words[..WordEnd(words)], LeftStripped(words[WordEnd(words)..]);
    var digits := if number != "" && number[0] == '-' then number[1..] else number;
    if !IsFixturePath(path) || digits == "" || !IsNumeral(digits) then Malformed
    else if number[0] == '-' && Num(digits) > 0 then Malformed
    else Amount(path, Num(digits))
  }

  function ReadMargin(rest: string): Entry {
    var value := Stripped(rest);
    if |value| >= 2 && value[|value| - 2..] == "mm" && IsFloat(value[..|value| - 2]) then
      Margin(value[..|value| - 2])
    else Malformed
  }

  function ReadLine(raw: string): Entry {
    var line := Stripped(raw);
    if line == "" || line[0] == '#' then Skipped
    else if "margin " <= line then ReadMargin(line[7..])
    else if "amount " <= line then ReadAmount(line[7..])
    else if "unprinted " <= line then Unprinted(Stripped(line[10..]))
    else if "known-defect " <= line then Defect(Stripped(line[13..]))
    else Label(line)
  }

  // ---------------------------------------------------------------------------
  // All lines
  // ---------------------------------------------------------------------------

  predicate AnyMalformed(lines: seq<string>) { exists i :: 0 <= i < |lines| && ReadLine(lines[i]).Malformed? }

  function Labels(lines: seq<string>): seq<string> {
    if lines == [] then []
    else
      var e := ReadLine(lines[|lines| - 1]);
      Labels(lines[..|lines| - 1]) + if e.Label? then [e.text] else []
  }

  function Margins(lines: seq<string>): seq<string> {
    if lines == [] then []
    else
      var e := ReadLine(lines[|lines| - 1]);
      Margins(lines[..|lines| - 1]) + if e.Margin? then [e.millimetres] else []
  }

  function Amounts(lines: seq<string>): seq<(string, nat)> {
    if lines == [] then []
    else
      var e := ReadLine(lines[|lines| - 1]);
      Amounts(lines[..|lines| - 1]) + if e.Amount? then [(e.path, e.tiyn)] else []
  }

  function Defects(lines: seq<string>): seq<string> {
    if lines == [] then []
    else
      var e := ReadLine(lines[|lines| - 1]);
      Defects(lines[..|lines| - 1]) + if e.Defect? then [e.text] else []
  }

  function UnprintedPaths(lines: seq<string>): set<string> {
    set i | 0 <= i < |lines| && ReadLine(lines[i]).Unprinted? :: ReadLine(lines[i]).path
  }

  /** The defects that quote a label rather than name a fixture path. */
  function Quoted(defects: seq<string>): seq<string> {
    if defects == [] then []
    else
      var text := defects[|defects| - 1];
      Quoted(defects[..|defects| - 1]) + if IsFixturePath(text) then [] else [text]
  }

  function NamedPaths(defects: seq<string>): set<string> {
    set text | text in defects && IsFixturePath(text)
  }

  function Without(labels: seq<string>, dropped: seq<string>): seq<string> {
    if labels == [] then []
    else
      var l := labels[|labels| - 1];
      Without(labels[..|labels| - 1], dropped) + if l in dropped then [] else [l]
  }

  lemma {:induction false} WithoutMembers(labels: seq<string>, dropped: seq<string>)
    ensures forall l :: l in Without(labels, dropped) <==> l in labels && l !in dropped
  {
    if labels != [] {
      WithoutMembers(labels[..|labels| - 1], dropped);
    }
  }

  /** What the declarations on these lines amount to. */
  function Meaning(lines: seq<string>): Outcome {
    if AnyMalformed(lines) || |Margins(lines)| != 1 then Died
    else
      var defects := Defects(lines);
      Declared(Without(Labels(lines), Quoted(defects)), UnprintedPaths(lines) + NamedPaths(defects),
               defects, Quoted(defects), Amounts(lines), Margins(lines)[0])
  }

  lemma {:induction false} MarginsGrow(lines: seq<string>, more: seq<string>)
    ensures |Margins(lines + more)| >= |Margins(lines)|
  {
    if more == [] {
      assert lines + more == lines;
    } else {
      assert (lines + more)[..|lines + more| - 1] == lines + more[..|more| - 1];
      MarginsGrow(lines, more[..|more| - 1]);
    }
  }

  predicate Doomed(lines: seq<string>) { AnyMalformed(lines) || |Margins(lines)| > 1 }

  ghost predicate DoomedAt(before: seq<string>, lines: seq<string>) {
    exists i :: 0 <= i <= |lines| && Doomed(before + lines[..i])
  }

  /** A line that stops the gate stops it whatever else is declared. */
  lemma DiesEarly(lines: seq<string>, more: seq<string>)
    requires Doomed(lines)
    ensures Meaning(lines + more) == Died
  {
    MarginsGrow(lines, more);
    if i :| 0 <= i < |lines| && ReadLine(lines[i]).Malformed? {
      assert (lines + more)[i] == lines[i];
    }
  }

  lemma UnprintedStep(lines: seq<string>, line: string)
    ensures UnprintedPaths(lines + [line])
         == UnprintedPaths(lines) + if ReadLine(line).Unprinted? then {ReadLine(line).path} else {}
  {
    var more := lines + [line];
    assert forall i :: 0 <= i < |lines| ==> more[i] == lines[i];
    assert more[|lines|] == line;
    forall p | p in UnprintedPaths(lines) ensures p in UnprintedPaths(more) {
      var i :| 0 <= i < |lines| && ReadLine(lines[i]).Unprinted? && ReadLine(lines[i]).path == p;
      assert more[i] == lines[i];
    }
  }

  lemma {:induction false} WithoutNone(labels: seq<string>)
    ensures Without(labels, []) == labels
  {
    if labels != [] {
      WithoutNone(labels[..|labels| - 1]);
    }
  }

  lemma WithoutSnoc(labels: seq<string>, l: string, dropped: seq<string>)
    ensures Without(labels + [l], dropped) == Without(labels, dropped) + if l in dropped then [] else [l]
  {
    assert (labels + [l])[..|labels|] == labels;
  }

  lemma {:induction false} WithoutOneMore(labels: seq<string>, dropped: seq<string>, text: string)
    ensures Without(Without(labels, dropped), [text]) == Without(labels, dropped + [text])
  {
    if labels != [] {
      var pre, l := labels[..|labels| - 1], labels[|labels| - 1];
      assert labels == pre + [l];
      WithoutOneMore(pre, dropped, text);
      WithoutSnoc(Without(pre, dropped), l, [text]);
      if l in dropped {
        assert l in dropped + [text];
        assert Without(labels, dropped) == Without(pre, dropped);
      } else {
        assert Without(labels, dropped) == Without(pre, dropped) + [l];
        assert l in dropped + [text] <==> l == text;
      }
    }
  }

  /** What a quoted defect does: every label that is its text goes. */
  method DropLabel(labels: seq<string>, text: string) returns (kept: seq<string>)
    ensures kept == Without(labels, [text])
  {
    kept := [];
    for i := 0 to |labels|
      invariant kept == Without(labels[..i], [text])
    {
      assert labels[..i + 1][..i] == labels[..i];
      if labels[i] != text {
        kept := kept + [labels[i]];
      }
    }
    assert labels[..|labels|] == labels;
  }

  method ApplyDefects(labels: seq<string>, unprinted: set<string>, defects: seq<string>)
    returns (kept: seq<string>, paths: set<string>, quoted: seq<string>)
    ensures kept == Without(labels, Quoted(defects))
    ensures paths == unprinted + NamedPaths(defects)
    ensures quoted == Quoted(defects)
  {
    kept, paths, quoted := labels, unprinted, [];
    WithoutNone(labels);
    for i := 0 to |defects|
      invariant quoted == Quoted(defects[..i])
      invariant kept == Without(labels, quoted)
      invariant paths == unprinted + NamedPaths(defects[..i])
    {
      var text := defects[i];
      assert defects[..i + 1] == defects[..i] + [text];
      assert NamedPaths(defects[..i + 1]) == NamedPaths(defects[..i]) + if IsFixturePath(text) then {text} else {};
      if IsFixturePath(text) {
        paths := paths + {text};
      } else {
        WithoutOneMore(labels, quoted, text);
        quoted := quoted + [text];
        kept := DropLabel(kept, text);
      }
    }
    assert defects[..|defects|] == defects;
  }

  class Reader {
    var labels: seq<string>
    var unprinted: set<string>
    var defects: seq<string>
    var amounts: seq<(string, nat)>
    var margins: seq<string>

    /** The declarations gathered are those of the lines read so far. */
    ghost predicate Gathered(lines: seq<string>)
      reads this
    {
      labels == Labels(lines) && unprinted == UnprintedPaths(lines) && defects == Defects(lines) &&
      amounts == Amounts(lines) && margins == Margins(lines) && |margins| <= 1 && !AnyMalformed(lines)
    }

    constructor ()
      ensures Gathered([])
    {
      labels, unprinted, defects, amounts, margins := [], {}, [], [], [];
    }

    /** The body of the loop over one file's lines; false where the gate dies. */
    method TakeLine(raw: string, ghost lines: seq<string>) returns (ok: bool)
      requires Gathered(lines)
      modifies this
      ensures ok ==> Gathered(lines + [raw])
      ensures !ok ==> Doomed(lines + [raw])
    {
      ghost var more := lines + [raw];
      assert more[..|lines|] == lines && more[|lines|] == raw;
      UnprintedStep(lines, raw);
      ok := true;
      match ReadLine(raw)
      case Skipped =>
      case Margin(value) =>
        if margins != [] { return false; }
        margins := margins + [value];
      case Amount(path, tiyn) => amounts := amounts + [(path, tiyn)];
      case Unprinted(path) => unprinted := unprinted + {path};
      case Defect(text) => defects := defects + [text];
      case Label(text) => labels := labels + [text];
      case Malformed => return false;
    }

    method TakeFile(file: string, ghost before: seq<string>) returns (ok: bool)
      requires Gathered(before)
      modifies this
      ensures ok ==> Gathered(before + Lines(file))
      ensures !ok ==> DoomedAt(before, Lines(file))
    {
      var lines := Lines(file);
      assert before + lines[..0] == before;
      for i := 0 to |lines|
        invariant Gathered(before + lines[..i])
      {
        ghost var read := before + lines[..i];
        assert before + lines[..i + 1] == read + [lines[i]];
        ok := TakeLine(lines[i], read);
        if !ok {
          assert Doomed(before + lines[..i + 1]);
          return;
        }
      }
      assert lines[..|lines|] == lines;
      ok := true;
    }
  }

  lemma {:induction false} AllLinesSplit(files: seq<string>, i: nat)
    requires i <= |files|
    ensures exists more :: AllLines(files) == AllLines(files[..i]) + more
  {
    if i == |files| {
      assert files[..i] == files;
      assert AllLines(files) == AllLines(files[..i]) + [];
    } else {
      var n := |files| - 1;
      AllLinesSplit(files[..n], i);
      assert files[..n][..i] == files[..i];
      var more :| AllLines(files[..n]) == AllLines(files[..i]) + more;
      assert AllLines(files) == AllLines(files[..i]) + (more + Lines(files[n]));
    }
  }

  lemma DiesAt(lines: seq<string>, k: nat)
    requires k <= |lines| && Doomed(lines[..k])
    ensures Meaning(lines) == Died
  {
    DiesEarly(lines[..k], lines[k..]);
    assert lines == lines[..k] + lines[k..];
  }

  lemma DoomedGoesOn(before: seq<string>, lines: seq<string>, rest: seq<string>)
    requires DoomedAt(before, lines)
    ensures Meaning(before + lines + rest) == Died
  {
    var k :| 0 <= k <= |lines| && Doomed(before + lines[..k]);
    assert (before + lines + rest)[..|before| + k] == before + lines[..k];
    DiesAt(before + lines + rest, |before| + k);
  }

  lemma DoomedFile(files: seq<string>, i: nat)
    requires i < |files| && DoomedAt(AllLines(files[..i]), Lines(files[i]))
    ensures Meaning(AllLines(files)) == Died
  {
    var rest := LinesAfter(files, i);
    DoomedGoesOn(AllLines(files[..i]), Lines(files[i]), rest);
  }

  lemma LinesAfter(files: seq<string>, i: nat) returns (rest: seq<string>)
    requires i < |files|
    ensures AllLines(files) == AllLines(files[..i]) + Lines(files[i]) + rest
  {
    assert files[..i + 1][..i] == files[..i];
    AllLinesSplit(files, i + 1);
    rest :| AllLines(files) == AllLines(files[..i + 1]) + rest;
  }

  method ReadExpectations(files: seq<string>) returns (r: Outcome)
    ensures r == Meaning(AllLines(files))
  {
    var reader := new Reader();
    for i := 0 to |files|
      invariant fresh(reader) && reader.Gathered(AllLines(files[..i]))
    {
      assert files[..i + 1][..i] == files[..i];
      var ok := reader.TakeFile(files[i], AllLines(files[..i]));
      if !ok {
        DoomedFile(files, i);
        return Died;
      }
    }
    assert files[..|files|] == files;
    if reader.margins == [] {
      return Died;
    }
    var labels, unprinted, quoted := ApplyDefects(reader.labels, reader.unprinted, reader.defects);
    return Declared(labels, unprinted, reader.defects, quoted, reader.amounts, reader.margins[0]);
  }

  // ---------------------------------------------------------------------------
  // Which labels survive being written to a file and read back
  // ---------------------------------------------------------------------------

  predicate StartsDirective(s: string) {
    "margin " <= s || "amount " <= s || "unprinted " <= s || "known-defect " <= s
  }

  /** A label an expectation file can carry. */
  predicate Clean(s: string) {
    SingleLine(s) && Trimmed(s) && s != "" && s[0] != '#' && !StartsDirective(s)
  }

  lemma {:induction false} StripKeepsSingleLine(s: string)
    requires SingleLine(s)
    ensures SingleLine(Stripped(s))
  {
    LeftStripIsSuffix(s);
    RightStrip(LeftStripped(s));
  }

  lemma {:induction false} LeftStripIsSuffix(s: string)
    ensures |LeftStripped(s)| <= |s| && LeftStripped(s) == s[|s| - |LeftStripped(s)|..]
  {
    if s != "" && IsSpace(s[0]) {
      LeftStripIsSuffix(s[1..]);
    }
  }

  lemma LabelIffClean(raw: string)
    requires SingleLine(raw)
    ensures ReadLine(raw).Label? ==> Clean(ReadLine(raw).text)
    ensures Clean(raw) <==> ReadLine(raw) == Label(raw)
  {
    StrippedIsTrimmed(raw);
    StripKeepsSingleLine(raw);
  }

  lemma {:induction false} LabelsAreClean(lines: seq<string>)
    requires forall i :: 0 <= i < |lines| ==> SingleLine(lines[i])
    ensures forall l :: l in Labels(lines) ==> Clean(l)
  {
    if lines != [] {
      LabelsAreClean(lines[..|lines| - 1]);
      LabelIffClean(lines[|lines| - 1]);
    }
  }

  lemma {:induction false} CleanLinesAreLabels(lines: seq<string>)
    requires forall l :: l in lines ==> Clean(l)
    ensures Labels(lines) == lines
    ensures Margins(lines) == [] && Amounts(lines) == [] && Defects(lines) == []
    ensures UnprintedPaths(lines) == {} && !AnyMalformed(lines)
  {
    forall i | 0 <= i < |lines| ensures ReadLine(lines[i]) == Label(lines[i]) {
      assert lines[i] in lines;
      LabelIffClean(lines[i]);
    }
    if lines != [] {
      var pre := lines[..|lines| - 1];
      forall l | l in pre ensures Clean(l) { assert l in lines; }
      CleanLinesAreLabels(pre);
      assert lines == pre + [lines[|lines| - 1]];
    }
  }

  /** Every label on a line of its own. */
  function OnLines(labels: seq<string>): string {
    if labels == [] then "" else OnLines(labels[..|labels| - 1]) + labels[|labels| - 1] + "\n"
  }

  /** The expectations of a template with these labels and the margin of 18 mm. */
  function Written(labels: seq<string>): string { OnLines(labels) + "margin 18mm\n" }

  lemma {:induction false} LinesWritten(labels: seq<string>, rest: string)
    requires forall l :: l in labels ==> SingleLine(l)
    ensures Lines(OnLines(labels) + rest) == labels + Lines(rest)
  {
    if labels == [] {
      assert OnLines(labels) + rest == rest;
    } else {
      var pre, l := labels[..|labels| - 1], labels[|labels| - 1];
      LinesWritten(pre, l + "\n" + rest);
      assert OnLines(labels) + rest == OnLines(pre) + (l + "\n" + rest);
      FirstLine(l, rest);
      assert labels == pre + [l];
    }
  }

  lemma MarginLines()
    ensures Lines("margin 18mm\n") == ["margin 18mm", ""]
  {
    FirstLine("margin 18mm", "");
    assert "margin 18mm" + "\n" + "" == "margin 18mm\n";
  }

  lemma MarginEntry()
    ensures ReadLine("margin 18mm") == Margin("18")
  {
    var line := "margin 18mm";
    assert Trimmed(line) && line[7..] == "18mm";
    StrippedIsTrimmed(line);
    MarginValue();
  }

  lemma EighteenIsFloat()
    ensures IsFloat("18")
  {
    var s := "18";
    assert Trimmed(s);
    StrippedIsTrimmed(s);
    assert s[1..] == "8" && s[1..][1..] == "";
    assert FirstOf(s, 'e', 'E') == FirstOf(s, '.', '.') == 2;
  }

  lemma MarginValue()
    ensures ReadMargin("18mm") == Margin("18")
  {
    var value := "18mm";
    assert Trimmed(value);
    StrippedIsTrimmed(value);
    assert value[2..] == "mm" && value[..2] == "18";
    EighteenIsFloat();
  }

  /** How one more line that declares nothing but perhaps a margin changes the meaning. */
  lemma MarginStep(lines: seq<string>, raw: string)
    requires ReadLine(raw).Margin? || ReadLine(raw).Skipped?
    ensures var more := lines + [raw];
            Labels(more) == Labels(lines) && Amounts(more) == Amounts(lines) && Defects(more) == Defects(lines) &&
            UnprintedPaths(more) == UnprintedPaths(lines) && AnyMalformed(more) == AnyMalformed(lines) &&
            Margins(more) == Margins(lines) + if ReadLine(raw).Margin? then [ReadLine(raw).millimetres] else []
  {
    var more := lines + [raw];
    assert more[..|lines|] == lines;
    UnprintedStep(lines, raw);
    assert forall i :: 0 <= i < |lines| ==> more[i] == lines[i];
    if AnyMalformed(lines) {
      var i :| 0 <= i < |lines| && ReadLine(lines[i]).Malformed?;
      assert ReadLine(more[i]).Malformed?;
    }
  }

  /** Clean labels, the margin and the empty last line. */
  lemma WrittenDeclares(labels: seq<string>)
    requires forall l :: l in labels ==> Clean(l)
    ensures var lines := labels + ["margin 18mm"] + [""];
            Labels(lines) == labels && Amounts(lines) == [] && Defects(lines) == [] &&
            UnprintedPaths(lines) == {} && !AnyMalformed(lines) && Margins(lines) == ["18"]
  {
    var line := "margin 18mm";
    CleanLinesAreLabels(labels);
    MarginEntry();
    MarginStep(labels, line);
    StrippedIsTrimmed("");
    MarginStep(labels + [line], "");
  }

  lemma WrittenMeaning(labels: seq<string>)
    requires forall l :: l in labels ==> Clean(l)
    ensures Meaning(Lines(Written(labels))) == Declared(labels, {}, [], [], [], "18")
  {
    var line := "margin 18mm";
    WrittenDeclares(labels);
    LinesWritten(labels, "margin 18mm\n");
    MarginLines();
    assert labels + [line, ""] == labels + [line] + [""];
    OnlyLabels(labels + [line] + [""], labels, "18");
  }

  lemma OnlyLabels(lines: seq<string>, labels: seq<string>, margin: string)
    requires Labels(lines) == labels && Amounts(lines) == [] && Defects(lines) == []
    requires UnprintedPaths(lines) == {} && !AnyMalformed(lines) && Margins(lines) == [margin]
    ensures Meaning(lines) == Declared(labels, {}, [], [], [], margin)
  {
    WithoutNone(labels);
    assert NamedPaths([]) == {};
  }

  /** What the compiler writes is what the gate reads exactly when every label is clean. */
  lemma RoundTripIffClean(labels: seq<string>)
    ensures Meaning(AllLines([Written(labels)])) == Declared(labels, {}, [], [], [], "18")
       <==> forall l :: l in labels ==> Clean(l)
  {
    var text := Written(labels);
    assert AllLines([text]) == Lines(text) by {
      assert [text][..0] == [];
    }
    if forall l :: l in labels ==> Clean(l) {
      WrittenMeaning(labels);
    } else {
      LabelsReadAreClean([text]);
    }
  }

  /** Whatever the files, a label the gate goes on to look for is clean and no quoted defect. */
  lemma LabelsReadAreClean(files: seq<string>)
    ensures var r := Meaning(AllLines(files));
            r.Declared? ==> forall l :: l in r.labels ==> Clean(l) && l !in r.defectLabels
  {
    var lines := AllLines(files);
    AllLinesAreSingle(files);
    LabelsAreClean(lines);
    WithoutMembers(Labels(lines), Quoted(Defects(lines)));
  }

  lemma {:induction false} AllLinesAreSingle(files: seq<string>)
    ensures forall i :: 0 <= i < |AllLines(files)| ==> SingleLine(AllLines(files)[i])
  {
    if files != [] {
      AllLinesAreSingle(files[..|files| - 1]);
      LinesAreSingle(files[|files| - 1]);
    }
  }
}
