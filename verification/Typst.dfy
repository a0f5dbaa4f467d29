/**
 Enough of the Typst language to read a compiled template back: a lexer for text with
 `#name` expressions and string literals, an evaluator for `#let` bindings of strings, and
 the pieces a template is put together from.
 */
module Typst {
  import opened Strings

  // ---------------------------------------------------------------------------
  // Lexing
  // ---------------------------------------------------------------------------

  datatype Token = Hash(name: string) | Quoted(text: string) | Char(c: char)

  datatype Mode = Plain | Naming(name: string) | Quoting(text: string) | Escaping(text: string)

  datatype Lexed = Lexed(mode: Mode, tokens: seq<Token>)

  predicate NameChar(c: char) {
    'a' <= c <= 'z' || 'A' <= c <= 'Z' || IsDigit(c) || c == '_' || c == '-'
  }

  predicate IsName(s: string) { s != "" && forall i :: 0 <= i < |s| ==> NameChar(s[i]) }

  function NextPlain(c: char): Lexed {
    if c == '#' then Lexed(Naming(""), [])
    else if c == '"' then Lexed(Quoting(""), [])
    else Lexed(Plain, [Char(c)])
  }

  function Next(m: Mode, c: char): Lexed {
    match m
    case Plain => NextPlain(c)
    case Naming(name) =>
      if NameChar(c) then Lexed(Naming(name + [c]), [])
      else Lexed(NextPlain(c).mode, [Hash(name)] + NextPlain(c).tokens)
    case Quoting(text) =>
      if c == '\\' then Lexed(Escaping(text), [])
      else if c == '"' then Lexed(Plain, [Quoted(text)])
      else Lexed(Quoting(text + [c]), [])
    case Escaping(text) => Lexed(Quoting(text + [c]), [])
  }

  function Lex(m: Mode, text: string): Lexed
    decreases text
  {
    if text == "" then Lexed(m, [])
    else
      var first := Next(m, text[0]);
      var rest := Lex(first.mode, text[1..]);
      Lexed(rest.mode, first.tokens + rest.tokens)
  }

  lemma {:induction false} LexAppend(m: Mode, a: string, b: string)
    ensures Lex(m, a + b) == Lexed(Lex(Lex(m, a).mode, b).mode, Lex(m, a).tokens + Lex(Lex(m, a).mode, b).tokens)
    decreases a
  {
    if a == "" {
      assert a + b == b;
    } else {
      assert (a + b)[1..] == a[1..] + b;
      LexAppend(Next(m, a[0]).mode, a[1..], b);
    }
  }

  // ---------------------------------------------------------------------------
  // String literals
  // ---------------------------------------------------------------------------

  function EscapedChar(c: char): string {
    if c == '\\' || c == '"' then ['\\', c] else [c]
  }

  function Escaped(raw: string): string {
    if raw == "" then "" else Escaped(raw[..|raw| - 1]) + EscapedChar(raw[|raw| - 1])
  }

  function Literal(raw: string): string { "\"" + Escaped(raw) + "\"" }

  method WriteLiteral(raw: string) returns (out: string)
    ensures out == Literal(raw)
  {
    out := "\"";
    for i := 0 to |raw|
      invariant out == "\"" + Escaped(raw[..i])
    {
      assert raw[..i + 1][..i] == raw[..i];
      if raw[i] == '\\' || raw[i] == '"' {
        out := out + "\\";
      }
      out := out + [raw[i]];
    }
    assert raw[..|raw|] == raw;
    out := out + "\"";
  }

  lemma {:induction false} LexEscaped(raw: string)
    ensures Lex(Quoting(""), Escaped(raw)) == Lexed(Quoting(raw), [])
  {
    if raw != "" {
      var pre, c := raw[..|raw| - 1], raw[|raw| - 1];
      LexEscaped(pre);
      LexOneEscaped(pre, c);
      LexSilently(Quoting(""), Escaped(pre), Quoting(pre), EscapedChar(c), Quoting(pre + [c]));
      assert raw == pre + [c];
    }
  }

  lemma LexSilently(m: Mode, a: string, m1: Mode, b: string, m2: Mode)
    requires Lex(m, a) == Lexed(m1, []) && Lex(m1, b) == Lexed(m2, [])
    ensures Lex(m, a + b) == Lexed(m2, [])
  {
    LexAppend(m, a, b);
  }

  lemma LexOneEscaped(text: string, c: char)
    ensures Lex(Quoting(text), EscapedChar(c)) == Lexed(Quoting(text + [c]), [])
  {
    if c == '\\' || c == '"' {
      assert EscapedChar(c)[1..] == [c] && [c][1..] == "";
      assert Lex(Escaping(text), [c]) == Lexed(Quoting(text + [c]), []);
    }
  }

  /** A literal reads back as the text it was written from, whatever the text. */
  lemma LiteralReadsBack(raw: string)
    ensures Lex(Plain, Literal(raw)) == Lexed(Plain, [Quoted(raw)])
  {
    LexEscaped(raw);
    LexAppend(Plain, "\"", Escaped(raw));
    LexAppend(Plain, "\"" + Escaped(raw), "\"");
  }

  // ---------------------------------------------------------------------------
  // Pieces of a template
  // ---------------------------------------------------------------------------

  datatype Piece =
    | Raw(text: string)
    | Str(value: string)                    // a string literal
    | Use(name: string, after: string)      // #name and what follows
    | Ref(index: nat, after: string)        // a label printed by its name
    | Get(field: string, after: string)     // #d.field
    | GetAt(path: string, after: string)    // #d.at("path"
    | Spread(field: string, after: string)  // ..d.field
    | Let(index: nat, value: string)        // a label bound to its text
    | LetCode(name: string, code: string)   // any other binding

  function LabelName(k: nat): string { "s" + Decimal(k) }

  predicate IsLabelName(s: string) { |s| > 1 && s[0] == 's' && IsNumeral(s[1..]) }

  function PieceText(p: Piece): string {
    match p
    case Raw(text) => text
    case Str(value) => Literal(value)
    case Use(name, after) => "#" + name + after
    case Ref(k, after) => "#" + LabelName(k) + after
    case Get(field, after) => "#d" + ("." + field + after)
    case GetAt(path, after) => "#d" + ".at(" + Literal(path) + after
    case Spread(field, after) => "..d." + field + after
    case Let(k, value) => "#let" + (" " + LabelName(k) + " = ") + Literal(value) + "\n"
    case LetCode(name, code) => "#let" + (" " + name + " = " + code)
  }

  function Text(ps: seq<Piece>): string {
    if ps == [] then "" else PieceText(ps[0]) + Text(ps[1..])
  }

  lemma {:induction false} TextAppend(a: seq<Piece>, b: seq<Piece>)
    ensures Text(a + b) == Text(a) + Text(b)
  {
    if a == [] {
      assert a + b == b;
    } else {
      assert (a + b)[1..] == a[1..] + b;
      TextAppend(a[1..], b);
    }
  }

  lemma TextCons(p: Piece, ps: seq<Piece>)
    ensures Text([p] + ps) == PieceText(p) + Text(ps)
  {
    assert ([p] + ps)[1..] == ps;
  }

  function Chars(s: string): seq<Token> { seq(|s|, i requires 0 <= i < |s| => Char(s[i])) }

  function PieceTokens(p: Piece): seq<Token> {
    match p
    case Raw(text) => Chars(text)
    case Str(value) => [Quoted(value)]
    case Use(name, after) => [Hash(name)] + Chars(after)
    case Ref(k, after) => [Hash(LabelName(k))] + Chars(after)
    case Get(field, after) => [Hash("d")] + Chars("." + field + after)
    case GetAt(path, after) => [Hash("d")] + Chars(".at(") + [Quoted(path)] + Chars(after)
    case Spread(field, after) => Chars("..d." + field + after)
    case Let(k, value) => [Hash("let")] + Chars(" " + LabelName(k) + " = ") + [Quoted(value)] + Chars("\n")
    case LetCode(name, code) => [Hash("let")] + Chars(" " + name + " = " + code)
  }

  function Tokens(ps: seq<Piece>): seq<Token> {
    if ps == [] then [] else PieceTokens(ps[0]) + Tokens(ps[1..])
  }

  /** No character that starts a `#name` or a string. */
  predicate NoMarks(s: string) { forall i :: 0 <= i < |s| ==> s[i] != '#' && s[i] != '"' }

  /** No `..`, and no dot at the end for one to continue. */
  predicate NoSpread(s: string) { forall i :: 0 <= i < |s| && s[i] == '.' ==> i + 1 < |s| && s[i + 1] != '.' }

  predicate Inert(s: string) { NoMarks(s) && NoSpread(s) }

  /** Inert text that cannot continue the name in front of it. */
  predicate EndsName(s: string) { Inert(s) && s != "" && !NameChar(s[0]) }

  predicate PlainName(s: string) { IsName(s) && !IsLabelName(s) && s != "d" && s != "let" }

  predicate PieceOk(p: Piece) {
    match p
    case Raw(text) => Inert(text)
    case Str(_) => true
    case Use(name, after) => PlainName(name) && EndsName(after)
    case Ref(_, after) => EndsName(after)
    case Get(field, after) => IsName(field) && EndsName(after) && after[0] != '('
    case GetAt(_, after) => Inert(after)
    case Spread(field, after) => IsName(field) && EndsName(after)
    case Let(_, _) => true
    case LetCode(name, code) => IsName(name) && !IsLabelName(name) && code != "" && Inert(code)
  }

  predicate AllOk(ps: seq<Piece>) { forall i :: 0 <= i < |ps| ==> PieceOk(ps[i]) }

  lemma LabelNames(k: nat)
    ensures IsName(LabelName(k)) && IsLabelName(LabelName(k)) && NoMarks(LabelName(k))
  {
    assert LabelName(k)[1..] == Decimal(k);
  }

  lemma {:induction false} LexInert(s: string)
    requires NoMarks(s)
    ensures Lex(Plain, s) == Lexed(Plain, Chars(s))
  {
    if s != "" {
      LexInert(s[1..]);
      assert Chars(s) == [Char(s[0])] + Chars(s[1..]);
    }
  }

  lemma {:induction false} LexName(sofar: string, name: string)
    requires forall i :: 0 <= i < |name| ==> NameChar(name[i])
    ensures Lex(Naming(sofar), name) == Lexed(Naming(sofar + name), [])
    decreases name
  {
    if name == "" {
      assert sofar + name == sofar;
    } else {
      LexName(sofar + [name[0]], name[1..]);
      assert sofar + name == sofar + [name[0]] + name[1..];
    }
  }

  lemma LexHash(name: string)
    requires IsName(name)
    ensures Lex(Plain, "#" + name) == Lexed(Naming(name), [])
  {
    LexAppend(Plain, "#", name);
    LexName("", name);
    assert "" + name == name;
  }

  lemma LexAfterName(name: string, after: string)
    requires NoMarks(after) && after != "" && !NameChar(after[0])
    ensures Lex(Naming(name), after) == Lexed(Plain, [Hash(name)] + Chars(after))
  {
    LexInert(after);
    assert Lex(Naming(name), after).tokens == [Hash(name)] + Lex(Plain, after).tokens;
  }

  /** #name followed by inert text. */
  lemma LexUse(name: string, after: string)
    requires IsName(name) && NoMarks(after) && after != "" && !NameChar(after[0])
    ensures Lex(Plain, "#" + name + after) == Lexed(Plain, [Hash(name)] + Chars(after))
  {
    LexHash(name);
    LexAfterName(name, after);
    LexAppend(Plain, "#" + name, after);
  }

  lemma LexThenLiteral(front: string, tokens: seq<Token>, value: string, after: string)
    requires Lex(Plain, front) == Lexed(Plain, tokens) && NoMarks(after)
    ensures Lex(Plain, front + Literal(value) + after) == Lexed(Plain, tokens + [Quoted(value)] + Chars(after))
  {
    LexAppend(Plain, front, Literal(value));
    LiteralReadsBack(value);
    LexAppend(Plain, front + Literal(value), after);
    LexInert(after);
  }

  lemma LexPiece(p: Piece)
    requires PieceOk(p)
    ensures Lex(Plain, PieceText(p)) == Lexed(Plain, PieceTokens(p))
  {
    match p
    case Raw(text) => LexInert(text);
    case Str(value) => LiteralReadsBack(value);
    case Use(name, after) => LexUse(name, after);
    case Ref(k, after) => LabelNames(k); LexUse(LabelName(k), after);
    case Get(field, after) =>
      assert "#" + "d" == "#d";
      LexUse("d", "." + field + after);
    case GetAt(path, after) =>
      assert "#" + "d" + ".at(" == "#d" + ".at(";
      LexUse("d", ".at(");
      LexThenLiteral("#d" + ".at(", [Hash("d")] + Chars(".at("), path, after);
    case Spread(field, after) => LexInert("..d." + field + after);
    case Let(k, value) =>
      LabelNames(k);
      var named := " " + LabelName(k) + " = ";
      assert "#" + "let" == "#let";
      LexUse("let", named);
      LexThenLiteral("#let" + named, [Hash("let")] + Chars(named), value, "\n");
    case LetCode(name, code) =>
      assert "#" + "let" == "#let";
      LexUse("let", " " + name + " = " + code);
  }

  lemma {:induction false} LexPieces(ps: seq<Piece>)
    requires AllOk(ps)
    ensures Lex(Plain, Text(ps)) == Lexed(Plain, Tokens(ps))
  {
    if ps != [] {
      LexPiece(ps[0]);
      LexPieces(ps[1..]);
      LexAppend(Plain, PieceText(ps[0]), Text(ps[1..]));
    }
  }

  // ---------------------------------------------------------------------------
  // Evaluating
  // ---------------------------------------------------------------------------

  datatype Shown = Shows(text: string) | Unbound(name: string)

  /** The characters up to the next `#name` or string. */
  function Spelled(ts: seq<Token>): (s: string)
    ensures |s| <= |ts|
  {
    if ts == [] || !ts[0].Char? then "" else [ts[0].c] + Spelled(ts[1..])
  }

  function NameRun(s: string): (n: string)
    ensures n <= s
  {
    if s == "" || !NameChar(s[0]) then "" else [s[0]] + NameRun(s[1..])
  }

  /** The environment after a `#let` whose remaining tokens these are. */
  function Bound(ts: seq<Token>, env: map<string, string>): map<string, string> {
    var s := Spelled(ts);
    if s == "" || s[0] != ' ' then env
    else
      var name := NameRun(s[1..]);
      if s[1 + |name|..] == " = " && |s| < |ts| && ts[|s|].Quoted? then env[name := ts[|s|].text]
      else env - {name}
  }

  /** What the `#name` expressions print, in order; an unbound label name is reported. */
  function Evaluate(ts: seq<Token>, env: map<string, string>): seq<Shown> {
    if ts == [] then []
    else if ts[0] == Hash("let") then Evaluate(ts[1..], Bound(ts[1..], env))
    else if ts[0].Hash? && ts[0].name in env then [Shows(env[ts[0].name])] + Evaluate(ts[1..], env)
    else if ts[0].Hash? && IsLabelName(ts[0].name) then [Unbound(ts[0].name)] + Evaluate(ts[1..], env)
    else Evaluate(ts[1..], env)
  }

  function EnvStep(p: Piece, env: map<string, string>): map<string, string> {
    match p
    case Let(k, value) => env[LabelName(k) := value]
    case LetCode(name, _) => env - {name}
    case _ => env
  }

  function EnvAfter(ps: seq<Piece>, env: map<string, string>): map<string, string> {
    if ps == [] then env else EnvAfter(ps[1..], EnvStep(ps[0], env))
  }

  function PieceShows(p: Piece, env: map<string, string>): seq<Shown> {
    if !p.Ref? then []
    else if LabelName(p.index) in env then [Shows(env[LabelName(p.index)])]
    else [Unbound(LabelName(p.index))]
  }

  function Showing(ps: seq<Piece>, env: map<string, string>): seq<Shown> {
    if ps == [] then [] else PieceShows(ps[0], env) + Showing(ps[1..], EnvStep(ps[0], env))
  }

  predicate LabelsOnly(env: map<string, string>) { forall n :: n in env ==> IsLabelName(n) }

  lemma {:induction false} SpelledChars(s: string, rest: seq<Token>)
    ensures Spelled(Chars(s) + rest) == s + Spelled(rest)
  {
    if s == "" {
      assert Chars(s) + rest == rest;
    } else {
      assert (Chars(s) + rest)[1..] == Chars(s[1..]) + rest;
      SpelledChars(s[1..], rest);
      assert s + Spelled(rest) == [s[0]] + (s[1..] + Spelled(rest));
    }
  }

  lemma {:induction false} NameRunOf(name: string, after: string)
    requires forall i :: 0 <= i < |name| ==> NameChar(name[i])
    requires after == "" || !NameChar(after[0])
    ensures NameRun(name + after) == name
  {
    if name == "" {
      assert name + after == after;
    } else {
      assert (name + after)[1..] == name[1..] + after;
      NameRunOf(name[1..], after);
    }
  }

  lemma {:induction false} CharsShowNothing(s: string, rest: seq<Token>, env: map<string, string>)
    ensures Evaluate(Chars(s) + rest, env) == Evaluate(rest, env)
  {
    if s == "" {
      assert Chars(s) + rest == rest;
    } else {
      assert (Chars(s) + rest)[1..] == Chars(s[1..]) + rest;
      CharsShowNothing(s[1..], rest, env);
    }
  }

  lemma LetBinds(name: string, value: string, rest: seq<Token>, env: map<string, string>)
    requires IsName(name)
    ensures Bound(Chars(" " + name + " = ") + [Quoted(value)] + rest, env) == env[name := value]
  {
    var front := " " + name + " = ";
    var ts := Chars(front) + [Quoted(value)] + rest;
    assert ts == Chars(front) + ([Quoted(value)] + rest);
    SpelledChars(front, [Quoted(value)] + rest);
    assert front + "" == front;
    assert front[1..] == name + " = ";
    NameRunOf(name, " = ");
    assert front[1 + |name|..] == " = ";
  }

  lemma LetUnbinds(name: string, code: string, rest: seq<Token>, env: map<string, string>)
    requires IsName(name) && code != ""
    ensures Bound(Chars(" " + name + " = " + code) + rest, env) == env - {name}
  {
    var front := " " + name + " = " + code;
    SpelledChars(front, rest);
    var s := front + Spelled(rest);
    assert s[1..] == name + (" = " + code + Spelled(rest));
    NameRunOf(name, " = " + code + Spelled(rest));
    assert |s[1 + |name|..]| > 3;
  }

  lemma HashThenChars(name: string, s: string, rest: seq<Token>, env: map<string, string>)
    requires name != "let" && name !in env && !IsLabelName(name)
    ensures Evaluate([Hash(name)] + Chars(s) + rest, env) == Evaluate(rest, env)
  {
    var ts := [Hash(name)] + Chars(s) + rest;
    assert ts[1..] == Chars(s) + rest;
    CharsShowNothing(s, rest, env);
  }

  lemma EvaluateLet(k: nat, value: string, rest: seq<Token>, env: map<string, string>)
    ensures Evaluate(PieceTokens(Let(k, value)) + rest, env) == Evaluate(rest, env[LabelName(k) := value])
  {
    LabelNames(k);
    var front := " " + LabelName(k) + " = ";
    var ts := PieceTokens(Let(k, value)) + rest;
    var env' := env[LabelName(k) := value];
    assert ts[1..] == Chars(front) + ([Quoted(value)] + (Chars("\n") + rest));
    assert ts[1..] == Chars(front) + [Quoted(value)] + (Chars("\n") + rest);
    LetBinds(LabelName(k), value, Chars("\n") + rest, env);
    CharsShowNothing(front, [Quoted(value)] + (Chars("\n") + rest), env');
    assert ([Quoted(value)] + (Chars("\n") + rest))[1..] == Chars("\n") + rest;
    CharsShowNothing("\n", rest, env');
  }

  lemma EvaluateRef(k: nat, after: string, rest: seq<Token>, env: map<string, string>)
    ensures Evaluate(PieceTokens(Ref(k, after)) + rest, env) == PieceShows(Ref(k, after), env) + Evaluate(rest, env)
  {
    LabelNames(k);
    var ts := PieceTokens(Ref(k, after)) + rest;
    assert ts[1..] == Chars(after) + rest;
    assert LabelName(k) != "let" by { assert LabelName(k)[0] == 's'; }
    CharsShowNothing(after, rest, env);
  }

  lemma EvaluateGet(p: Piece, rest: seq<Token>, env: map<string, string>)
    requires LabelsOnly(env) && (p.Get? || p.GetAt?)
    ensures Evaluate(PieceTokens(p) + rest, env) == Evaluate(rest, env)
  {
    assert !IsLabelName("d");
    if p.Get? {
      HashThenChars("d", "." + p.field + p.after, rest, env);
    } else {
      var tail := [Quoted(p.path)] + (Chars(p.after) + rest);
      assert PieceTokens(p) + rest == [Hash("d")] + Chars(".at(") + tail;
      HashThenChars("d", ".at(", tail, env);
      assert tail[1..] == Chars(p.after) + rest;
      CharsShowNothing(p.after, rest, env);
    }
  }

  lemma EvaluateLetCode(name: string, code: string, rest: seq<Token>, env: map<string, string>)
    requires IsName(name) && code != ""
    ensures Evaluate(PieceTokens(LetCode(name, code)) + rest, env) == Evaluate(rest, env - {name})
  {
    var front := " " + name + " = " + code;
    var ts := PieceTokens(LetCode(name, code)) + rest;
    assert ts[1..] == Chars(front) + rest;
    LetUnbinds(name, code, rest, env);
    CharsShowNothing(front, rest, env - {name});
  }

  lemma EvaluateOther(p: Piece, rest: seq<Token>, env: map<string, string>)
    requires PieceOk(p) && LabelsOnly(env) && !p.Let? && !p.LetCode? && !p.Ref?
    ensures Evaluate(PieceTokens(p) + rest, env) == Evaluate(rest, env)
  {
    match p
    case Raw(text) => CharsShowNothing(text, rest, env);
    case Str(value) => assert (PieceTokens(p) + rest)[1..] == rest;
    case Use(name, after) => HashThenChars(name, after, rest, env);
    case Get(_, _) => EvaluateGet(p, rest, env);
    case GetAt(_, _) => EvaluateGet(p, rest, env);
    case Spread(field, after) => CharsShowNothing("..d." + field + after, rest, env);
  }

  lemma EvaluatePiece(p: Piece, rest: seq<Token>, env: map<string, string>)
    requires PieceOk(p) && LabelsOnly(env)
    ensures Evaluate(PieceTokens(p) + rest, env) == PieceShows(p, env) + Evaluate(rest, EnvStep(p, env))
    ensures LabelsOnly(EnvStep(p, env))
  {
    if p.Ref? {
      EvaluateRef(p.index, p.after, rest, env);
    } else if p.Let? {
      LabelNames(p.index);
      EvaluateLet(p.index, p.value, rest, env);
    } else if p.LetCode? {
      EvaluateLetCode(p.name, p.code, rest, env);
    } else {
      EvaluateOther(p, rest, env);
    }
  }

  /** Evaluating the text of the pieces shows what the pieces say. */
  lemma {:induction false} EvaluatePieces(ps: seq<Piece>, env: map<string, string>)
    requires AllOk(ps) && LabelsOnly(env)
    ensures Evaluate(Tokens(ps), env) == Showing(ps, env)
  {
    if ps != [] {
      EvaluatePiece(ps[0], Tokens(ps[1..]), env);
      EvaluatePieces(ps[1..], EnvStep(ps[0], env));
    }
  }

  // ---------------------------------------------------------------------------
  // Which label names and which fields of the input are used
  // ---------------------------------------------------------------------------

  function LabelUses(ts: seq<Token>): seq<string> {
    if ts == [] then []
    else (if ts[0].Hash? && IsLabelName(ts[0].name) then [ts[0].name] else []) + LabelUses(ts[1..])
  }

  /** The name read where `d` stands at the head, given the characters after it. */
  function FieldRead(ts: seq<Token>): string {
    var s := Spelled(ts);
    if s == ".at(" && |s| < |ts| && ts[|s|].Quoted? then ts[|s|].text
    else if s != "" && s[0] == '.' then NameRun(s[1..])
    else ""
  }

  /** Every name read from the input document: `#d.name`, `#d.at("name"`, `..d.name`. */
  function Reads(ts: seq<Token>): seq<string> {
    if ts == [] then []
    else
      (if ts[0] == Hash("d") then [FieldRead(ts[1..])]
       else if "..d." <= Spelled(ts) then [NameRun(Spelled(ts)[4..])]
       else []) + Reads(ts[1..])
  }

  function PieceReads(p: Piece): seq<string> {
    if p.Get? || p.Spread? then [p.field] else if p.GetAt? then [p.path] else []
  }

  function AllReads(ps: seq<Piece>): seq<string> {
    if ps == [] then [] else PieceReads(ps[0]) + AllReads(ps[1..])
  }

  function RefOf(p: Piece): seq<nat> { if p.Ref? then [p.index] else [] }

  /** The labels referred to, in order. */
  function Refs(ps: seq<Piece>): seq<nat> {
    if ps == [] then [] else RefOf(ps[0]) + Refs(ps[1..])
  }

  function Names(refs: seq<nat>): seq<string> {
    seq(|refs|, i requires 0 <= i < |refs| => LabelName(refs[i]))
  }

  lemma NoTwoDots(s: string, rest: string)
    requires s != "" && NoSpread(s)
    ensures !("..d." <= s + rest)
  {
    assert (s + rest)[0] == s[0];
    assert |s| > 1 ==> (s + rest)[1] == s[1];
    assert "..d."[0] == '.' && "..d."[1] == '.';
  }

  lemma {:induction false} CharsReadNothing(s: string, rest: seq<Token>)
    requires NoSpread(s)
    ensures Reads(Chars(s) + rest) == Reads(rest)
  {
    var ts := Chars(s) + rest;
    if s == "" {
      assert ts == rest;
    } else {
      SpelledChars(s, rest);
      NoTwoDots(s, Spelled(rest));
      assert ts[1..] == Chars(s[1..]) + rest;
      CharsReadNothing(s[1..], rest);
    }
  }

  lemma ReadsAfterHash(name: string, s: string, rest: seq<Token>)
    requires name != "d" && NoSpread(s)
    ensures Reads([Hash(name)] + Chars(s) + rest) == Reads(rest)
  {
    var ts := [Hash(name)] + Chars(s) + rest;
    assert ts[1..] == Chars(s) + rest;
    CharsReadNothing(s, rest);
  }

  lemma NoSpreadInField(field: string, after: string)
    requires IsName(field) && EndsName(after)
    ensures NoSpread("." + field + after) && NoSpread(".d." + field + after)
  {
    forall s | s == "." + field + after || s == ".d." + field + after ensures NoSpread(s) {
      var n := |s| - |after|;
      forall i | 0 <= i < |s| && s[i] == '.' ensures i + 1 < |s| && s[i + 1] != '.' {
        if i >= n { assert s[i] == after[i - n]; }
      }
    }
  }

  lemma ReadsGet(field: string, after: string, rest: seq<Token>)
    requires PieceOk(Get(field, after))
    ensures Reads(PieceTokens(Get(field, after)) + rest) == [field] + Reads(rest)
  {
    var s := "." + field + after;
    var ts := PieceTokens(Get(field, after)) + rest;
    assert ts[1..] == Chars(s) + rest;
    SpelledChars(s, rest);
    var spelled := s + Spelled(rest);
    assert spelled[1..] == field + (after + Spelled(rest));
    NameRunOf(field, after + Spelled(rest));
    NoSpreadInField(field, after);
    CharsReadNothing(s, rest);
  }

  lemma FieldReadAt(path: string, rest: seq<Token>)
    ensures FieldRead(Chars(".at(") + ([Quoted(path)] + rest)) == path
  {
    SpelledChars(".at(", [Quoted(path)] + rest);
    assert ".at(" + "" == ".at(";
  }

  lemma ReadsGetAt(path: string, after: string, rest: seq<Token>)
    requires Inert(after)
    ensures Reads(PieceTokens(GetAt(path, after)) + rest) == [path] + Reads(rest)
  {
    var ts := PieceTokens(GetAt(path, after)) + rest;
    var tail := [Quoted(path)] + (Chars(after) + rest);
    assert ts[0] == Hash("d") && ts[1..] == Chars(".at(") + tail;
    FieldReadAt(path, Chars(after) + rest);
    CharsReadNothing(".at(", tail);
    assert tail[1..] == Chars(after) + rest;
    CharsReadNothing(after, rest);
  }

  lemma ReadsSpread(field: string, after: string, rest: seq<Token>)
    requires IsName(field) && EndsName(after)
    ensures Reads(PieceTokens(Spread(field, after)) + rest) == [field] + Reads(rest)
  {
    var ts := PieceTokens(Spread(field, after)) + rest;
    var s := ".d." + field + after;
    assert Chars("..d." + field + after) == [Char('.')] + Chars(s);
    assert ts[0] == Char('.') && ts[1..] == Chars(s) + rest;
    SpreadRead(field, after, rest);
    NoSpreadInField(field, after);
    CharsReadNothing(s, rest);
  }

  lemma SpreadRead(field: string, after: string, rest: seq<Token>)
    requires IsName(field) && EndsName(after)
    ensures var spelled := Spelled(PieceTokens(Spread(field, after)) + rest);
            "..d." <= spelled && NameRun(spelled[4..]) == field
  {
    SpelledChars("..d." + field + after, rest);
    var spelled := "..d." + field + after + Spelled(rest);
    assert spelled[4..] == field + (after + Spelled(rest));
    NameRunOf(field, after + Spelled(rest));
  }

  lemma ReadsLet(p: Piece, rest: seq<Token>)
    requires PieceOk(p) && (p.Let? || p.LetCode?)
    ensures Reads(PieceTokens(p) + rest) == Reads(rest)
  {
    if p.Let? {
      LabelNames(p.index);
      var front := " " + LabelName(p.index) + " = ";
      var tail := [Quoted(p.value)] + (Chars("\n") + rest);
      assert PieceTokens(p) + rest == [Hash("let")] + Chars(front) + tail;
      ReadsAfterHash("let", front, tail);
      assert tail[1..] == Chars("\n") + rest;
      CharsReadNothing("\n", rest);
    } else {
      var front := " " + p.name + " = " + p.code;
      var n := |p.name| + 4;
      assert forall i :: n <= i < |front| ==> front[i] == p.code[i - n];
      ReadsAfterHash("let", front, rest);
    }
  }

  lemma ReadsPiece(p: Piece, rest: seq<Token>)
    requires PieceOk(p)
    ensures Reads(PieceTokens(p) + rest) == PieceReads(p) + Reads(rest)
  {
    match p
    case Raw(text) => CharsReadNothing(text, rest);
    case Str(value) => assert (PieceTokens(p) + rest)[1..] == rest;
    case Use(name, after) => ReadsAfterHash(name, after, rest);
    case Ref(k, after) =>
      LabelNames(k);
      assert LabelName(k) != "d" by { assert LabelName(k)[0] == 's'; }
      ReadsAfterHash(LabelName(k), after, rest);
    case Get(field, after) => ReadsGet(field, after, rest);
    case GetAt(path, after) => ReadsGetAt(path, after, rest);
    case Spread(field, after) => ReadsSpread(field, after, rest);
    case Let(_, _) => ReadsLet(p, rest);
    case LetCode(_, _) => ReadsLet(p, rest);
  }

  /** The names read by the text are those the pieces read. */
  lemma {:induction false} ReadsOfPieces(ps: seq<Piece>)
    requires AllOk(ps)
    ensures Reads(Tokens(ps)) == AllReads(ps)
  {
    if ps != [] {
      ReadsPiece(ps[0], Tokens(ps[1..]));
      ReadsOfPieces(ps[1..]);
    }
  }

  lemma {:induction false} LabelUsesAppend(a: seq<Token>, b: seq<Token>)
    ensures LabelUses(a + b) == LabelUses(a) + LabelUses(b)
  {
    if a == [] {
      assert a + b == b;
    } else {
      assert (a + b)[1..] == a[1..] + b;
      LabelUsesAppend(a[1..], b);
    }
  }

  lemma {:induction false} NoHashNoUse(ts: seq<Token>)
    requires forall i :: 0 <= i < |ts| && ts[i].Hash? ==> !IsLabelName(ts[i].name)
    ensures LabelUses(ts) == []
  {
    if ts != [] {
      NoHashNoUse(ts[1..]);
    }
  }

  lemma LabelUsesOfPiece(p: Piece)
    requires PieceOk(p)
    ensures LabelUses(PieceTokens(p)) == Names(RefOf(p))
  {
    if p.Ref? {
      LabelNames(p.index);
      assert PieceTokens(p)[1..] == Chars(p.after);
      NoHashNoUse(Chars(p.after));
    } else {
      assert !IsLabelName("d") && !IsLabelName("let");
      NoHashNoUse(PieceTokens(p));
    }
  }

  lemma NamesAppend(a: seq<nat>, b: seq<nat>)
    ensures Names(a + b) == Names(a) + Names(b)
  {
  }

  /** The label names used by the text are those of the labels the pieces refer to. */
  lemma {:induction false} LabelUsesOfPieces(ps: seq<Piece>)
    requires AllOk(ps)
    ensures LabelUses(Tokens(ps)) == Names(Refs(ps))
  {
    if ps != [] {
      LabelUsesOfPiece(ps[0]);
      LabelUsesOfPieces(ps[1..]);
      LabelUsesAppend(PieceTokens(ps[0]), Tokens(ps[1..]));
      NamesAppend(RefOf(ps[0]), Refs(ps[1..]));
    }
  }
}
