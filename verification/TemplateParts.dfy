/**
 What a block contributes to a template: source text, labels, schema and form. Contributions
 number their labels from 0; joining two of them renumbers the second.
 */
module TemplateParts {
  import opened Strings
  import opened Typst

  datatype Property = StringValue | MoneyValue | Rows(keys: set<string>)

  datatype Column = Column(title: string, key: string)

  datatype Widget = TextBox | MoneyBox | TableBox(columns: seq<Column>)

  datatype FormField = FormField(field: string, labelRu: string, labelKk: string, widget: Widget)

  datatype Part = Part(
    preamble: seq<Piece>,
    body: seq<Piece>,
    labels: seq<string>,
    properties: map<string, Property>,
    required: seq<string>,
    form: seq<FormField>)

  const Nothing := Part([], [], [], map[], [], [])

  function ShiftPiece(p: Piece, d: nat): Piece {
    match p
    case Ref(k, after) => Ref(k + d, after)
    case Let(k, value) => Let(k + d, value)
    case _ => p
  }

  /** The pieces with every label number raised. */
  function Shift(ps: seq<Piece>, d: nat): seq<Piece> {
    seq(|ps|, i requires 0 <= i < |ps| => ShiftPiece(ps[i], d))
  }

  function Join(a: Part, b: Part): Part {
    var n := |a.labels|;
    Part(a.preamble + Shift(b.preamble, n), a.body + Shift(b.body, n), a.labels + b.labels,
         a.properties + b.properties, a.required + b.required, a.form + b.form)
  }

  function JoinAll(parts: seq<Part>): Part {
    if parts == [] then Nothing else Join(JoinAll(parts[..|parts| - 1]), parts[|parts| - 1])
  }

  lemma JoinAllSnoc(parts: seq<Part>, p: Part)
    ensures JoinAll(parts + [p]) == Join(JoinAll(parts), p)
  {
    assert (parts + [p])[..|parts|] == parts;
  }

  // ---------------------------------------------------------------------------
  // Joining
  // ---------------------------------------------------------------------------

  lemma ShiftAppend(a: seq<Piece>, b: seq<Piece>, d: nat)
    ensures Shift(a + b, d) == Shift(a, d) + Shift(b, d)
  {
  }

  lemma ShiftTwice(ps: seq<Piece>, c: nat, d: nat)
    ensures Shift(Shift(ps, c), d) == Shift(ps, c + d)
  {
  }

  /** No labels bound or referred to. */
  predicate Unnumbered(ps: seq<Piece>) { forall i :: 0 <= i < |ps| ==> !ps[i].Ref? && !ps[i].Let? }

  lemma ShiftUnnumbered(ps: seq<Piece>, d: nat)
    requires Unnumbered(ps)
    ensures Shift(ps, d) == ps
  {
  }

  lemma JoinAssociates(a: Part, b: Part, c: Part)
    ensures Join(Join(a, b), c) == Join(a, Join(b, c))
  {
    var m, n := |a.labels|, |b.labels|;
    ShiftAppend(b.preamble, Shift(c.preamble, n), m);
    ShiftTwice(c.preamble, n, m);
    ShiftAppend(b.body, Shift(c.body, n), m);
    ShiftTwice(c.body, n, m);
    assert a.preamble + Shift(b.preamble, m) + Shift(c.preamble, m + n)
        == a.preamble + (Shift(b.preamble, m) + Shift(c.preamble, m + n));
    assert a.body + Shift(b.body, m) + Shift(c.body, m + n) == a.body + (Shift(b.body, m) + Shift(c.body, m + n));
    assert a.properties + b.properties + c.properties == a.properties + (b.properties + c.properties);
    assert a.labels + b.labels + c.labels == a.labels + (b.labels + c.labels);
    assert a.required + b.required + c.required == a.required + (b.required + c.required);
    assert a.form + b.form + c.form == a.form + (b.form + c.form);
  }

  lemma JoinNothing(a: Part)
    ensures Join(a, Nothing) == a
  {
    assert Shift([], |a.labels|) == [];
    assert a.properties + map[] == a.properties;
  }

  lemma {:induction false} JoinAllAppend(a: seq<Part>, b: seq<Part>)
    ensures JoinAll(a + b) == Join(JoinAll(a), JoinAll(b))
  {
    if b == [] {
      assert a + b == a;
      JoinNothing(JoinAll(a));
    } else {
      var pre, last := b[..|b| - 1], b[|b| - 1];
      assert (a + b)[..|a + b| - 1] == a + pre;
      JoinAllAppend(a, pre);
      JoinAssociates(JoinAll(a), JoinAll(pre), last);
    }
  }

  // ---------------------------------------------------------------------------
  // Faithful parts: labels bound and printed in order, each once
  // ---------------------------------------------------------------------------

  predicate Binding(ps: seq<Piece>) { forall i :: 0 <= i < |ps| ==> ps[i].Let? || ps[i].LetCode? || ps[i].Raw? }

  predicate Printing(ps: seq<Piece>) { forall i :: 0 <= i < |ps| ==> !ps[i].Let? && !ps[i].LetCode? }

  function LetOf(p: Piece): seq<(nat, string)> { if p.Let? then [(p.index, p.value)] else [] }

  /** The label bindings, in order. */
  function Lets(ps: seq<Piece>): seq<(nat, string)> {
    if ps == [] then [] else LetOf(ps[0]) + Lets(ps[1..])
  }

  function Numbered(labels: seq<string>, start: nat): seq<(nat, string)> {
    seq(|labels|, i requires 0 <= i < |labels| => (start + i, labels[i]))
  }

  function From(start: nat, n: nat): seq<nat> { seq(n, i requires 0 <= i < n => start + i) }

  predicate Faithful(p: Part) {
    AllOk(p.preamble) && AllOk(p.body) && Binding(p.preamble) && Printing(p.body) &&
    Lets(p.preamble) == Numbered(p.labels, 0) && Refs(p.body) == From(0, |p.labels|)
  }

  lemma {:induction false} LetsAppend(a: seq<Piece>, b: seq<Piece>)
    ensures Lets(a + b) == Lets(a) + Lets(b)
  {
    if a == [] {
      assert a + b == b;
    } else {
      assert (a + b)[1..] == a[1..] + b;
      LetsAppend(a[1..], b);
    }
  }

  lemma {:induction false} RefsAppend(a: seq<Piece>, b: seq<Piece>)
    ensures Refs(a + b) == Refs(a) + Refs(b)
  {
    if a == [] {
      assert a + b == b;
    } else {
      assert (a + b)[1..] == a[1..] + b;
      RefsAppend(a[1..], b);
    }
  }

  lemma {:induction false} ReadsAppend(a: seq<Piece>, b: seq<Piece>)
    ensures AllReads(a + b) == AllReads(a) + AllReads(b)
  {
    if a == [] {
      assert a + b == b;
    } else {
      assert (a + b)[1..] == a[1..] + b;
      ReadsAppend(a[1..], b);
    }
  }

  function RaisedLets(lets: seq<(nat, string)>, d: nat): seq<(nat, string)> {
    seq(|lets|, i requires 0 <= i < |lets| => (lets[i].0 + d, lets[i].1))
  }

  lemma {:induction false} LetsShift(ps: seq<Piece>, d: nat)
    ensures Lets(Shift(ps, d)) == RaisedLets(Lets(ps), d)
  {
    if ps != [] {
      assert Shift(ps, d)[1..] == Shift(ps[1..], d);
      LetsShift(ps[1..], d);
      assert RaisedLets(LetOf(ps[0]) + Lets(ps[1..]), d) == RaisedLets(LetOf(ps[0]), d) + RaisedLets(Lets(ps[1..]), d);
      assert RaisedLets(LetOf(ps[0]), d) == LetOf(ShiftPiece(ps[0], d));
    }
  }

  function Raised(refs: seq<nat>, d: nat): seq<nat> {
    seq(|refs|, i requires 0 <= i < |refs| => refs[i] + d)
  }

  lemma {:induction false} RefsShift(ps: seq<Piece>, d: nat)
    ensures Refs(Shift(ps, d)) == Raised(Refs(ps), d)
  {
    if ps != [] {
      assert Shift(ps, d)[1..] == Shift(ps[1..], d);
      RefsShift(ps[1..], d);
      if ps[0].Ref? {
        assert Refs(ps) == [ps[0].index] + Refs(ps[1..]);
      }
    }
  }

  lemma {:induction false} ReadsShift(ps: seq<Piece>, d: nat)
    ensures AllReads(Shift(ps, d)) == AllReads(ps)
  {
    if ps != [] {
      assert Shift(ps, d)[1..] == Shift(ps[1..], d);
      ReadsShift(ps[1..], d);
    }
  }

  lemma ShiftKeeps(ps: seq<Piece>, d: nat)
    requires AllOk(ps)
    ensures AllOk(Shift(ps, d))
    ensures Binding(ps) ==> Binding(Shift(ps, d))
    ensures Printing(ps) ==> Printing(Shift(ps, d))
  {
    forall i | 0 <= i < |ps| ensures PieceOk(Shift(ps, d)[i]) {
      assert PieceOk(ps[i]);
    }
  }

  lemma FaithfulPreamble(a: Part, b: Part)
    requires Faithful(a) && Faithful(b)
    ensures Lets(Join(a, b).preamble) == Numbered(Join(a, b).labels, 0)
  {
    var n := |a.labels|;
    LetsAppend(a.preamble, Shift(b.preamble, n));
    LetsShift(b.preamble, n);
    assert Numbered(a.labels + b.labels, 0) == Numbered(a.labels, 0) + RaisedLets(Numbered(b.labels, 0), n);
  }

  lemma FaithfulBody(a: Part, b: Part)
    requires Faithful(a) && Faithful(b)
    ensures Refs(Join(a, b).body) == From(0, |Join(a, b).labels|)
  {
    var n := |a.labels|;
    RefsAppend(a.body, Shift(b.body, n));
    RefsShift(b.body, n);
  }

  lemma JoinFaithful(a: Part, b: Part)
    requires Faithful(a) && Faithful(b)
    ensures Faithful(Join(a, b))
  {
    FaithfulPreamble(a, b);
    FaithfulBody(a, b);
    ShiftKeeps(b.preamble, |a.labels|);
    ShiftKeeps(b.body, |a.labels|);
  }

  lemma {:induction false} JoinAllFaithful(parts: seq<Part>)
    requires forall i :: 0 <= i < |parts| ==> Faithful(parts[i])
    ensures Faithful(JoinAll(parts))
  {
    if parts != [] {
      JoinAllFaithful(parts[..|parts| - 1]);
      JoinFaithful(JoinAll(parts[..|parts| - 1]), parts[|parts| - 1]);
    }
  }

  lemma {:induction false} UnnumberedIsSilent(ps: seq<Piece>)
    requires Unnumbered(ps)
    ensures Lets(ps) == [] && Refs(ps) == []
  {
    if ps != [] {
      UnnumberedIsSilent(ps[1..]);
    }
  }

  /** A part with unnumbered pieces put around its body and in front of its preamble. */
  function Wrap(front: seq<Piece>, start: seq<Piece>, p: Part, end: seq<Piece>): Part {
    p.(preamble := front + p.preamble, body := start + p.body + end)
  }

  lemma WrapRefs(start: seq<Piece>, body: seq<Piece>, end: seq<Piece>)
    requires Unnumbered(start) && Unnumbered(end)
    ensures Refs(start + body + end) == Refs(body)
  {
    UnnumberedIsSilent(start);
    UnnumberedIsSilent(end);
    RefsAppend(start + body, end);
    RefsAppend(start, body);
  }

  lemma WrapFaithful(front: seq<Piece>, start: seq<Piece>, p: Part, end: seq<Piece>)
    requires Faithful(p) && AllOk(front) && AllOk(start) && AllOk(end)
    requires Unnumbered(front) && Unnumbered(start) && Unnumbered(end)
    requires Binding(front) && Printing(start) && Printing(end)
    ensures Faithful(Wrap(front, start, p, end))
  {
    UnnumberedIsSilent(front);
    LetsAppend(front, p.preamble);
    WrapRefs(start, p.body, end);
  }

  // ---------------------------------------------------------------------------
  // Closed parts: everything read, required or asked for is declared
  // ---------------------------------------------------------------------------

  ghost predicate Closed(p: Part) {
    (forall f :: f in p.required ==> f in p.properties) &&
    (forall f :: f in p.form ==> f.field in p.properties) &&
    (forall f :: f in AllReads(p.body) ==> f in p.properties) &&
    AllReads(p.preamble) == []
  }

  lemma JoinClosed(a: Part, b: Part)
    requires Closed(a) && Closed(b)
    ensures Closed(Join(a, b))
  {
    var n := |a.labels|;
    ReadsAppend(a.body, Shift(b.body, n));
    ReadsShift(b.body, n);
    ReadsAppend(a.preamble, Shift(b.preamble, n));
    ReadsShift(b.preamble, n);
  }

  lemma {:induction false} JoinAllClosed(parts: seq<Part>)
    requires forall i :: 0 <= i < |parts| ==> Closed(parts[i])
    ensures Closed(JoinAll(parts))
  {
    if parts != [] {
      JoinAllClosed(parts[..|parts| - 1]);
      JoinClosed(JoinAll(parts[..|parts| - 1]), parts[|parts| - 1]);
    }
  }

  lemma WrapClosed(front: seq<Piece>, start: seq<Piece>, p: Part, end: seq<Piece>)
    requires Closed(p) && AllReads(front) == [] && AllReads(start) == [] && AllReads(end) == []
    ensures Closed(Wrap(front, start, p, end))
  {
    ReadsAppend(front, p.preamble);
    ReadsAppend(start + p.body, end);
    ReadsAppend(start, p.body);
  }

  /** Parts that declare nothing declare nothing together. */
  lemma {:induction false} LabelsSayNothing(parts: seq<Part>)
    requires forall i :: 0 <= i < |parts| ==> parts[i].properties == map[] && parts[i].form == []
    ensures JoinAll(parts).properties == map[] && JoinAll(parts).form == []
  {
    if parts != [] {
      LabelsSayNothing(parts[..|parts| - 1]);
    }
  }

  /** What is closed and declares nothing reads nothing. */
  lemma ClosedReadsNothing(p: Part)
    requires Closed(p) && p.properties == map[]
    ensures AllReads(p.body) == []
  {
    assert |AllReads(p.body)| > 0 ==> AllReads(p.body)[0] in AllReads(p.body);
  }

  ghost predicate Good(p: Part) { Faithful(p) && Closed(p) }

  lemma JoinAllGood(parts: seq<Part>)
    requires forall i :: 0 <= i < |parts| ==> Good(parts[i])
    ensures Good(JoinAll(parts))
  {
    JoinAllFaithful(parts);
    JoinAllClosed(parts);
  }

  // ---------------------------------------------------------------------------
  // Body pieces, with the labels they refer to and the fields they read
  // ---------------------------------------------------------------------------

  predicate Neat(ps: seq<Piece>, refs: seq<nat>, fields: seq<string>) {
    AllOk(ps) && Printing(ps) && Refs(ps) == refs && AllReads(ps) == fields
  }

  predicate NeatPiece(p: Piece) { PieceOk(p) && !p.Let? && !p.LetCode? }

  lemma Neat1(a: Piece)
    requires NeatPiece(a)
    ensures Neat([a], RefOf(a), PieceReads(a))
  {
    assert [a][1..] == [];
  }

  lemma NeatJoin(a: seq<Piece>, ra: seq<nat>, da: seq<string>, b: seq<Piece>, rb: seq<nat>, db: seq<string>)
    requires Neat(a, ra, da) && Neat(b, rb, db)
    ensures Neat(a + b, ra + rb, da + db)
  {
    RefsAppend(a, b);
    ReadsAppend(a, b);
  }

  lemma Neat2(a: Piece, b: Piece)
    requires NeatPiece(a) && NeatPiece(b)
    ensures Neat([a, b], RefOf(a) + RefOf(b), PieceReads(a) + PieceReads(b))
  {
    Neat1(a);
    Neat1(b);
    NeatJoin([a], RefOf(a), PieceReads(a), [b], RefOf(b), PieceReads(b));
    assert [a, b] == [a] + [b];
  }

  lemma Neat3(a: Piece, b: Piece, c: Piece)
    requires NeatPiece(a) && NeatPiece(b) && NeatPiece(c)
    ensures Neat([a, b, c], RefOf(a) + RefOf(b) + RefOf(c), PieceReads(a) + PieceReads(b) + PieceReads(c))
  {
    Neat2(a, b);
    Neat1(c);
    NeatJoin([a, b], RefOf(a) + RefOf(b), PieceReads(a) + PieceReads(b), [c], RefOf(c), PieceReads(c));
    assert [a, b, c] == [a, b] + [c];
  }

  lemma {:induction false} NeatIsUnnumbered(ps: seq<Piece>)
    requires Neat(ps, [], [])
    ensures Unnumbered(ps)
  {
    if ps != [] {
      assert Neat(ps[1..], [], []);
      NeatIsUnnumbered(ps[1..]);
    }
  }

  /** Binding one label and printing it. */
  function LabelPart(text: string, body: seq<Piece>): Part { Part([Let(0, text)], body, [text], map[], [], []) }

  lemma LabelFaithful(text: string, body: seq<Piece>, fields: seq<string>)
    requires Neat(body, [0], fields)
    ensures Faithful(LabelPart(text, body))
    ensures AllReads(LabelPart(text, body).preamble) == []
  {
    assert [Let(0, text)][1..] == [];
    assert From(0, 1) == [0];
  }

  lemma LabelGood(text: string, body: seq<Piece>)
    requires Neat(body, [0], [])
    ensures Good(LabelPart(text, body))
  {
    LabelFaithful(text, body, []);
  }

  lemma TwoLets(first: string, second: string)
    ensures Lets([Let(0, first), Let(1, second)]) == Numbered([first, second], 0)
    ensures AllReads([Let(0, first), Let(1, second)]) == []
  {
    var a, b := [Let(0, first)], [Let(1, second)];
    assert [Let(0, first), Let(1, second)] == a + b;
    assert a[1..] == [] && b[1..] == [];
    assert Lets(a) == [(0, first)] && Lets(b) == [(1, second)];
    LetsAppend(a, b);
    ReadsAppend(a, b);
  }

  lemma WrapGood(front: seq<Piece>, start: seq<Piece>, p: Part, end: seq<Piece>)
    requires Good(p) && Neat(start, [], []) && Neat(end, [], [])
    requires AllOk(front) && Binding(front) && Unnumbered(front) && AllReads(front) == []
    ensures Good(Wrap(front, start, p, end))
  {
    NeatIsUnnumbered(start);
    NeatIsUnnumbered(end);
    WrapFaithful(front, start, p, end);
    WrapClosed(front, start, p, end);
  }

  // ---------------------------------------------------------------------------
  // What a faithful part prints
  // ---------------------------------------------------------------------------

  function AllShown(labels: seq<string>): seq<Shown> {
    seq(|labels|, i requires 0 <= i < |labels| => Shows(labels[i]))
  }

  lemma {:induction false} EnvAfterAppend(a: seq<Piece>, b: seq<Piece>, env: map<string, string>)
    ensures EnvAfter(a + b, env) == EnvAfter(b, EnvAfter(a, env))
    decreases a
  {
    if a == [] {
      assert a + b == b;
    } else {
      assert (a + b)[1..] == a[1..] + b;
      EnvAfterAppend(a[1..], b, EnvStep(a[0], env));
    }
  }

  lemma {:induction false} ShowingAppend(a: seq<Piece>, b: seq<Piece>, env: map<string, string>)
    ensures Showing(a + b, env) == Showing(a, env) + Showing(b, EnvAfter(a, env))
    decreases a
  {
    if a == [] {
      assert a + b == b;
    } else {
      assert (a + b)[1..] == a[1..] + b;
      ShowingAppend(a[1..], b, EnvStep(a[0], env));
    }
  }

  lemma {:induction false} BindingShowsNothing(ps: seq<Piece>, env: map<string, string>)
    requires Unnumbered(ps) || Binding(ps)
    ensures Showing(ps, env) == []
    decreases ps
  {
    if ps != [] {
      BindingShowsNothing(ps[1..], EnvStep(ps[0], env));
    }
  }

  lemma {:induction false} PrintingBindsNothing(ps: seq<Piece>, env: map<string, string>)
    requires Printing(ps)
    ensures EnvAfter(ps, env) == env
  {
    if ps != [] {
      PrintingBindsNothing(ps[1..], env);
    }
  }

  /** The label names from start on stand for these labels. */
  ghost predicate Binds(env: map<string, string>, labels: seq<string>, start: nat) {
    forall j: nat :: start <= j < start + |labels| ==> LabelName(j) in env && env[LabelName(j)] == labels[j - start]
  }

  /** Whatever env says of the label names below start, after says too. */
  ghost predicate KeepsBelow(env: map<string, string>, after: map<string, string>, start: nat) {
    forall j: nat :: j < start && LabelName(j) in env ==>
      LabelName(j) in after && after[LabelName(j)] == env[LabelName(j)]
  }

  lemma NumberedTail(labels: seq<string>, start: nat)
    requires labels != []
    ensures Numbered(labels, start)[1..] == Numbered(labels[1..], start + 1)
  {
  }

  lemma BindsOneMore(env: map<string, string>, after: map<string, string>, labels: seq<string>, start: nat)
    requires labels != [] && Binds(after, labels[1..], start + 1)
    requires KeepsBelow(env[LabelName(start) := labels[0]], after, start + 1)
    ensures Binds(after, labels, start) && KeepsBelow(env, after, start)
  {
    var env' := env[LabelName(start) := labels[0]];
    assert LabelName(start) in env';
    forall j: nat | j < start && LabelName(j) in env
      ensures LabelName(j) in after && after[LabelName(j)] == env[LabelName(j)]
    {
      LabelNamesDiffer(j, start);
      assert LabelName(j) in env';
    }
  }

  lemma UnbindingKeeps(env: map<string, string>, name: string, start: nat)
    requires !IsLabelName(name)
    ensures KeepsBelow(env, env - {name}, start)
  {
    forall j: nat ensures LabelName(j) != name { LabelNames(j); }
  }

  /** After the bindings every label name stands for its label. */
  lemma {:induction false} BindingsBind(ps: seq<Piece>, labels: seq<string>, start: nat, env: map<string, string>)
    requires AllOk(ps) && Binding(ps) && Lets(ps) == Numbered(labels, start)
    ensures Binds(EnvAfter(ps, env), labels, start) && KeepsBelow(env, EnvAfter(ps, env), start)
    decreases ps
  {
    if ps != [] {
      assert PieceOk(ps[0]);
      if ps[0].Let? {
        assert Lets(ps)[0] == Numbered(labels, start)[0] == (start, labels[0]);
        assert Lets(ps[1..]) == Lets(ps)[1..];
        NumberedTail(labels, start);
        BindingsBind(ps[1..], labels[1..], start + 1, EnvStep(ps[0], env));
        BindsOneMore(env, EnvAfter(ps, env), labels, start);
      } else {
        if ps[0].LetCode? {
          UnbindingKeeps(env, ps[0].name, start);
        }
        BindingsBind(ps[1..], labels, start, EnvStep(ps[0], env));
      }
    }
  }

  lemma LabelNamesDiffer(j: nat, k: nat)
    requires j != k
    ensures LabelName(j) != LabelName(k)
  {
    assert LabelName(j)[1..] == Decimal(j) && LabelName(k)[1..] == Decimal(k);
    if Decimal(j) == Decimal(k) {
      DecimalInjective(j, k);
    }
  }

  lemma {:induction false} BodyShows(ps: seq<Piece>, labels: seq<string>, start: nat, env: map<string, string>)
    requires Printing(ps) && Refs(ps) == From(start, |labels|) && Binds(env, labels, start)
    ensures Showing(ps, env) == AllShown(labels)
    decreases ps
  {
    if ps == [] {
      assert |From(start, |labels|)| == 0;
    } else {
      if ps[0].Ref? {
        assert Refs(ps)[0] == From(start, |labels|)[0] == start;
        assert Refs(ps[1..]) == Refs(ps)[1..] == From(start + 1, |labels[1..]|);
        BodyShows(ps[1..], labels[1..], start + 1, env);
        assert AllShown(labels) == [Shows(labels[0])] + AllShown(labels[1..]);
      } else {
        assert Refs(ps) == Refs(ps[1..]);
        BodyShows(ps[1..], labels, start, env);
      }
    }
  }

  /** After any prologue that binds no label names, a faithful part prints exactly its labels. */
  lemma FaithfulPrints(prologue: seq<Piece>, p: Part)
    requires Faithful(p) && Unnumbered(prologue)
    ensures Showing(prologue + p.preamble + [Raw("\n")] + p.body, map[]) == AllShown(p.labels)
  {
    var env := EnvAfter(prologue, map[]);
    var bound := EnvAfter(p.preamble, env);
    var front := prologue + p.preamble;
    ShowingAppend(prologue, p.preamble, map[]);
    EnvAfterAppend(prologue, p.preamble, map[]);
    BindingShowsNothing(prologue, map[]);
    BindingShowsNothing(p.preamble, env);
    ShowingAppend(front, [Raw("\n")], map[]);
    BindingShowsNothing([Raw("\n")], bound);
    EnvAfterAppend(front, [Raw("\n")], map[]);
    PrintingBindsNothing([Raw("\n")], bound);
    ShowingAppend(front + [Raw("\n")], p.body, map[]);
    BindingsBind(p.preamble, p.labels, 0, env);
    BodyShows(p.body, p.labels, 0, bound);
  }

  // ---------------------------------------------------------------------------
  // Whole sources
  // ---------------------------------------------------------------------------

  /** A whole source with this head. */
  function SourcePieces(head: seq<Piece>, p: Part): seq<Piece> { head + p.preamble + [Raw("\n")] + p.body }

  /** A head that is well formed, numbers no labels and reads nothing. */
  ghost predicate Head(head: seq<Piece>) { AllOk(head) && Unnumbered(head) && AllReads(head) == [] }

  lemma HeadAppend(a: seq<Piece>, b: seq<Piece>)
    requires Head(a) && Head(b)
    ensures Head(a + b)
  {
    ReadsAppend(a, b);
  }

  lemma {:induction false} BindingRefersToNothing(ps: seq<Piece>)
    requires Binding(ps)
    ensures Refs(ps) == []
  {
    if ps != [] {
      BindingRefersToNothing(ps[1..]);
    }
  }

  lemma SourceOk(head: seq<Piece>, p: Part)
    requires Head(head) && Good(p)
    ensures AllOk(SourcePieces(head, p))
  {
  }

  lemma SourceRefs(head: seq<Piece>, p: Part)
    requires Head(head) && Good(p)
    ensures Refs(SourcePieces(head, p)) == Refs(p.body)
  {
    var front, gap := head + p.preamble, [Raw("\n")];
    UnnumberedIsSilent(head);
    BindingRefersToNothing(p.preamble);
    UnnumberedIsSilent(gap);
    RefsAppend(head, p.preamble);
    RefsAppend(front, gap);
    RefsAppend(front + gap, p.body);
  }

  lemma SourceReadsBody(head: seq<Piece>, p: Part)
    requires Head(head) && Good(p)
    ensures AllReads(SourcePieces(head, p)) == AllReads(p.body)
  {
    var front, gap := head + p.preamble, [Raw("\n")];
    assert gap[1..] == [];
    ReadsAppend(head, p.preamble);
    ReadsAppend(front, gap);
    ReadsAppend(front + gap, p.body);
  }

  /** A good source prints its labels, in order, and uses each label name once, in order. */
  lemma SourcePrints(head: seq<Piece>, p: Part)
    requires Head(head) && Good(p)
    ensures var lexed := Lex(Plain, Text(SourcePieces(head, p)));
            lexed.mode == Plain && Evaluate(lexed.tokens, map[]) == AllShown(p.labels) &&
            LabelUses(lexed.tokens) == Names(From(0, |p.labels|))
  {
    var ps := SourcePieces(head, p);
    SourceOk(head, p);
    SourceRefs(head, p);
    LexPieces(ps);
    EvaluatePieces(ps, map[]);
    FaithfulPrints(head, p);
    LabelUsesOfPieces(ps);
  }

  /** A good source reads from its input only what its schema declares. */
  lemma SourceReads(head: seq<Piece>, p: Part)
    requires Head(head) && Good(p)
    ensures forall f :: f in Reads(Lex(Plain, Text(SourcePieces(head, p))).tokens) ==> f in p.properties
  {
    SourceOk(head, p);
    SourceReadsBody(head, p);
    LexPieces(SourcePieces(head, p));
    ReadsOfPieces(SourcePieces(head, p));
  }
}
