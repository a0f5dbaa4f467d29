/**
 What a compiled template promises: it prints the texts of its blocks and nothing else of
 theirs, its schema covers all it reads, parts compile apart, and the render gate reads its
 expectations back.
 */
module CompiledTemplates {
  import opened BlockCompiler
  import opened Expectations
  import opened Strings
  import opened TemplateParts
  import opened Typst
  import opened Wrappers

  // ---------------------------------------------------------------------------
  // What the blocks say
  // ---------------------------------------------------------------------------

  function Captions(rows: seq<Row>): seq<string> { seq(|rows|, i requires 0 <= i < |rows| => rows[i].caption) }

  function Titles(columns: seq<Column>): seq<string> {
    seq(|columns|, i requires 0 <= i < |columns| => columns[i].title)
  }

  /** The static texts a block asks to have printed. */
  function BlockLabels(b: Block): seq<string> {
    match b
    case Header(title) => [title]
    case Paragraph(text) => [text]
    case Fields(rows) => Captions(rows)
    case Table(_, columns) => Titles(columns)
    case Totals(_, caption, wordsLabel, _) => [caption.GetOr("Итого к оплате"), wordsLabel.GetOr("Сумма прописью")]
    case Signatures(parties) => parties
    case Pagebreak => []
    case OfUnknownType(_) => []
    case Untyped => []
  }

  function AllLabels(blocks: seq<Block>): seq<string> {
    if blocks == [] then [] else AllLabels(blocks[..|blocks| - 1]) + BlockLabels(blocks[|blocks| - 1])
  }

  lemma {:induction false} RowLabels(rows: seq<Row>)
    ensures JoinAll(RowParts(rows)).labels == Captions(rows)
  {
    if rows != [] {
      var n := |rows| - 1;
      RowLabels(rows[..n]);
      assert rows == rows[..n] + [rows[n]];
      RowsSnoc(rows[..n], rows[n]);
    }
  }

  lemma {:induction false} ColumnLabels(columns: seq<Column>)
    ensures Columns(columns).labels == Titles(columns)
  {
    if columns != [] {
      var n := |columns| - 1;
      ColumnLabels(columns[..n]);
      assert ColumnParts(columns)[..n] == ColumnParts(columns[..n]);
    }
  }

  lemma {:induction false} PartyLabels(parties: seq<string>)
    ensures JoinAll(PartyParts(parties)).labels == parties
  {
    if parties != [] {
      var n := |parties| - 1;
      PartyLabels(parties[..n]);
      assert parties == parties[..n] + [parties[n]];
      PartiesSnoc(parties[..n], parties[n]);
    }
  }

  lemma BlockPartLabels(b: Block)
    ensures BlockPart(b).labels == BlockLabels(b)
  {
    match b
    case Fields(rows) => RowLabels(rows);
    case Table(_, columns) => ColumnLabels(columns);
    case Signatures(parties) => PartyLabels(parties);
    case _ =>
  }

  /** The labels of a template are those of its blocks, in order. */
  lemma {:induction false} LabelsAreTheBlocks(blocks: seq<Block>)
    ensures PartOf(blocks).labels == AllLabels(blocks)
  {
    if blocks != [] {
      var n := |blocks| - 1;
      LabelsAreTheBlocks(blocks[..n]);
      assert blocks == blocks[..n] + [blocks[n]];
      BlocksSnoc(blocks[..n], blocks[n]);
      BlockPartLabels(blocks[n]);
    }
  }

  // ---------------------------------------------------------------------------
  // Faithful and closed, block after block
  // ---------------------------------------------------------------------------

  lemma ShortTexts()
    ensures Inert(")[") && Inert("  [") && Inert("[") && Inert("[*") && Inert("\n") && Inert(", ")
    ensures Inert(")]") && Inert(")],\n") && Inert(")\n") && Inert("  ") && Inert("),\n  ")
  {
  }

  lemma EndTexts()
    ensures EndsName("\n") && EndsName("]]\n") && EndsName("], ") && EndsName("],\n") && EndsName("*], ")
    ensures EndsName(": ") && EndsName("]\n") && EndsName(" ") && EndsName("()\n")
  {
  }

  lemma MeasureTexts()
    ensures NeatPiece(Use("v", "(3mm)\n")) && NeatPiece(Use("v", "(4mm)\n")) && NeatPiece(Use("v", "(6mm)\n"))
  {
  }

  lemma AlignTexts()
    ensures NeatPiece(Use("align", "(center)[")) && NeatPiece(Use("align", "(right)["))
  {
  }

  lemma WeightText()
    ensures NeatPiece(Use("text", "(size: 13pt, weight: "))
  {
  }

  lemma FieldsTableText()
    ensures NeatPiece(Use("table", "(columns: (auto, 1fr), ")) && Inert("stroke: none, inset: 2pt,\n")
  {
  }

  lemma DefaultInert()
    ensures Inert(", default: ")
  {
  }

  lemma ItemTexts()
    ensures NeatPiece(Use("table", "(columns: (")) && NeatPiece(Use("it", ".at("))
  {
  }

  lemma RowsTexts()
    ensures EndsName(".map(it => (") && Inert(")).flatten()\n)\n")
  {
  }

  lemma GridTexts()
    ensures NeatPiece(Use("grid", "(columns: (1fr,) * ")) && Inert(", gutter: 8mm,\n")
  {
  }

  lemma SigruleName()
    ensures PlainName("sigrule")
  {
    assert "sigrule"[1] == 'i' && !IsDigit("sigrule"[1..][0]);
  }

  lemma SigruleCode()
    ensures Inert("box(width: 1fr, height: 8mm, ") && Inert("stroke: (bottom: 0.4pt))\n")
  {
  }

  lemma HeaderFrontNeat()
    ensures Neat(HeaderFront(), [], [])
  {
    AlignTexts();
    WeightText();
    Neat3(HeaderFront()[0], HeaderFront()[1], HeaderFront()[2]);
  }

  lemma HeaderBackNeat()
    ensures Neat(HeaderBack(0), [0], [])
  {
    ShortTexts();
    EndTexts();
    MeasureTexts();
    Neat3(HeaderBack(0)[0], HeaderBack(0)[1], HeaderBack(0)[2]);
  }

  lemma HeaderGood(title: string)
    ensures Good(LabelPart(title, HeaderBody()))
  {
    HeaderFrontNeat();
    HeaderBackNeat();
    NeatJoin(HeaderFront(), [], [], HeaderBack(0), [0], []);
    assert HeaderBody() == HeaderFront() + HeaderBack(0);
    LabelGood(title, HeaderBody());
  }

  lemma ParagraphGood(text: string)
    ensures Good(LabelPart(text, ParagraphBody()))
  {
    ShortTexts();
    EndTexts();
    MeasureTexts();
    Neat2(ParagraphBody()[0], ParagraphBody()[1]);
    LabelGood(text, ParagraphBody());
  }

  function ValueReads(value: RowValue): seq<string> { if value.Variable? then [value.id] else [value.name] }

  lemma FieldIsName(field: string)
    requires ValidField(field)
    ensures IsName(field)
  {
  }

  lemma CellNeat(value: RowValue)
    requires value.Variable? || IsName(value.name)
    ensures Neat(RowCell(value), [], ValueReads(value))
  {
    ShortTexts();
    EndTexts();
    DefaultInert();
    var cell := RowCell(value);
    match value
    case Variable(id) => Neat3(cell[0], cell[1], cell[2]);
    case Field(_, _, _) => Neat1(cell[0]);
  }

  function RowFront(): seq<Piece> { [Raw("  ["), Ref(0, "], "), Raw("[")] }

  lemma RowFrontNeat()
    ensures Neat(RowFront(), [0], [])
  {
    ShortTexts();
    EndTexts();
    Neat3(RowFront()[0], RowFront()[1], RowFront()[2]);
  }

  lemma RowGood(row: Row)
    requires RowFault(row).None?
    ensures Good(RowPart(row))
  {
    if row.value.Field? {
      FieldIsName(row.value.name);
    }
    CellNeat(row.value);
    RowFrontNeat();
    var front := RowFront();
    NeatJoin(front, [0], [], RowCell(row.value), [], ValueReads(row.value));
    LabelFaithful(row.caption, front + RowCell(row.value), ValueReads(row.value));
  }

  lemma ColumnGood(c: Column)
    ensures Good(ColumnPart(c))
  {
    ShortTexts();
    EndTexts();
    Neat2(Raw("[*"), Ref(0, "*], "));
    LabelGood(c.title, [Raw("[*"), Ref(0, "*], ")]);
  }

  lemma PartyGood(title: string)
    ensures Good(PartyPart(title))
  {
    ShortTexts();
    EndTexts();
    SigruleName();
    Neat3(Raw("  ["), Ref(0, " "), Use("sigrule", "],\n"));
    LabelGood(title, [Raw("  ["), Ref(0, " "), Use("sigrule", "],\n")]);
  }

  lemma {:induction false} NoFaultNoRowFault(rows: seq<Row>, i: nat)
    requires i < |rows| && RowsFault(rows).None?
    ensures RowFault(rows[i]).None?
  {
    if i < |rows| - 1 {
      NoFaultNoRowFault(rows[..|rows| - 1], i);
    }
  }

  lemma FieldsEnds()
    ensures Neat(FieldsStart(), [], []) && Neat(FieldsEnd(), [], [])
  {
    ShortTexts();
    MeasureTexts();
    FieldsTableText();
    Neat2(FieldsStart()[0], FieldsStart()[1]);
    Neat2(FieldsEnd()[0], FieldsEnd()[1]);
  }

  lemma FieldsGood(rows: seq<Row>)
    requires RowsFault(rows).None?
    ensures Good(FieldsPart(rows))
  {
    forall i | 0 <= i < |rows| ensures Good(RowParts(rows)[i]) {
      NoFaultNoRowFault(rows, i);
      RowGood(rows[i]);
    }
    JoinAllGood(RowParts(rows));
    FieldsEnds();
    WrapGood([], FieldsStart(), JoinAll(RowParts(rows)), FieldsEnd());
  }

  lemma DigitsInert(s: string)
    requires IsNumeral(s)
    ensures Inert(s)
  {
    forall i | 0 <= i < |s| ensures s[i] != '#' && s[i] != '"' && s[i] != '.' { assert IsDigit(s[i]); }
  }

  lemma SignatureStartNeat(n: nat)
    ensures Neat(SignatureStart(n), [], [])
  {
    var s := SignatureStart(n);
    DigitsInert(Decimal(n));
    GridTexts();
    MeasureTexts();
    Neat1(s[0]);
    Neat3(s[1], s[2], s[3]);
    NeatJoin([s[0]], [], [], [s[1], s[2], s[3]], [], []);
    assert s == [s[0]] + [s[1], s[2], s[3]];
  }

  lemma SignatureRuleOk()
    ensures AllOk(SignatureRule()) && Binding(SignatureRule()) && Unnumbered(SignatureRule())
    ensures AllReads(SignatureRule()) == []
  {
    SigruleName();
    SigruleCode();
    assert SignatureRule()[1..] == [SignatureRule()[1]] && [SignatureRule()[1]][1..] == [];
  }

  lemma PartiesGood(parties: seq<string>)
    ensures Good(JoinAll(PartyParts(parties)))
  {
    forall i | 0 <= i < |parties| ensures Good(PartyParts(parties)[i]) {
      PartyGood(parties[i]);
    }
    JoinAllGood(PartyParts(parties));
  }

  lemma SignatureEndNeat()
    ensures Neat([Raw(")\n")], [], [])
  {
    ShortTexts();
    Neat1(Raw(")\n"));
  }

  lemma SignaturesGood(parties: seq<string>)
    ensures Good(SignaturesPart(parties))
  {
    PartiesGood(parties);
    SignatureRuleOk();
    SignatureStartNeat(|parties|);
    SignatureEndNeat();
    WrapGood(SignatureRule(), SignatureStart(|parties|), JoinAll(PartyParts(parties)), [Raw(")\n")]);
  }

  lemma TotalsNeat()
    ensures Neat(TotalsBody(), [0, 1], ["total", "total_words"])
  {
    var body := TotalsBody();
    ShortTexts();
    EndTexts();
    MeasureTexts();
    AlignTexts();
    Neat3(body[0], body[1], body[2]);
    Neat3(body[3], body[4], body[5]);
    NeatJoin([body[0], body[1], body[2]], [0], ["total"], [body[3], body[4], body[5]], [1], ["total_words"]);
    assert body == [body[0], body[1], body[2]] + [body[3], body[4], body[5]];
  }

  lemma TotalsGood(tiyn: string, title: string, words: string, titleKk: string)
    ensures Good(TotalsPart(tiyn, title, words, titleKk))
  {
    TotalsNeat();
    TwoLets(title, words);
    assert From(0, 2) == [0, 1];
  }

  lemma KeyCellNeat(key: string)
    ensures Neat(KeyCell(key), [], [])
  {
    var cell := KeyCell(key);
    ShortTexts();
    ItemTexts();
    DefaultInert();
    Neat3(cell[0], cell[1], cell[2]);
    Neat3(cell[3], cell[4], cell[5]);
    NeatJoin([cell[0], cell[1], cell[2]], [], [], [cell[3], cell[4], cell[5]], [], []);
    assert cell == [cell[0], cell[1], cell[2]] + [cell[3], cell[4], cell[5]];
  }

  lemma CommaNeat(n: nat)
    ensures Neat(Comma(n), [], [])
  {
    ShortTexts();
    Neat1(Raw(", "));
  }

  lemma {:induction false} KeyCellsNeat(keys: seq<string>)
    ensures Neat(KeyCells(keys), [], [])
  {
    if keys != [] {
      var n := |keys| - 1;
      KeyCellsNeat(keys[..n]);
      CommaNeat(n);
      KeyCellNeat(keys[n]);
      NeatJoin(KeyCells(keys[..n]), [], [], Comma(n), [], []);
      NeatJoin(KeyCells(keys[..n]) + Comma(n), [], [], KeyCell(keys[n]), [], []);
    }
  }

  lemma {:induction false} WidthsInert(columns: seq<Column>)
    ensures Inert(Widths(columns))
  {
    if columns != [] {
      WidthsInert(columns[..|columns| - 1]);
      assert Inert("1fr, ") && Inert("auto, ");
    }
  }

  lemma TableEnds(items: string, columns: seq<Column>)
    requires IsName(items)
    ensures Neat(TableStart(columns), [], []) && Neat(TableRows(items), [], [items]) && Neat(TableEnd(), [], [])
  {
    ShortTexts();
    MeasureTexts();
    ItemTexts();
    RowsTexts();
    WidthsInert(columns);
    Neat3(TableStart(columns)[0], TableStart(columns)[1], TableStart(columns)[2]);
    Neat2(TableRows(items)[0], TableRows(items)[1]);
    Neat2(TableEnd()[0], TableEnd()[1]);
  }

  lemma TableTailNeat(items: string, columns: seq<Column>)
    requires IsName(items)
    ensures Neat(TableTail(items, Keys(columns)), [], [items])
  {
    TableEnds(items, columns);
    KeyCellsNeat(Keys(columns));
    ShortTexts();
    var n, rows, cells := [Raw("\n")], TableRows(items), KeyCells(Keys(columns));
    Neat1(n[0]);
    NeatJoin(n, [], [], rows, [], [items]);
    NeatJoin(n + rows, [], [items], cells, [], []);
    NeatJoin(n + rows + cells, [], [items], TableEnd(), [], []);
  }

  lemma TableGood(items: string, columns: seq<Column>)
    requires ValidField(items)
    ensures Good(TablePart(items, columns))
  {
    forall i | 0 <= i < |columns| ensures Good(ColumnParts(columns)[i]) {
      ColumnGood(columns[i]);
    }
    JoinAllGood(ColumnParts(columns));
    FieldIsName(items);
    TableEnds(items, columns);
    TableTailNeat(items, columns);
    HeaderCellsReadNothing(columns);
    var cells, refs := Columns(columns).body, From(0, |columns|);
    ColumnLabels(columns);
    NeatJoin(TableStart(columns), [], [], cells, refs, []);
    NeatJoin(TableStart(columns) + cells, refs, [], TableTail(items, Keys(columns)), [], [items]);
  }

  lemma {:induction false} HeaderCellsReadNothing(columns: seq<Column>)
    ensures AllReads(Columns(columns).body) == []
  {
    if columns != [] {
      var n := |columns| - 1;
      HeaderCellsReadNothing(columns[..n]);
      assert ColumnParts(columns)[..n] == ColumnParts(columns[..n]);
      ColumnGood(columns[n]);
      ReadsShift(ColumnPart(columns[n]).body, |Columns(columns[..n]).labels|);
      ReadsAppend(Columns(columns[..n]).body, Shift(ColumnPart(columns[n]).body, |Columns(columns[..n]).labels|));
    }
  }

  lemma BlockGood(b: Block)
    requires BlockFault(b).None?
    ensures Good(BlockPart(b))
  {
    match b
    case Header(title) => HeaderGood(title);
    case Paragraph(text) => ParagraphGood(text);
    case Fields(rows) => FieldsGood(rows);
    case Table(field, columns) => TableGood(ItemsField(field), columns);
    case Totals(_, _, _, _) => TotalsBlockGood(b);
    case Signatures(parties) => SignaturesGood(parties);
    case Pagebreak => PagebreakGood();
    case _ =>
  }

  lemma TotalsBlockGood(b: Block)
    requires b.Totals?
    ensures Good(BlockPart(b))
  {
    var title := b.caption.GetOr("Итого к оплате");
    TotalsGood(TiynField(b.field), title, b.wordsLabel.GetOr("Сумма прописью"), b.labelKk.GetOr(title));
  }

  lemma PagebreakGood()
    ensures Good(BlockPart(Pagebreak))
  {
    ShortTexts();
    EndTexts();
    assert PlainName("pagebreak");
    Neat1(Use("pagebreak", "()\n"));
    assert From(0, 0) == [];
  }

  /** Blocks without fault make a faithful and closed template. */
  lemma TemplateGood(blocks: seq<Block>)
    requires FirstFault(blocks).None?
    ensures Good(PartOf(blocks))
  {
    FaultComesFirst(blocks);
    forall i | 0 <= i < |blocks| ensures Good(BlockParts(blocks)[i]) {
      BlockGood(blocks[i]);
    }
    JoinAllGood(BlockParts(blocks));
  }

  // ---------------------------------------------------------------------------
  // Compiled templates
  // ---------------------------------------------------------------------------

  lemma NeatHead(ps: seq<Piece>)
    requires Neat(ps, [], [])
    ensures Head(ps)
  {
    NeatIsUnnumbered(ps);
  }

  lemma DirectiveNames()
    ensures PlainName("set") && PlainName("show")
  {
    assert !IsDigit("set"[1..][0]) && !IsDigit("show"[1..][0]);
  }

  lemma PageTexts()
    ensures NeatPiece(Use("set", " page(paper: ")) && Inert(", margin: 18mm)\n")
  {
    DirectiveNames();
  }

  lemma PageHead()
    ensures Head(PageSetup())
  {
    PageTexts();
    Neat3(PageSetup()[0], PageSetup()[1], PageSetup()[2]);
    NeatHead(PageSetup());
  }

  lemma TextTexts()
    ensures NeatPiece(Use("set", " text(font: ")) && Inert(", size: 9.2pt, lang: ")
  {
    DirectiveNames();
  }

  lemma TextFlags()
    ensures Inert(", overhang: false, hyphenate: false)\n")
  {
  }

  lemma TextHead()
    ensures Head(TextSetup())
  {
    TextTexts();
    TextFlags();
    var a := [Use("set", " text(font: "), Str("Noto Sans"), Raw(", size: 9.2pt, lang: ")];
    var b := [Str("ru"), Raw(", overhang: false, hyphenate: false)\n")];
    Neat3(a[0], a[1], a[2]);
    Neat2(b[0], b[1]);
    NeatJoin(a, [], [], b, [], []);
    NeatHead(a + b);
  }

  lemma SlashTexts()
    ensures NeatPiece(Use("show", " regex(")) && Inert("): it => box(it)\n")
  {
    DirectiveNames();
  }

  lemma SlashHead()
    ensures Head(SlashRule())
  {
    SlashTexts();
    Neat3(SlashRule()[0], SlashRule()[1], SlashRule()[2]);
    NeatHead(SlashRule());
  }

  lemma InputHead()
    ensures Head(InputDocument())
  {
    assert PieceOk(LetCode("d", "json("));
    assert Inert(")\n");
    var load := [LetCode("d", "json(")];
    var tail := [Str("input.json"), Raw(")\n")];
    assert load[1..] == [];
    Neat2(tail[0], tail[1]);
    NeatHead(tail);
    HeadAppend(load, tail);
    assert InputDocument() == load + tail;
  }

  lemma PrologueHead()
    ensures Head(Prologue())
  {
    PageHead();
    TextHead();
    SlashHead();
    InputHead();
    HeadAppend(PageSetup(), TextSetup());
    HeadAppend(PageSetup() + TextSetup(), SlashRule());
    HeadAppend(PageSetup() + TextSetup() + SlashRule(), InputDocument());
  }

  /** The source text of blocks that compile. */
  function SourceOf(blocks: seq<Block>): string { Text(SourcePieces(Prologue(), PartOf(blocks))) }

  /** What compiles: 1 to 200 blocks, each well formed, with some static text among them. */
  lemma CompilesIff(blocks: seq<Block>)
    ensures Verdict(Some(blocks)).None? <==>
            0 < |blocks| <= 200 && AllWellFormed(blocks, |blocks|) && AllLabels(blocks) != []
  {
    FaultIsFirst(blocks);
    LabelsAreTheBlocks(blocks);
  }

  /** What is refused, with which index and code: the first block that is not well formed, and why. */
  lemma RefusedIff(blocks: seq<Block>, e: Error)
    ensures Verdict(None) == Some(Error(0, "blocks_not_array"))
    ensures Verdict(Some(blocks)) == Some(e) <==>
              if blocks == [] then e == Error(0, "blocks_empty")
              else if |blocks| > 200 then e == Error(0, "too_many_blocks")
              else
                || (e.blockIndex < |blocks| && AllWellFormed(blocks, e.blockIndex) &&
                    Because(blocks[e.blockIndex], e.code))
                || (e == Error(0, "no_static_labels") && AllWellFormed(blocks, |blocks|) && AllLabels(blocks) == [])
  {
    FirstFaultIff(blocks, e);
    FaultIsFirst(blocks);
    LabelsAreTheBlocks(blocks);
  }

  /** An untitled header is refused, whatever comes after it. */
  lemma UntitledHeaderIsRefused()
    ensures Verdict(Some([Header(""), Paragraph("x")])) == Some(Error(0, "header_title_required"))
  {
    RefusedIff([Header(""), Paragraph("x")], Error(0, "header_title_required"));
  }

  /**
   Evaluating the compiled source prints the texts of the blocks, in order; every label name
   it uses is bound, and s0, s1, ... are used once each, in order.
   */
  lemma CompiledPrintsTheBlocks(blocks: seq<Block>)
    requires FirstFault(blocks).None?
    ensures var lexed := Lex(Plain, SourceOf(blocks));
            lexed.mode == Plain && Evaluate(lexed.tokens, map[]) == AllShown(AllLabels(blocks)) &&
            LabelUses(lexed.tokens) == Names(From(0, |AllLabels(blocks)|))
  {
    PrologueHead();
    TemplateGood(blocks);
    LabelsAreTheBlocks(blocks);
    SourcePrints(Prologue(), PartOf(blocks));
  }

  /** Everything the source reads, the schema requires or the form asks for is in the schema. */
  lemma SchemaIsClosed(blocks: seq<Block>)
    requires FirstFault(blocks).None?
    ensures var p := PartOf(blocks);
            (forall f :: f in Reads(Lex(Plain, SourceOf(blocks)).tokens) ==> f in p.properties) &&
            (forall f :: f in p.required ==> f in p.properties) &&
            (forall f :: f in p.form ==> f.field in p.properties)
  {
    PrologueHead();
    TemplateGood(blocks);
    SourceReads(Prologue(), PartOf(blocks));
  }

  function Later(e: Option<Error>, start: nat): Option<Error> {
    match e
    case None => None
    case Some(Error(i, code)) => Some(Error(start + i, code))
  }

  /** Compiling a ++ b is compiling a and b apart and joining the results. */
  lemma {:induction false} CompilingIsCompositional(a: seq<Block>, b: seq<Block>)
    ensures PartOf(a + b) == Join(PartOf(a), PartOf(b))
    ensures FirstFault(a + b) == if FirstFault(a).Some? then FirstFault(a) else Later(FirstFault(b), |a|)
  {
    assert BlockParts(a + b) == BlockParts(a) + BlockParts(b);
    JoinAllAppend(BlockParts(a), BlockParts(b));
    FaultsInTwoParts(a, b);
  }

  lemma {:induction false} FaultsInTwoParts(a: seq<Block>, b: seq<Block>)
    ensures FirstFault(a + b) == if FirstFault(a).Some? then FirstFault(a) else Later(FirstFault(b), |a|)
  {
    if b == [] {
      assert a + b == a;
    } else {
      var pre, last := b[..|b| - 1], b[|b| - 1];
      FaultsInTwoParts(a, pre);
      assert a + b == a + pre + [last] && b == pre + [last];
      FaultSnoc(a + pre, last);
      FaultSnoc(pre, last);
    }
  }

  /** The gate reads back the labels the compiler wrote exactly when every one of them is clean. */
  lemma ExpectationsComeBack(blocks: seq<Block>)
    ensures Meaning(AllLines([Written(PartOf(blocks).labels)])) == Declared(AllLabels(blocks), {}, [], [], [], "18")
       <==> forall l :: l in AllLabels(blocks) ==> Clean(l)
  {
    LabelsAreTheBlocks(blocks);
    RoundTripIffClean(AllLabels(blocks));
  }

  /** No guard of the compiler asks for clean labels: a totals block with an empty caption compiles. */
  lemma UncleanLabelsCompile()
    ensures var blocks := [Totals(None, Some(""), None, None)];
            Verdict(Some(blocks)).None? && "" in AllLabels(blocks) && !Clean("")
  {
    var b := Totals(None, Some(""), None, None);
    LabelsAreTheBlocks([b]);
    assert [b][..0] == [];
    assert BlockLabels(b)[0] == "";
    assert AllLabels([b]) == BlockLabels(b);
    TiynIsValid();
  }

  lemma TiynIsValid()
    ensures ValidField("total_tiyn")
  {
  }
}
