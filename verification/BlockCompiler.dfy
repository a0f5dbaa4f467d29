/**
 The template constructor: a list of blocks becomes Typst source, a schema for the input,
 a form, and the expectation file of the render gate, in one pass.
 */
module BlockCompiler {
  import opened Expectations
  import opened Strings
  import opened TemplateParts
  import opened Typst
  import opened Wrappers

  datatype RowValue =
    | Variable(id: string)
    | Field(name: string, labelKk: Option<string>, isRequired: Option<bool>)

  datatype Row = Row(caption: string, value: RowValue)

  /** A block. A missing string member is "", a missing array is empty. */
  datatype Block =
    | Header(title: string)
    | Paragraph(text: string)
    | Fields(rows: seq<Row>)
    | Table(field: Option<string>, columns: seq<Column>)
    | Totals(field: Option<string>, caption: Option<string>, wordsLabel: Option<string>, labelKk: Option<string>)
    | Signatures(parties: seq<string>)
    | Pagebreak
    | OfUnknownType(name: string)
    | Untyped

  datatype Error = Error(blockIndex: nat, code: string)

  // ---------------------------------------------------------------------------
  // Field names and variables
  // ---------------------------------------------------------------------------

  predicate FieldChar(c: char) { 'a' <= c <= 'z' || 'A' <= c <= 'Z' || IsDigit(c) || c == '_' }

  predicate ValidField(name: string) {
    0 < |name| <= 64 && !IsDigit(name[0]) && forall i :: 0 <= i < |name| ==> FieldChar(name[i])
  }

  method IsValidField(name: string) returns (ok: bool)
    ensures ok == ValidField(name)
  {
    if name == "" || |name| > 64 {
      return false;
    }
    if IsDigit(name[0]) {
      return false;
    }
    for i := 0 to |name|
      invariant forall j :: 0 <= j < i ==> FieldChar(name[j])
    {
      if !FieldChar(name[i]) {
        return false;
      }
    }
    return true;
  }

  /** The closed catalogue of template variables. */
  predicate Known(id: string) {
    id in {"org.name", "org.bin", "org.address", "org.director_name", "org.director_position",
           "org.vat_certificate", "org.iik", "org.bank_name", "org.bik", "org.kbe", "tax.vat_rate",
           "employee.full_name", "employee.position", "employee.salary_tiyn", "counterparty.name",
           "counterparty.identifier", "counterparty.address", "doc.number", "doc.date"}
  }

  // ---------------------------------------------------------------------------
  // What is wrong with a block
  // ---------------------------------------------------------------------------

  function RowFault(row: Row): Option<string> {
    if row.caption == "" then Some("field_label_required")
    else
      match row.value
      case Variable(id) => if Known(id) then None else Some("unknown_variable")
      case Field(name, _, _) => if ValidField(name) then None else Some("invalid_field_name")
  }

  function RowsFault(rows: seq<Row>): Option<string> {
    if rows == [] then None
    else if RowsFault(rows[..|rows| - 1]).Some? then RowsFault(rows[..|rows| - 1])
    else RowFault(rows[|rows| - 1])
  }

  predicate ColumnOk(c: Column) { c.title != "" && ValidField(c.key) }

  predicate ColumnsOk(columns: seq<Column>) { forall i :: 0 <= i < |columns| ==> ColumnOk(columns[i]) }

  function ItemsField(field: Option<string>): string { if field.Some? then field.value else "items" }

  function TiynField(field: Option<string>): string { if field.Some? then field.value else "total_tiyn" }

  function BlockFault(b: Block): Option<string> {
    match b
    case Header(title) => if title == "" then Some("header_title_required") else None
    case Paragraph(text) => if text == "" then Some("text_required") else None
    case Fields(rows) => if rows == [] then Some("fields_rows_required") else RowsFault(rows)
    case Table(field, columns) =>
      if columns == [] then Some("table_columns_required")
      else if !ValidField(ItemsField(field)) then Some("invalid_field_name")
      else if !ColumnsOk(columns) then Some("table_column_invalid")
      else None
    case Totals(field, _, _, _) => if ValidField(TiynField(field)) then None else Some("invalid_field_name")
    case Signatures(parties) =>
      if parties == [] then Some("signature_parties_required")
      else if "" in parties then Some("signature_title_required")
      else None
    case Pagebreak => None
    case OfUnknownType(_) => Some("unknown_block_type")
    case Untyped => Some("block_type_missing")
  }

  function FirstFault(blocks: seq<Block>): Option<Error> {
    if blocks == [] then None
    else
      var n := |blocks| - 1;
      if FirstFault(blocks[..n]).Some? then FirstFault(blocks[..n])
      else match BlockFault(blocks[n]) case Some(code) => Some(Error(n, code)) case None => None
  }

  // ---------------------------------------------------------------------------
  // The same, read off the data of a block
  // ---------------------------------------------------------------------------

  predicate WellFormedRow(row: Row) {
    row.caption != "" &&
    match row.value
    case Variable(id) => Known(id)
    case Field(name, _, _) => ValidField(name)
  }

  /** A block of a known type, complete, with valid names and no empty label but a totals caption. */
  predicate WellFormed(b: Block) {
    match b
    case Header(title) => title != ""
    case Paragraph(text) => text != ""
    case Fields(rows) => rows != [] && forall i :: 0 <= i < |rows| ==> WellFormedRow(rows[i])
    case Table(field, columns) =>
      && columns != [] && (field.Some? ==> ValidField(field.value))
      && forall i :: 0 <= i < |columns| ==> columns[i].title != "" && ValidField(columns[i].key)
    case Totals(field, _, _, _) => field.Some? ==> ValidField(field.value)
    case Signatures(parties) => parties != [] && forall i :: 0 <= i < |parties| ==> parties[i] != ""
    case Pagebreak => true
    case _ => false
  }

  predicate RowBecause(row: Row, code: string) {
    || (code == "field_label_required" && row.caption == "")
    || (code == "unknown_variable" && row.caption != "" && row.value.Variable? && !Known(row.value.id))
    || (code == "invalid_field_name" && row.caption != "" && row.value.Field? && !ValidField(row.value.name))
  }

  ghost predicate FirstBadRow(rows: seq<Row>, i: nat) {
    i < |rows| && !WellFormedRow(rows[i]) && forall j :: 0 <= j < i ==> WellFormedRow(rows[j])
  }

  predicate BadName(field: Option<string>) { field.Some? && !ValidField(field.value) }

  /** The data that causes each refusal. */
  ghost predicate Because(b: Block, code: string) {
    match b
    case Header(title) => code == "header_title_required" && title == ""
    case Paragraph(text) => code == "text_required" && text == ""
    case Fields(rows) =>
      (code == "fields_rows_required" && rows == []) || RowsBecause(rows, code)
    case Table(field, columns) =>
      || (code == "table_columns_required" && columns == [])
      || (code == "invalid_field_name" && columns != [] && BadName(field))
      || (code == "table_column_invalid" && columns != [] && !BadName(field) &&
          exists i :: 0 <= i < |columns| && !(columns[i].title != "" && ValidField(columns[i].key)))
    case Totals(field, _, _, _) => code == "invalid_field_name" && BadName(field)
    case Signatures(parties) =>
      || (code == "signature_parties_required" && parties == [])
      || (code == "signature_title_required" && exists i :: 0 <= i < |parties| && parties[i] == "")
    case Pagebreak => false
    case OfUnknownType(_) => code == "unknown_block_type"
    case Untyped => code == "block_type_missing"
  }

  lemma DefaultNames()
    ensures ValidField("items") && ValidField("total_tiyn")
  {
  }

  lemma RowFaultIff(row: Row, code: string)
    ensures RowFault(row).None? <==> WellFormedRow(row)
    ensures RowFault(row) == Some(code) <==> RowBecause(row, code)
  {
  }

  ghost predicate RowsBecause(rows: seq<Row>, code: string) {
    exists i: nat :: FirstBadRow(rows, i) && RowBecause(rows[i], code)
  }

  ghost predicate WellFormedRows(rows: seq<Row>) { forall i :: 0 <= i < |rows| ==> WellFormedRow(rows[i]) }

  lemma RowsBecauseSnoc(rows: seq<Row>, row: Row, code: string)
    ensures RowsBecause(rows + [row], code) <==>
            RowsBecause(rows, code) || (WellFormedRows(rows) && !WellFormedRow(row) && RowBecause(row, code))
  {
    var all, n := rows + [row], |rows|;
    assert forall i :: 0 <= i < n ==> all[i] == rows[i];
    if i: nat :| FirstBadRow(rows, i) && RowBecause(rows[i], code) {
      assert FirstBadRow(all, i) && RowBecause(all[i], code);
    }
    if WellFormedRows(rows) && !WellFormedRow(row) && RowBecause(row, code) {
      assert FirstBadRow(all, n) && RowBecause(all[n], code);
    }
    if i: nat :| FirstBadRow(all, i) && RowBecause(all[i], code) {
      if i < n {
        assert FirstBadRow(rows, i) && RowBecause(rows[i], code);
      } else {
        assert forall j :: 0 <= j < n ==> WellFormedRow(all[j]);
      }
    }
  }

  lemma {:induction false} RowsFaultIff(rows: seq<Row>, code: string)
    ensures RowsFault(rows).None? <==> WellFormedRows(rows)
    ensures RowsFault(rows) == Some(code) <==> RowsBecause(rows, code)
  {
    if rows != [] {
      var pre, last := rows[..|rows| - 1], rows[|rows| - 1];
      assert rows == pre + [last];
      RowsFaultIff(pre, code);
      RowsSnoc(pre, last);
      RowFaultIff(last, code);
      RowsBecauseSnoc(pre, last, code);
      BadRowsAreNotWellFormed(pre, code);
      assert WellFormedRows(rows) <==> WellFormedRows(pre) && WellFormedRow(last);
    }
  }

  lemma BadRowsAreNotWellFormed(rows: seq<Row>, code: string)
    ensures RowsBecause(rows, code) ==> !WellFormedRows(rows)
  {
  }

  /** A block is refused exactly if it is not well formed, and with the code its data causes. */
  lemma FaultIff(b: Block, code: string)
    ensures BlockFault(b).None? <==> WellFormed(b)
    ensures BlockFault(b) == Some(code) <==> Because(b, code)
  {
    DefaultNames();
    if b.Fields? {
      RowsFaultIff(b.rows, code);
    }
  }

  lemma {:induction false} FaultComesFirst(blocks: seq<Block>)
    ensures match FirstFault(blocks)
            case None => forall j :: 0 <= j < |blocks| ==> BlockFault(blocks[j]).None?
            case Some(e) =>
              e.blockIndex < |blocks| && BlockFault(blocks[e.blockIndex]) == Some(e.code) &&
              forall j :: 0 <= j < e.blockIndex ==> BlockFault(blocks[j]).None?
  {
    if blocks != [] {
      FaultComesFirst(blocks[..|blocks| - 1]);
    }
  }

  ghost predicate AllWellFormed(blocks: seq<Block>, n: nat)
    requires n <= |blocks|
  {
    forall j :: 0 <= j < n ==> WellFormed(blocks[j])
  }

  lemma FirstFaultIff(blocks: seq<Block>, e: Error)
    ensures FirstFault(blocks) == Some(e) <==>
              e.blockIndex < |blocks| && AllWellFormed(blocks, e.blockIndex) && Because(blocks[e.blockIndex], e.code)
  {
    FaultIsFirst(blocks);
    if e.blockIndex < |blocks| {
      FaultIff(blocks[e.blockIndex], e.code);
    }
    match FirstFault(blocks)
    case Some(f) => FaultIff(blocks[f.blockIndex], f.code);
    case None =>
  }

  /** The block reported is the first that is not well formed, with the code its data causes. */
  lemma FaultIsFirst(blocks: seq<Block>)
    ensures match FirstFault(blocks)
            case None => AllWellFormed(blocks, |blocks|)
            case Some(e) =>
              && e.blockIndex < |blocks| && AllWellFormed(blocks, e.blockIndex)
              && !WellFormed(blocks[e.blockIndex]) && Because(blocks[e.blockIndex], e.code)
  {
    FaultComesFirst(blocks);
    forall j | 0 <= j < |blocks| ensures BlockFault(blocks[j]).None? <==> WellFormed(blocks[j]) {
      FaultIff(blocks[j], "");
    }
    match FirstFault(blocks)
    case Some(e) => FaultIff(blocks[e.blockIndex], e.code);
    case None =>
  }

  // ---------------------------------------------------------------------------
  // What a block contributes
  // ---------------------------------------------------------------------------

  function RowCell(value: RowValue): seq<Piece> {
    match value
    case Variable(id) => [GetAt(id, ", default: "), Str(""), Raw(")],\n")]
    case Field(name, _, _) => [Get(name, "],\n")]
  }

  function RowPart(row: Row): Part {
    var part := LabelPart(row.caption, [Raw("  ["), Ref(0, "], "), Raw("[")] + RowCell(row.value));
    match row.value
    case Variable(id) => part.(properties := map[id := StringValue])
    case Field(name, labelKk, isRequired) =>
      part.(properties := map[name := StringValue],
            required := if isRequired == Some(false) then [] else [name],
            form := [FormField(name, row.caption, labelKk.GetOr(row.caption), TextBox)])
  }

  function RowParts(rows: seq<Row>): seq<Part> { seq(|rows|, i requires 0 <= i < |rows| => RowPart(rows[i])) }

  function ColumnPart(c: Column): Part {
    LabelPart(c.title, [Raw("[*"), Ref(0, "*], ")])
  }

  function ColumnParts(cs: seq<Column>): seq<Part> { seq(|cs|, i requires 0 <= i < |cs| => ColumnPart(cs[i])) }

  function Columns(cs: seq<Column>): Part { JoinAll(ColumnParts(cs)) }

  function Width(key: string): string { if key == "name" || key == "description" then "1fr, " else "auto, " }

  function Widths(cs: seq<Column>): string {
    if cs == [] then "" else Widths(cs[..|cs| - 1]) + Width(cs[|cs| - 1].key)
  }

  function Keys(cs: seq<Column>): seq<string> { seq(|cs|, i requires 0 <= i < |cs| => cs[i].key) }

  function KeyCell(key: string): seq<Piece> {
    [Raw("["), Use("it", ".at("), Str(key), Raw(", default: "), Str(""), Raw(")]")]
  }

  function Comma(n: nat): seq<Piece> { if n > 0 then [Raw(", ")] else [] }

  function KeyCells(keys: seq<string>): seq<Piece> {
    if keys == [] then []
    else
      var n := |keys| - 1;
      KeyCells(keys[..n]) + Comma(n) + KeyCell(keys[n])
  }

  function TableBody(items: string, columns: seq<Column>, cells: seq<Piece>): seq<Piece> {
    TableStart(columns) + cells + TableTail(items, Keys(columns))
  }

  function TableTail(items: string, keys: seq<string>): seq<Piece> {
    [Raw("\n")] + TableRows(items) + KeyCells(keys) + TableEnd()
  }

  function TableStart(columns: seq<Column>): seq<Piece> {
    [Use("table", "(columns: ("), Raw(Widths(columns)), Raw("),\n  ")]
  }

  function TableRows(items: string): seq<Piece> { [Raw("  "), Spread(items, ".map(it => (")] }

  function TableEnd(): seq<Piece> { [Raw(")).flatten()\n)\n"), Use("v", "(3mm)\n")] }

  function TablePart(items: string, columns: seq<Column>): Part {
    var cells := Columns(columns);
    cells.(body := TableBody(items, columns, cells.body),
           properties := map[items := Rows(set k | k in Keys(columns))],
           required := [items],
           form := [FormField(items, "Позиции", "Жолдар", TableBox(columns))])
  }

  function TotalsBody(): seq<Piece> {
    [Use("align", "(right)["), Ref(0, ": "), Get("total", "]\n"), Ref(1, ": "), Get("total_words", "\n"),
     Use("v", "(3mm)\n")]
  }

  function TotalsPart(tiyn: string, title: string, words: string, titleKk: string): Part {
    Part([Let(0, title), Let(1, words)], TotalsBody(), [title, words],
         map[tiyn := MoneyValue]["total" := StringValue]["total_words" := StringValue],
         [tiyn, "total", "total_words"],
         [FormField(tiyn, title, titleKk, MoneyBox)])
  }

  function PartyPart(title: string): Part {
    LabelPart(title, [Raw("  ["), Ref(0, " "), Use("sigrule", "],\n")])
  }

  function PartyParts(ps: seq<string>): seq<Part> { seq(|ps|, i requires 0 <= i < |ps| => PartyPart(ps[i])) }

  function SignatureRule(): seq<Piece> {
    [LetCode("sigrule", "box(width: 1fr, height: 8mm, "), Raw("stroke: (bottom: 0.4pt))\n")]
  }

  function SignatureStart(n: nat): seq<Piece> {
    [Use("v", "(6mm)\n"), Use("grid", "(columns: (1fr,) * "), Raw(Decimal(n)), Raw(", gutter: 8mm,\n")]
  }

  function FieldsStart(): seq<Piece> { 
    [Use("table", "(columns: (auto, 1fr), "), Raw("stroke: none, inset: 2pt,\n")]
  }

  function FieldsEnd(): seq<Piece> { [Raw(")\n"), Use("v", "(3mm)\n")] }

  function HeaderBody(): seq<Piece> {
    [Use("align", "(center)["), Use("text", "(size: 13pt, weight: "), Str("bold"), Raw(")["), Ref(0, "]]\n"),
     Use("v", "(4mm)\n")]
  }

  function ParagraphBody(): seq<Piece> { [Ref(0, "\n"), Use("v", "(3mm)\n")] }

  function TotalsBlock(field: Option<string>, title: Option<string>, words: Option<string>, titleKk: Option<string>)
    : Part
  {
    var t := title.GetOr("Итого к оплате");
    TotalsPart(TiynField(field), t, words.GetOr("Сумма прописью"), titleKk.GetOr(t))
  }

  function FieldsPart(rows: seq<Row>): Part {
    Wrap([], FieldsStart(), JoinAll(RowParts(rows)), FieldsEnd())
  }

  function SignaturesPart(parties: seq<string>): Part {
    Wrap(SignatureRule(), SignatureStart(|parties|), JoinAll(PartyParts(parties)), [Raw(")\n")])
  }

  function PagebreakPart(): Part { Nothing.(body := [Use("pagebreak", "()\n")]) }

  function BlockPart(b: Block): Part {
    match b
    case Header(title) => LabelPart(title, HeaderBody())
    case Paragraph(text) => LabelPart(text, ParagraphBody())
    case Fields(rows) => FieldsPart(rows)
    case Table(field, columns) => TablePart(ItemsField(field), columns)
    case Totals(field, title, words, titleKk) =>
      TotalsBlock(field, title, words, titleKk)
    case Signatures(parties) => SignaturesPart(parties)
    case Pagebreak => PagebreakPart()
    case OfUnknownType(_) => Nothing
    case Untyped => Nothing
  }

  function BlockParts(blocks: seq<Block>): seq<Part> {
    seq(|blocks|, i requires 0 <= i < |blocks| => BlockPart(blocks[i]))
  }

  function PartOf(blocks: seq<Block>): Part { JoinAll(BlockParts(blocks)) }

  function PageSetup(): seq<Piece> { [Use("set", " page(paper: "), Str("a4"), Raw(", margin: 18mm)\n")] }

  function TextSetup(): seq<Piece> {
    [Use("set", " text(font: "), Str("Noto Sans"), Raw(", size: 9.2pt, lang: ")] +
    [Str("ru"), Raw(", overhang: false, hyphenate: false)\n")]
  }

  function SlashRule(): seq<Piece> { [Use("show", " regex("), Str("\\S+/\\S+"), Raw("): it => box(it)\n")] }

  function InputDocument(): seq<Piece> { [LetCode("d", "json("), Str("input.json"), Raw(")\n")] }

  /** The directives every compiled template starts with. */
  function Prologue(): seq<Piece> { PageSetup() + TextSetup() + SlashRule() + InputDocument() }

  /** Why a list of blocks does not compile, if it does not. */
  function Verdict(blocks: Option<seq<Block>>): Option<Error> {
    match blocks
    case None => Some(Error(0, "blocks_not_array"))
    case Some(bs) =>
      if bs == [] then Some(Error(0, "blocks_empty"))
      else if |bs| > 200 then Some(Error(0, "too_many_blocks"))
      else if FirstFault(bs).Some? then FirstFault(bs)
      else if PartOf(bs).labels == [] then Some(Error(0, "no_static_labels"))
      else None
  }

  // ---------------------------------------------------------------------------
  // The text of the fixed fragments
  // ---------------------------------------------------------------------------

  lemma {:induction false} PlainLiteral(raw: string)
    requires forall i :: 0 <= i < |raw| ==> raw[i] != '\\' && raw[i] != '"'
    ensures Escaped(raw) == raw
  {
    if raw != "" {
      PlainLiteral(raw[..|raw| - 1]);
    }
  }

  lemma Text1(a: Piece)
    ensures Text([a]) == PieceText(a)
  {
    assert [a][1..] == [];
  }

  lemma Text2(a: Piece, b: Piece)
    ensures Text([a, b]) == PieceText(a) + PieceText(b)
  {
    assert [a, b] == [a] + [b];
    TextCons(a, [b]);
    Text1(b);
  }

  lemma Text3(a: Piece, b: Piece, c: Piece)
    ensures Text([a, b, c]) == PieceText(a) + PieceText(b) + PieceText(c)
  {
    assert [a, b, c] == [a] + [b, c];
    TextCons(a, [b, c]);
    Text2(b, c);
  }

  lemma LetText(name: string, literal: string)
    ensures "#let" + (" " + name + " = ") + literal + "\n" == "#let " + name + " = " + literal + "\n"
  {
    assert "#let" + (" " + name + " = ") == "#let " + name + " = ";
  }

  function HeaderFront(): seq<Piece> {
    [Use("align", "(center)["), Use("text", "(size: 13pt, weight: "), Str("bold")]
  }

  function HeaderBack(k: nat): seq<Piece> { [Raw(")["), Ref(k, "]]\n"), Use("v", "(4mm)\n")] }

  lemma HeaderText(k: nat)
    ensures Text(Shift(HeaderBody(), k))
         == "#align(center)[" + "#text" + "(size: 13pt, weight: \"bold\")[" + ("#" + LabelName(k) + "]]\n#v(4mm)\n")
  {
    assert Shift(HeaderBody(), k) == HeaderFront() + HeaderBack(k);
    TextAppend(HeaderFront(), HeaderBack(k));
    HeaderFrontText();
    HeaderBackText(k);
    HeaderWeight();
  }

  lemma HeaderFrontText()
    ensures Text(HeaderFront()) == "#align(center)[" + "#text" + ("(size: 13pt, weight: " + Literal("bold"))
  {
    var front := HeaderFront();
    Text3(front[0], front[1], front[2]);
    HeaderAligns();
    assert "#" + "text" == "#text";
  }

  lemma HeaderBackText(k: nat)
    ensures Text(HeaderBack(k)) == ")[" + ("#" + LabelName(k) + "]]\n#v(4mm)\n")
  {
    var back := HeaderBack(k);
    Text3(back[0], back[1], back[2]);
    HeaderCloses();
  }

  lemma HeaderAligns()
    ensures "#" + "align" + "(center)[" == "#align(center)["
  {
  }

  lemma HeaderWeight()
    ensures "(size: 13pt, weight: " + Literal("bold") + ")[" == "(size: 13pt, weight: \"bold\")["
  {
    PlainLiteral("bold");
    assert Literal("bold") == "\"bold\"";
  }

  lemma HeaderCloses()
    ensures "]]\n" + ("#" + "v" + "(4mm)\n") == "]]\n#v(4mm)\n"
  {
  }

  lemma ParagraphText(k: nat)
    ensures Text(Shift(ParagraphBody(), k)) == "#" + LabelName(k) + "\n#v(3mm)\n"
  {
    assert Shift(ParagraphBody(), k) == [Ref(k, "\n"), Use("v", "(3mm)\n")];
    Text2(Ref(k, "\n"), Use("v", "(3mm)\n"));
  }

  lemma FieldsText()
    ensures Text(FieldsStart()) == "#table" + "(columns: (auto, 1fr), " + "stroke: none, inset: 2pt,\n"
    ensures Text(FieldsEnd()) == ")\n#v(3mm)\n"
  {
    Text2(FieldsStart()[0], FieldsStart()[1]);
    assert "#" + "table" == "#table";
    Text2(FieldsEnd()[0], FieldsEnd()[1]);
  }

  lemma VariableText(id: string)
    ensures Text([Raw("[")] + RowCell(Variable(id))) == "[#d.at(" + Literal(id) + (", default: " + "\"\"") + ")],\n"
  {
    var cell := RowCell(Variable(id));
    TextCons(Raw("["), cell);
    Text3(cell[0], cell[1], cell[2]);
    EmptyLiteral();
    VariableOpens();
    Regrouped("[", "#d" + ".at(", Literal(id), ", default: ", "\"\"", ")],\n");
  }

  lemma Regrouped(a: string, b: string, c: string, d: string, e: string, f: string)
    ensures a + (b + c + d + e + f) == a + b + c + (d + e) + f
  {
  }

  lemma EmptyLiteral()
    ensures Literal("") == "\"\""
  {
  }

  lemma VariableOpens()
    ensures "[" + ("#d" + ".at(") == "[#d.at("
  {
  }

  lemma FieldText(value: RowValue)
    requires value.Field?
    ensures Text([Raw("[")] + RowCell(value)) == "[#d." + value.name + "],\n"
  {
    TextCons(Raw("["), RowCell(value));
    Text1(RowCell(value)[0]);
    assert "[" + ("#d" + ("." + value.name + "],\n")) == "[" + "#d" + "." + value.name + "],\n";
    assert "[" + "#d" + "." == "[#d.";
  }

  lemma RowPieces(row: Row, k: nat)
    ensures Shift(RowPart(row).body, k) == [Raw("  ["), Ref(k, "], ")] + ([Raw("[")] + RowCell(row.value))
  {
  }

  lemma ColumnText(c: Column, k: nat)
    ensures Text(Shift(ColumnPart(c).body, k)) == "[*#" + LabelName(k) + "*], "
  {
    assert Shift(ColumnPart(c).body, k) == [Raw("[*"), Ref(k, "*], ")];
    Text2(Raw("[*"), Ref(k, "*], "));
  }

  lemma TableStartText(columns: seq<Column>)
    ensures Text(TableStart(columns)) == "#table(columns: (" + Widths(columns) + "),\n  "
  {
    Text3(TableStart(columns)[0], TableStart(columns)[1], TableStart(columns)[2]);
    assert "#" + "table" + "(columns: (" == "#table(columns: (";
  }

  lemma StartText(columns: seq<Column>, header: seq<Piece>)
    ensures Text(TableStart(columns) + header + [Raw("\n")]) == Text(TableStart(columns)) + Text(header) + "\n"
  {
    TextAppend(TableStart(columns) + header, [Raw("\n")]);
    TextAppend(TableStart(columns), header);
    Text1(Raw("\n"));
  }

  lemma TableInSteps(before: seq<Piece>, items: string, columns: seq<Column>, header: seq<Piece>)
    ensures before + (TableStart(columns) + header + [Raw("\n")]) + TableRows(items) +
            KeyCells(Keys(columns)) + TableEnd()
         == before + TableBody(items, columns, header)
  {
    var start, rows, cells, end := TableStart(columns), TableRows(items), KeyCells(Keys(columns)), TableEnd();
    assert TableBody(items, columns, header) == start + header + ([Raw("\n")] + rows + cells + end);
  }

  lemma TableRowsText(items: string)
    ensures Text(TableRows(items)) == "  ..d." + items + ".map(it => ("
  {
    Text2(TableRows(items)[0], TableRows(items)[1]);
    assert "  " + ("..d." + items + ".map(it => (") == "  ..d." + items + ".map(it => (";
  }

  lemma TableEndText()
    ensures Text(TableEnd()) == ")).flatten()\n)\n#v(3mm)\n"
  {
    Text2(TableEnd()[0], TableEnd()[1]);
  }

  lemma KeyText(key: string)
    ensures Text(KeyCell(key)) == "[#it.at(" + Literal(key) + ", default: \"\")]"
  {
    var cell := KeyCell(key);
    var front, back := [cell[0], cell[1], cell[2]], [cell[3], cell[4], cell[5]];
    assert cell == front + back;
    TextAppend(front, back);
    Text3(cell[0], cell[1], cell[2]);
    Text3(cell[3], cell[4], cell[5]);
    KeyOpens();
    DefaultText();
  }

  lemma KeyCellText(key: string, k: nat)
    ensures Text(Comma(k) + KeyCell(key))
         == (if k > 0 then ", " else "") + ("[#it.at(" + Literal(key) + ", default: \"\")]")
  {
    TextAppend(Comma(k), KeyCell(key));
    KeyText(key);
    Text1(Raw(", "));
  }

  lemma BodyInSteps(a: seq<Piece>, b: seq<Piece>, c: seq<Piece>)
    ensures a + b + c == a + (b + c)
  {
  }

  lemma KeyOpens()
    ensures "[" + ("#" + "it" + ".at(") == "[#it.at("
  {
  }

  lemma DefaultText()
    ensures ", default: " + Literal("") + ")]" == ", default: \"\")]"
  {
    assert Literal("") == "\"\"";
  }

  lemma TotalsText(k: nat)
    ensures Text(Shift(TotalsBody(), k))
         == "#align(right)[#" + LabelName(k) + ": #d.total]\n" +
            ("#" + LabelName(k + 1) + ": #d.total_words\n#v(3mm)\n")
  {
    var front := [Use("align", "(right)["), Ref(k, ": "), Get("total", "]\n")];
    var back := [Ref(k + 1, ": "), Get("total_words", "\n"), Use("v", "(3mm)\n")];
    assert Shift(TotalsBody(), k) == front + back;
    TextAppend(front, back);
    Text3(front[0], front[1], front[2]);
    Text3(back[0], back[1], back[2]);
    TotalStrings(LabelName(k));
    WordsStrings(LabelName(k + 1));
  }

  lemma TotalStrings(name: string)
    ensures "#" + "align" + "(right)[" + ("#" + name + ": ") + ("#d" + ("." + "total" + "]\n"))
         == "#align(right)[#" + name + ": #d.total]\n"
  {
    assert "#" + "align" + "(right)[" + "#" == "#align(right)[#";
    assert ": " + ("#d" + ("." + "total" + "]\n")) == ": #d.total]\n";
  }

  lemma WordsStrings(name: string)
    ensures "#" + name + ": " + ("#d" + ("." + "total_words" + "\n")) + ("#" + "v" + "(3mm)\n")
         == "#" + name + ": #d.total_words\n#v(3mm)\n"
  {
    assert ": " + ("#d" + ("." + "total_words" + "\n")) + ("#" + "v" + "(3mm)\n") == ": #d.total_words\n#v(3mm)\n";
  }

  lemma SignatureRuleText()
    ensures Text(SignatureRule())
         == "#let sigrule = " + "box(width: 1fr, height: 8mm, " + "stroke: (bottom: 0.4pt))\n"
  {
    Text2(SignatureRule()[0], SignatureRule()[1]);
    LetCodeText("sigrule", "box(width: 1fr, height: 8mm, ");
    SignatureRuleOpens();
  }

  lemma SignatureRuleOpens()
    ensures "#let " + "sigrule" + " = " == "#let sigrule = "
  {
  }

  lemma LetCodeText(name: string, code: string)
    ensures PieceText(LetCode(name, code)) == "#let " + name + " = " + code
  {
    assert "#let" + (" " + name + " = " + code) == "#let" + " " + name + " = " + code;
    assert "#let" + " " == "#let ";
  }

  lemma SignatureText(n: nat)
    ensures Text(SignatureStart(n)) == "#v(6mm)\n" + ("#grid(columns: (1fr,) * " + Decimal(n) + ", gutter: 8mm,\n")
  {
    var s := SignatureStart(n);
    assert s == [s[0]] + [s[1], s[2], s[3]];
    TextCons(s[0], [s[1], s[2], s[3]]);
    Text3(s[1], s[2], s[3]);
    assert "#" + "v" + "(6mm)\n" == "#v(6mm)\n";
    GridOpens();
  }

  lemma GridOpens()
    ensures "#" + "grid" + "(columns: (1fr,) * " == "#grid(columns: (1fr,) * "
  {
  }

  lemma PartyText(title: string, k: nat)
    ensures Text(Shift(PartyPart(title).body, k)) == "  [#" + LabelName(k) + " #sigrule],\n"
  {
    var cell := [Raw("  ["), Ref(k, " "), Use("sigrule", "],\n")];
    assert Shift(PartyPart(title).body, k) == cell;
    Text3(cell[0], cell[1], cell[2]);
    PartyStrings(LabelName(k));
  }

  lemma PartyStrings(name: string)
    ensures "  [" + ("#" + name + " ") + ("#" + "sigrule" + "],\n") == "  [#" + name + " #sigrule],\n"
  {
    assert "  [" + "#" == "  [#";
    assert " " + ("#" + "sigrule" + "],\n") == " #sigrule],\n";
  }

  // ---------------------------------------------------------------------------
  // How the state grows
  // ---------------------------------------------------------------------------

  function WithLabel(p: Part, text: string): Part {
    p.(preamble := p.preamble + [Let(|p.labels|, text)], labels := p.labels + [text])
  }

  lemma JoinLabel(p: Part, text: string, body: seq<Piece>)
    ensures Join(p, LabelPart(text, body)) == WithLabel(p, text).(body := p.body + Shift(body, |p.labels|))
  {
    assert Shift([Let(0, text)], |p.labels|) == [Let(|p.labels|, text)];
    assert p.properties + map[] == p.properties;
  }

  /** What a row's value adds to the schema and the form. */
  function WithValue(p: Part, caption: string, value: RowValue): Part {
    match value
    case Variable(id) => p.(properties := p.properties[id := StringValue])
    case Field(name, labelKk, isRequired) =>
      p.(properties := p.properties[name := StringValue],
         required := p.required + if isRequired.GetOr(true) then [name] else [],
         form := p.form + [FormField(name, caption, labelKk.GetOr(caption), TextBox)])
  }

  lemma JoinRow(p: Part, row: Row)
    ensures var q := WithLabel(p, row.caption).(body := p.body + Shift(RowPart(row).body, |p.labels|));
            Join(p, RowPart(row)) == WithValue(q, row.caption, row.value)
  {
    assert Shift([Let(0, row.caption)], |p.labels|) == [Let(|p.labels|, row.caption)];
    match row.value
    case Variable(id) => assert p.properties + map[id := StringValue] == p.properties[id := StringValue];
    case Field(name, _, _) => assert p.properties + map[name := StringValue] == p.properties[name := StringValue];
  }

  /** A row's caption, bound and in its cell. */
  function WithCaption(p: Part, caption: string): Part {
    WithLabel(p, caption).(body := p.body + [Raw("  ["), Ref(|p.labels|, "], ")])
  }

  lemma RowJoined(p: Part, row: Row)
    ensures var q := WithCaption(p, row.caption);
            WithValue(q.(body := q.body + ([Raw("[")] + RowCell(row.value))), row.caption, row.value)
              == Join(p, RowPart(row))
  {
    JoinRow(p, row);
    RowPieces(row, |p.labels|);
    BodyInSteps(p.body, [Raw("  ["), Ref(|p.labels|, "], ")], [Raw("[")] + RowCell(row.value));
  }

  lemma JoinWrapped(p: Part, front: seq<Piece>, start: seq<Piece>, part: Part, end: seq<Piece>)
    requires Unnumbered(front) && Unnumbered(start) && Unnumbered(end)
    ensures var q := Join(p.(preamble := p.preamble + front, body := p.body + start), part);
            Join(p, Wrap(front, start, part, end)) == q.(body := q.body + end)
  {
    var n := |p.labels|;
    ShiftAppend(front, part.preamble, n);
    ShiftAppend(start + part.body, end, n);
    ShiftAppend(start, part.body, n);
    ShiftUnnumbered(front, n);
    ShiftUnnumbered(start, n);
    ShiftUnnumbered(end, n);
  }

  lemma JoinSignatures(p: Part, parties: seq<string>)
    ensures var q := Join(p.(preamble := p.preamble + SignatureRule(), body := p.body + SignatureStart(|parties|)),
                          JoinAll(PartyParts(parties)));
            Join(p, SignaturesPart(parties)) == q.(body := q.body + [Raw(")\n")])
  {
    JoinWrapped(p, SignatureRule(), SignatureStart(|parties|), JoinAll(PartyParts(parties)), [Raw(")\n")]);
  }

  lemma {:induction false} RowsFaultGoesOn(rows: seq<Row>, i: nat)
    requires i <= |rows| && RowsFault(rows[..i]).Some?
    ensures RowsFault(rows) == RowsFault(rows[..i])
  {
    if i == |rows| {
      assert rows[..i] == rows;
    } else {
      var n := |rows| - 1;
      assert rows[..n][..i] == rows[..i];
      RowsFaultGoesOn(rows[..n], i);
    }
  }

  lemma {:induction false} KeyCellsUnnumbered(keys: seq<string>)
    ensures Unnumbered(KeyCells(keys))
  {
    if keys != [] {
      KeyCellsUnnumbered(keys[..|keys| - 1]);
    }
  }

  lemma ShiftTable(items: string, columns: seq<Column>, cells: seq<Piece>, d: nat)
    ensures Shift(TableBody(items, columns, cells), d) == TableBody(items, columns, Shift(cells, d))
  {
    var tail := TableTail(items, Keys(columns));
    KeyCellsUnnumbered(Keys(columns));
    ShiftUnnumbered(TableStart(columns), d);
    ShiftUnnumbered(tail, d);
    ShiftAppend(TableStart(columns) + cells, tail, d);
    ShiftAppend(TableStart(columns), cells, d);
  }

  lemma JoinTable(p: Part, items: string, columns: seq<Column>)
    ensures var parts := Columns(columns);
            var q := Join(p, parts.(body := []));
            Join(p, TablePart(items, columns)) == q.(
              body := p.body + TableBody(items, columns, Shift(parts.body, |p.labels|)),
              properties := p.properties[items := Rows(set k | k in Keys(columns))],
              required := p.required + [items],
              form := p.form + [FormField(items, "Позиции", "Жолдар", TableBox(columns))])
            && q.properties == p.properties && q.required == p.required && q.form == p.form && q.body == p.body
  {
    var parts := Columns(columns);
    ColumnsDeclareNothing(columns);
    ShiftTable(items, columns, parts.body, |p.labels|);
    var rows := Rows(set k | k in Keys(columns));
    assert p.properties + map[items := rows] == p.properties[items := rows];
    assert p.properties + map[] == p.properties;
  }

  lemma {:induction false} ColumnsDeclareNothing(columns: seq<Column>)
    ensures var parts := Columns(columns);
            parts.properties == map[] && parts.required == [] && parts.form == []
  {
    if columns != [] {
      var n := |columns| - 1;
      ColumnsDeclareNothing(columns[..n]);
      assert ColumnParts(columns)[..n] == ColumnParts(columns[..n]);
    }
  }

  lemma ColumnsFaulty(columns: seq<Column>, i: nat)
    requires i < |columns| && !ColumnOk(columns[i])
    ensures !ColumnsOk(columns)
  {
  }

  lemma ColumnsSnoc(columns: seq<Column>, c: Column)
    ensures Keys(columns + [c]) == Keys(columns) + [c.key]
    ensures Widths(columns + [c]) == Widths(columns) + Width(c.key)
    ensures ColumnsOk(columns + [c]) <==> ColumnsOk(columns) && ColumnOk(c)
  {
    var more := columns + [c];
    assert more[..|columns|] == columns && more[|columns|] == c;
    if ColumnsOk(more) {
      forall i | 0 <= i < |columns| ensures ColumnOk(columns[i]) { assert more[i] == columns[i]; }
    }
  }

  lemma RowsSnoc(rows: seq<Row>, row: Row)
    ensures JoinAll(RowParts(rows + [row])) == Join(JoinAll(RowParts(rows)), RowPart(row))
    ensures RowsFault(rows + [row]) == if RowsFault(rows).Some? then RowsFault(rows) else RowFault(row)
  {
    assert RowParts(rows + [row])[..|rows|] == RowParts(rows);
    assert (rows + [row])[..|rows|] == rows;
  }

  lemma PartiesSnoc(parties: seq<string>, title: string)
    ensures JoinAll(PartyParts(parties + [title])) == Join(JoinAll(PartyParts(parties)), PartyPart(title))
  {
    assert PartyParts(parties + [title])[..|parties|] == PartyParts(parties);
  }

  lemma KeysSnoc(keys: seq<string>, key: string)
    ensures KeyCells(keys + [key]) == KeyCells(keys) + (Comma(|keys|) + KeyCell(key))
  {
    assert (keys + [key])[..|keys|] == keys;
    BodyInSteps(KeyCells(keys), Comma(|keys|), KeyCell(key));
  }

  lemma ColumnTaken(p: Part, columns: seq<Column>, c: Column)
    ensures var q := Join(p, Columns(columns).(body := []));
            Join(p, Columns(columns + [c]).(body := [])) == WithLabel(q, c.title) &&
            Text(Shift(Columns(columns + [c]).body, |p.labels|))
              == Text(Shift(Columns(columns).body, |p.labels|)) + ("[*#" + LabelName(|q.labels|) + "*], ")
  {
    var q := Join(p, Columns(columns).(body := []));
    ColumnStep(p, columns, c);
    ColumnText(c, |q.labels|);
    TextAppend(Shift(Columns(columns).body, |p.labels|), Shift(ColumnPart(c).body, |q.labels|));
  }

  /** One more column, its header cell kept aside. */
  lemma ColumnStep(p: Part, columns: seq<Column>, c: Column)
    ensures var before, after := Columns(columns), Columns(columns + [c]);
            var n := |p.labels|;
            Join(p, after.(body := [])) == WithLabel(Join(p, before.(body := [])), c.title) &&
            Shift(after.body, n) == Shift(before.body, n) + Shift(ColumnPart(c).body, n + |before.labels|)
  {
    assert ColumnParts(columns + [c]) == ColumnParts(columns) + [ColumnPart(c)];
    JoinAllSnoc(ColumnParts(columns), ColumnPart(c));
    JoinedLabel(p, Columns(columns), c.title, ColumnPart(c).body);
  }

  /** Joining one more label, seen from behind another part. */
  lemma JoinedLabel(p: Part, before: Part, title: string, body: seq<Piece>)
    ensures var after := Join(before, LabelPart(title, body));
            var n := |p.labels|;
            Join(p, after.(body := [])) == WithLabel(Join(p, before.(body := [])), title) &&
            Shift(after.body, n) == Shift(before.body, n) + Shift(body, n + |before.labels|)
  {
    var n, m := |p.labels|, |before.labels|;
    JoinLabel(before, title, body);
    ShiftAppend(before.body, Shift(body, m), n);
    ShiftTwice(body, m, n);
    ShiftAppend(before.preamble, [Let(m, title)], n);
    assert Shift([Let(m, title)], n) == [Let(n + m, title)];
  }

  lemma JoinTotals(p: Part, tiyn: string, title: string, words: string, titleKk: string)
    ensures var q := WithLabel(WithLabel(p, title), words);
            Join(p, TotalsPart(tiyn, title, words, titleKk)) == q.(
              body := p.body + Shift(TotalsBody(), |p.labels|),
              properties := p.properties[tiyn := MoneyValue]["total" := StringValue]["total_words" := StringValue],
              required := p.required + [tiyn] + ["total"] + ["total_words"],
              form := p.form + [FormField(tiyn, title, titleKk, MoneyBox)])
  {
    var n := |p.labels|;
    assert Shift([Let(0, title), Let(1, words)], n) == [Let(n, title)] + [Let(n + 1, words)];
    assert p.preamble + ([Let(n, title)] + [Let(n + 1, words)]) == p.preamble + [Let(n, title)] + [Let(n + 1, words)];
    assert p.labels + [title, words] == p.labels + [title] + [words];
    assert p.required + [tiyn, "total", "total_words"] == p.required + [tiyn] + ["total"] + ["total_words"];
    assert p.properties + map[tiyn := MoneyValue]["total" := StringValue]["total_words" := StringValue]
        == p.properties[tiyn := MoneyValue]["total" := StringValue]["total_words" := StringValue];
  }

  lemma JoinPagebreak(p: Part)
    ensures Join(p, PagebreakPart()) == p.(body := p.body + [Use("pagebreak", "()\n")])
  {
    ShiftUnnumbered([Use("pagebreak", "()\n")], |p.labels|);
    assert Shift([], |p.labels|) == [];
    assert p.properties + map[] == p.properties;
  }

  // ---------------------------------------------------------------------------
  // The pass over the blocks
  // ---------------------------------------------------------------------------

  /** What is being put together, and the number of the next label. */
  class Builder {
    var body: string
    var preamble: string
    var labels: seq<string>
    var properties: map<string, Property>
    var required: seq<string>
    var form: seq<FormField>
    var literalCounter: nat

    ghost predicate Built(p: Part)
      reads this
    {
      body == Text(p.body) && preamble == Text(p.preamble) && labels == p.labels && properties == p.properties &&
      required == p.required && form == p.form && literalCounter == |p.labels|
    }

    constructor ()
      ensures Built(Nothing)
    {
      body, preamble, labels, properties, required, form, literalCounter := "", "", [], map[], [], [], 0;
    }

    /** Bind a label in the preamble; its name is for the body to print. */
    method EmitLabel(text: string, ghost p: Part) returns (name: string)
      requires Built(p)
      modifies this
      ensures name == LabelName(|p.labels|)
      ensures Built(WithLabel(p, text))
    {
      name := "s" + Decimal(literalCounter);
      literalCounter := literalCounter + 1;
      var literal := WriteLiteral(text);
      preamble := preamble + ("#let " + name + " = " + literal + "\n");
      labels := labels + [text];
      ghost var bound := Let(|p.labels|, text);
      TextAppend(p.preamble, [bound]);
      Text1(bound);
      LetText(name, literal);
    }

    method Write(text: string, ghost ps: seq<Piece>, ghost p: Part)
      requires Built(p) && text == Text(ps)
      modifies this
      ensures Built(p.(body := p.body + ps))
    {
      body := body + text;
      TextAppend(p.body, ps);
    }

    method DeclareField(name: string, labelRu: string, labelKk: string, property: Property, isRequired: bool,
                        ghost p: Part)
      requires Built(p)
      modifies this
      ensures Built(p.(properties := p.properties[name := property],
                       required := p.required + if isRequired then [name] else [],
                       form := p.form + [FormField(name, labelRu, labelKk,
                                                   if property.MoneyValue? then MoneyBox else TextBox)]))
    {
      properties := properties[name := property];
      if isRequired {
        required := required + [name];
      }
      form := form + [FormField(name, labelRu, labelKk, if property.MoneyValue? then MoneyBox else TextBox)];
    }

    method TakeHeader(title: string, ghost p: Part) returns (fault: Option<string>)
      requires Built(p)
      modifies this
      ensures fault == BlockFault(Header(title))
      ensures fault.None? ==> Built(Join(p, LabelPart(title, HeaderBody())))
    {
      if title == "" { return Some("header_title_required"); }
      var name := EmitLabel(title, p);
      ghost var k := |p.labels|;
      HeaderText(k);
      Write("#align(center)[" + "#text" + "(size: 13pt, weight: \"bold\")[" + ("#" + name + "]]\n#v(4mm)\n"),
            Shift(HeaderBody(), k), WithLabel(p, title));
      JoinLabel(p, title, HeaderBody());
      return None;
    }

    method TakeParagraph(text: string, ghost p: Part) returns (fault: Option<string>)
      requires Built(p)
      modifies this
      ensures fault == BlockFault(Paragraph(text))
      ensures fault.None? ==> Built(Join(p, LabelPart(text, ParagraphBody())))
    {
      if text == "" { return Some("text_required"); }
      var name := EmitLabel(text, p);
      ghost var k := |p.labels|;
      ParagraphText(k);
      Write("#" + name + "\n#v(3mm)\n", Shift(ParagraphBody(), k), WithLabel(p, text));
      JoinLabel(p, text, ParagraphBody());
      return None;
    }

    /** The cell of a variable, read by its path in the input. */
    method WriteVariable(id: string, ghost p: Part)
      requires Built(p)
      modifies this
      ensures Built(p.(body := p.body + ([Raw("[")] + RowCell(Variable(id))),
                       properties := p.properties[id := StringValue]))
    {
      var literal := WriteLiteral(id);
      VariableText(id);
      Write("[#d.at(" + literal + (", default: " + "\"\"") + ")],\n", [Raw("[")] + RowCell(Variable(id)), p);
      properties := properties[id := StringValue];
    }

    method TakeRow(row: Row, ghost p: Part) returns (fault: Option<string>)
      requires Built(p)
      modifies this
      ensures fault == RowFault(row)
      ensures fault.None? ==> Built(Join(p, RowPart(row)))
    {
      if row.caption == "" { return Some("field_label_required"); }
      WriteCaption(row.caption, p);
      fault := TakeValue(row.value, row.caption, WithCaption(p, row.caption));
      RowJoined(p, row);
    }

    method WriteCaption(caption: string, ghost p: Part)
      requires Built(p)
      modifies this
      ensures Built(WithCaption(p, caption))
    {
      var name := EmitLabel(caption, p);
      Text2(Raw("  ["), Ref(|p.labels|, "], "));
      Write("  [#" + name + "], ", [Raw("  ["), Ref(|p.labels|, "], ")], WithLabel(p, caption));
    }

    method TakeValue(value: RowValue, caption: string, ghost p: Part) returns (fault: Option<string>)
      requires Built(p) && caption != ""
      modifies this
      ensures fault == RowFault(Row(caption, value))
      ensures fault.None? ==> Built(WithValue(p.(body := p.body + ([Raw("[")] + RowCell(value))), caption, value))
    {
      match value {
        case Variable(id) =>
          if !Known(id) { return Some("unknown_variable"); }
          WriteVariable(id, p);
        case Field(field, labelKk, isRequired) =>
          var ok := IsValidField(field);
          if !ok { return Some("invalid_field_name"); }
          FieldText(value);
          Write("[#d." + field + "],\n", [Raw("[")] + RowCell(value), p);
          DeclareField(field, caption, labelKk.GetOr(caption), StringValue, isRequired.GetOr(true),
                       p.(body := p.body + ([Raw("[")] + RowCell(value))));
      }
      return None;
    }

    method TakeFields(rows: seq<Row>, ghost p: Part) returns (fault: Option<string>)
      requires Built(p)
      modifies this
      ensures fault == BlockFault(Fields(rows))
      ensures fault.None? ==> Built(Join(p, FieldsPart(rows)))
    {
      if rows == [] { return Some("fields_rows_required"); }
      FieldsText();
      Write("#table" + "(columns: (auto, 1fr), " + "stroke: none, inset: 2pt,\n", FieldsStart(), p);
      fault := TakeRows(rows, p.(body := p.body + FieldsStart()));
      if fault.None? {
        assert p.preamble + [] == p.preamble;
        JoinWrapped(p, [], FieldsStart(), JoinAll(RowParts(rows)), FieldsEnd());
        Write(")\n#v(3mm)\n", FieldsEnd(), Join(p.(body := p.body + FieldsStart()), JoinAll(RowParts(rows))));
      }
    }

    method TakeRows(rows: seq<Row>, ghost p: Part) returns (fault: Option<string>)
      requires Built(p)
      modifies this
      ensures fault == RowsFault(rows)
      ensures fault.None? ==> Built(Join(p, JoinAll(RowParts(rows))))
    {
      JoinNothing(p);
      for i := 0 to |rows|
        invariant RowsFault(rows[..i]).None?
        invariant Built(Join(p, JoinAll(RowParts(rows[..i]))))
      {
        assert rows[..i + 1] == rows[..i] + [rows[i]];
        RowsSnoc(rows[..i], rows[i]);
        fault := TakeRow(rows[i], Join(p, JoinAll(RowParts(rows[..i]))));
        if fault.Some? {
          RowsFaultGoesOn(rows, i + 1);
          return;
        }
        JoinAssociates(p, JoinAll(RowParts(rows[..i])), RowPart(rows[i]));
      }
      assert rows[..|rows|] == rows;
      return None;
    }

    /** After these columns: labels are in the preamble, header cells, keys and widths are kept aside. */
    ghost predicate Columned(p: Part, done: seq<Column>, keys: seq<string>, cells: string, widths: string)
      reads this
    {
      ColumnsOk(done) && Built(Join(p, Columns(done).(body := []))) && keys == Keys(done) &&
      cells == Text(Shift(Columns(done).body, |p.labels|)) && widths == Widths(done)
    }

    method TakeColumns(columns: seq<Column>, ghost p: Part)
      returns (fault: Option<string>, keys: seq<string>, cells: string, widths: string)
      requires Built(p)
      modifies this
      ensures fault == if ColumnsOk(columns) then None else Some("table_column_invalid")
      ensures fault.None? ==> Columned(p, columns, keys, cells, widths)
    {
      keys, cells, widths := [], "", "";
      JoinNothing(p);
      for i := 0 to |columns|
        invariant Columned(p, columns[..i], keys, cells, widths)
      {
        var ok;
        assert columns[..i + 1] == columns[..i] + [columns[i]];
        ok, keys, cells, widths := TakeColumn(columns[i], keys, cells, widths, columns[..i], p);
        if !ok {
          ColumnsFaulty(columns, i);
          return Some("table_column_invalid"), keys, cells, widths;
        }
      }
      assert columns[..|columns|] == columns;
      fault := None;
    }

    /** The body of the loop over a table's columns. */
    method TakeColumn(c: Column, keys: seq<string>, cells: string, widths: string,
                      ghost done: seq<Column>, ghost p: Part)
      returns (ok: bool, keys': seq<string>, cells': string, widths': string)
      requires Columned(p, done, keys, cells, widths)
      modifies this
      ensures ok == ColumnOk(c)
      ensures ok ==> Columned(p, done + [c], keys', cells', widths')
    {
      keys', cells', widths' := keys, cells, widths;
      ok := IsValidField(c.key);
      if c.title == "" { ok := false; }
      if !ok { return; }
      ghost var q := Join(p, Columns(done).(body := []));
      var name := EmitLabel(c.title, q);
      ColumnsSnoc(done, c);
      ColumnTaken(p, done, c);
      cells' := cells + ("[*#" + name + "*], ");
      widths' := widths + if c.key == "name" || c.key == "description" then "1fr, " else "auto, ";
      keys' := keys + [c.key];
    }

    method WriteKeys(keys: seq<string>, ghost p: Part)
      requires Built(p)
      modifies this
      ensures Built(p.(body := p.body + KeyCells(keys)))
    {
      assert p.body + [] == p.body;
      for k := 0 to |keys|
        invariant Built(p.(body := p.body + KeyCells(keys[..k])))
      {
        WriteKey(keys[k], k, p.(body := p.body + KeyCells(keys[..k])));
        assert keys[..k + 1] == keys[..k] + [keys[k]];
        KeysSnoc(keys[..k], keys[k]);
        BodyInSteps(p.body, KeyCells(keys[..k]), Comma(k) + KeyCell(keys[k]));
      }
      assert keys[..|keys|] == keys;
    }

    method WriteKey(key: string, k: nat, ghost p: Part)
      requires Built(p)
      modifies this
      ensures Built(p.(body := p.body + (Comma(k) + KeyCell(key))))
    {
      var literal := WriteLiteral(key);
      KeyCellText(key, k);
      Write((if k > 0 then ", " else "") + ("[#it.at(" + literal + ", default: \"\")]"), Comma(k) + KeyCell(key), p);
    }

    method TakeTable(field: Option<string>, columns: seq<Column>, ghost p: Part) returns (fault: Option<string>)
      requires Built(p)
      modifies this
      ensures fault == BlockFault(Table(field, columns))
      ensures fault.None? ==> Built(Join(p, TablePart(ItemsField(field), columns)))
    {
      if columns == [] { return Some("table_columns_required"); }
      var items := field.GetOr("items");
      var ok := IsValidField(items);
      if !ok { return Some("invalid_field_name"); }
      var keys: seq<string>, cells, widths;
      fault, keys, cells, widths := TakeColumns(columns, p);
      if fault.Some? { return; }
      JoinTable(p, items, columns);
      ghost var q := Join(p, Columns(columns).(body := []));
      ghost var header := Shift(Columns(columns).body, |p.labels|);
      WriteTable(items, columns, keys, cells, widths, header, q);
      DeclareTable(items, columns, keys, q.(body := p.body + TableBody(items, columns, header)));
      return None;
    }

    method DeclareTable(items: string, columns: seq<Column>, keys: seq<string>, ghost p: Part)
      requires Built(p) && keys == Keys(columns)
      modifies this
      ensures Built(p.(properties := p.properties[items := Rows(set k | k in Keys(columns))],
                       required := p.required + [items],
                       form := p.form + [FormField(items, "Позиции", "Жолдар", TableBox(columns))]))
    {
      properties := properties[items := Rows(set k | k in keys)];
      required := required + [items];
      form := form + [FormField(items, "Позиции", "Жолдар", TableBox(columns))];
    }

    method WriteTable(items: string, columns: seq<Column>, keys: seq<string>, cells: string, widths: string,
                      ghost header: seq<Piece>, ghost p: Part)
      requires Built(p) && keys == Keys(columns) && cells == Text(header) && widths == Widths(columns)
      modifies this
      ensures Built(p.(body := p.body + TableBody(items, columns, header)))
    {
      TableStartText(columns);
      TableRowsText(items);
      TableEndText();
      ghost var start := TableStart(columns) + header + [Raw("\n")];
      StartText(columns, header);
      Write("#table(columns: (" + widths + "),\n  " + cells + "\n", start, p);
      ghost var q := p.(body := p.body + start);
      Write("  ..d." + items + ".map(it => (", TableRows(items), q);
      q := q.(body := q.body + TableRows(items));
      WriteKeys(keys, q);
      q := q.(body := q.body + KeyCells(keys));
      Write(")).flatten()\n)\n#v(3mm)\n", TableEnd(), q);
      TableInSteps(p.body, items, columns, header);
    }

    method WriteTotals(title: string, words: string, ghost p: Part)
      requires Built(p)
      modifies this
      ensures Built(WithLabel(WithLabel(p, title), words).(body := p.body + Shift(TotalsBody(), |p.labels|)))
    {
      var name := EmitLabel(title, p);
      var wordsName := EmitLabel(words, WithLabel(p, title));
      TotalsText(|p.labels|);
      Write("#align(right)[#" + name + ": #d.total]\n" + ("#" + wordsName + ": #d.total_words\n#v(3mm)\n"),
            Shift(TotalsBody(), |p.labels|), WithLabel(WithLabel(p, title), words));
    }

    method TakeTotals(field: Option<string>, caption: Option<string>, wordsLabel: Option<string>,
                      labelKk: Option<string>, ghost p: Part)
      returns (fault: Option<string>)
      requires Built(p)
      modifies this
      ensures fault == if ValidField(TiynField(field)) then None else Some("invalid_field_name")
      ensures fault.None? ==> Built(Join(p, TotalsBlock(field, caption, wordsLabel, labelKk)))
    {
      var tiyn := field.GetOr("total_tiyn");
      var ok := IsValidField(tiyn);
      if !ok { return Some("invalid_field_name"); }
      var title := caption.GetOr("Итого к оплате");
      var words := wordsLabel.GetOr("Сумма прописью");
      WriteTotals(title, words, p);
      ghost var k := |p.labels|;
      ghost var q := WithLabel(WithLabel(p, title), words);
      DeclareTotals(tiyn, title, labelKk.GetOr(title), q.(body := p.body + Shift(TotalsBody(), k)));
      JoinTotals(p, tiyn, title, words, labelKk.GetOr(title));
      return None;
    }

    method DeclareTotals(tiyn: string, labelRu: string, labelKk: string, ghost p: Part)
      requires Built(p)
      modifies this
      ensures Built(p.(properties :=
                         p.properties[tiyn := MoneyValue]["total" := StringValue]["total_words" := StringValue],
                       required := p.required + [tiyn] + ["total"] + ["total_words"],
                       form := p.form + [FormField(tiyn, labelRu, labelKk, MoneyBox)]))
    {
      properties := properties[tiyn := MoneyValue];
      properties := properties["total" := StringValue];
      properties := properties["total_words" := StringValue];
      required := required + [tiyn];
      required := required + ["total"];
      required := required + ["total_words"];
      form := form + [FormField(tiyn, labelRu, labelKk, MoneyBox)];
    }

    method WriteRule(ghost p: Part)
      requires Built(p)
      modifies this
      ensures Built(p.(preamble := p.preamble + SignatureRule()))
    {
      SignatureRuleText();
      preamble := preamble + ("#let sigrule = " + "box(width: 1fr, height: 8mm, " + "stroke: (bottom: 0.4pt))\n");
      TextAppend(p.preamble, SignatureRule());
    }

    method TakeSignatures(parties: seq<string>, ghost p: Part) returns (fault: Option<string>)
      requires Built(p)
      modifies this
      ensures fault == BlockFault(Signatures(parties))
      ensures fault.None? ==> Built(Join(p, SignaturesPart(parties)))
    {
      if parties == [] { return Some("signature_parties_required"); }
      WriteRule(p);
      ghost var start := p.(preamble := p.preamble + SignatureRule());
      SignatureText(|parties|);
      Write("#v(6mm)\n" + ("#grid(columns: (1fr,) * " + Decimal(|parties|) + ", gutter: 8mm,\n"),
            SignatureStart(|parties|), start);
      start := start.(body := p.body + SignatureStart(|parties|));
      fault := TakeParties(parties, start);
      if fault.None? {
        JoinSignatures(p, parties);
        Text1(Raw(")\n"));
        Write(")\n", [Raw(")\n")], Join(start, JoinAll(PartyParts(parties))));
      }
    }

    method TakeParties(parties: seq<string>, ghost p: Part) returns (fault: Option<string>)
      requires Built(p)
      modifies this
      ensures fault == if "" in parties then Some("signature_title_required") else None
      ensures fault.None? ==> Built(Join(p, JoinAll(PartyParts(parties))))
    {
      JoinNothing(p);
      for i := 0 to |parties|
        invariant "" !in parties[..i]
        invariant Built(Join(p, JoinAll(PartyParts(parties[..i]))))
      {
        var title := parties[i];
        if title == "" { return Some("signature_title_required"); }
        TakeParty(title, Join(p, JoinAll(PartyParts(parties[..i]))));
        assert parties[..i + 1] == parties[..i] + [title];
        PartiesSnoc(parties[..i], title);
        JoinAssociates(p, JoinAll(PartyParts(parties[..i])), PartyPart(title));
      }
      assert parties[..|parties|] == parties;
      return None;
    }

    method TakeParty(title: string, ghost p: Part)
      requires Built(p)
      modifies this
      ensures Built(Join(p, PartyPart(title)))
    {
      var name := EmitLabel(title, p);
      PartyText(title, |p.labels|);
      Write("  [#" + name + " #sigrule],\n", Shift(PartyPart(title).body, |p.labels|), WithLabel(p, title));
      JoinLabel(p, title, PartyPart(title).body);
    }

    method TakePagebreak(ghost p: Part)
      requires Built(p)
      modifies this
      ensures Built(Join(p, PagebreakPart()))
    {
      Text1(Use("pagebreak", "()\n"));
      Write("#pagebreak()\n", [Use("pagebreak", "()\n")], p);
      JoinPagebreak(p);
    }

    method TakeNext(b: Block, ghost done: seq<Block>) returns (fault: Option<string>)
      requires Built(PartOf(done)) && FirstFault(done).None?
      modifies this
      ensures fault.None? ==> Built(PartOf(done + [b])) && FirstFault(done + [b]).None?
      ensures fault.Some? ==> FirstFault(done + [b]) == Some(Error(|done|, fault.value))
    {
      BlocksSnoc(done, b);
      FaultSnoc(done, b);
      fault := TakeBlock(b, PartOf(done));
    }

    method TakeBlock(b: Block, ghost p: Part) returns (fault: Option<string>)
      requires Built(p)
      modifies this
      ensures fault == BlockFault(b)
      ensures fault.None? ==> Built(Join(p, BlockPart(b)))
    {
      match b {
        case Header(title) => fault := TakeHeader(title, p);
        case Paragraph(text) => fault := TakeParagraph(text, p);
        case Fields(rows) => fault := TakeFields(rows, p);
        case Table(field, columns) => fault := TakeTable(field, columns, p);
        case Totals(field, caption, wordsLabel, labelKk) => fault := TakeTotals(field, caption, wordsLabel, labelKk, p);
        case Signatures(parties) => fault := TakeSignatures(parties, p);
        case Pagebreak => TakePagebreak(p); fault := None;
        case OfUnknownType(_) => fault := Some("unknown_block_type");
        case Untyped => fault := Some("block_type_missing");
      }
    }
  }

  /** The compiled template the caller hands in to be filled. */
  class Compiled {
    var source: string
    var required: seq<string>
    var properties: map<string, Property>
    var form: seq<FormField>
    var expected: string

    constructor ()
    {
      source, required, properties, form, expected := "", [], map[], [], "";
    }

    ghost predicate Holds(head: seq<Piece>, p: Part)
      reads this
    {
      source == Text(SourcePieces(head, p)) && required == p.required && properties == p.properties && form == p.form &&
      expected == Written(p.labels)
    }
  }

  method ExpectedText(labels: seq<string>) returns (expected: string)
    ensures expected == Written(labels)
  {
    expected := "";
    for i := 0 to |labels|
      invariant expected == OnLines(labels[..i])
    {
      assert labels[..i + 1][..i] == labels[..i];
      expected := expected + labels[i] + "\n";
    }
    assert labels[..|labels|] == labels;
    expected := expected + "margin 18mm\n";
  }

  lemma BlocksSnoc(blocks: seq<Block>, b: Block)
    ensures PartOf(blocks + [b]) == Join(PartOf(blocks), BlockPart(b))
  {
    assert BlockParts(blocks + [b]) == BlockParts(blocks) + [BlockPart(b)];
    JoinAllSnoc(BlockParts(blocks), BlockPart(b));
  }

  lemma FaultSnoc(blocks: seq<Block>, b: Block)
    ensures FirstFault(blocks + [b]) ==
      if FirstFault(blocks).Some? then FirstFault(blocks)
      else match BlockFault(b) case Some(code) => Some(Error(|blocks|, code)) case None => None
  {
    assert (blocks + [b])[..|blocks|] == blocks;
  }

  /** Once a block is faulty, later blocks do not matter. */
  lemma {:induction false} FaultGoesOn(blocks: seq<Block>, more: seq<Block>)
    requires FirstFault(blocks).Some?
    ensures FirstFault(blocks + more) == FirstFault(blocks)
  {
    if more == [] {
      assert blocks + more == blocks;
    } else {
      assert (blocks + more)[..|blocks + more| - 1] == blocks + more[..|more| - 1];
      FaultGoesOn(blocks, more[..|more| - 1]);
    }
  }

  lemma SourceText(head: seq<Piece>, p: Part)
    ensures Text(SourcePieces(head, p)) == Text(head) + Text(p.preamble) + "\n" + Text(p.body)
  {
    var front := head + p.preamble;
    TextAppend(head, p.preamble);
    TextAppend(front, [Raw("\n")]);
    Text1(Raw("\n"));
    TextAppend(front + [Raw("\n")], p.body);
  }

  /** Blocks into a template, or the first thing wrong; out is written only on success. */
  method Compile(blocks: Option<seq<Block>>, out: Compiled) returns (error: Option<Error>)
    modifies out
    ensures error == Verdict(blocks)
    ensures error.Some? ==> unchanged(out)
    ensures error.None? ==> out.Holds(Prologue(), PartOf(blocks.value))
  {
    if blocks.None? { return Some(Error(0, "blocks_not_array")); }
    var bs := blocks.value;
    if bs == [] { return Some(Error(0, "blocks_empty")); }
    if |bs| > 200 { return Some(Error(0, "too_many_blocks")); }
    var builder := new Builder();
    error := CompileBlocks(bs, builder);
    if error.Some? { return; }
    if builder.labels == [] { return Some(Error(0, "no_static_labels")); }
    Finish(builder, Prologue(), PartOf(bs), out);
  }

  method Finish(builder: Builder, head: seq<Piece>, ghost p: Part, out: Compiled)
    requires builder.Built(p)
    modifies out
    ensures out.Holds(head, p)
  {
    var expected := ExpectedText(builder.labels);
    SourceText(head, p);
    out.source := Text(head) + builder.preamble + "\n" + builder.body;
    out.required, out.properties, out.form := builder.required, builder.properties, builder.form;
    out.expected := expected;
  }

  method CompileBlocks(bs: seq<Block>, builder: Builder) returns (error: Option<Error>)
    requires builder.Built(Nothing)
    modifies builder
    ensures error == FirstFault(bs)
    ensures error.None? ==> builder.Built(PartOf(bs))
  {
    for i := 0 to |bs|
      invariant FirstFault(bs[..i]).None?
      invariant builder.Built(PartOf(bs[..i]))
    {
      assert bs[..i + 1] == bs[..i] + [bs[i]];
      var fault := builder.TakeNext(bs[i], bs[..i]);
      if fault.Some? {
        FaultGoesOn(bs[..i + 1], bs[i + 1..]);
        assert bs == bs[..i + 1] + bs[i + 1..];
        return Some(Error(i, fault.value));
      }
    }
    assert bs[..|bs|] == bs;
    return None;
  }
}
