/**
 What a compiled template takes from its input: the fields its text reads, those its schema
 requires, and the columns of its tables, all read off the blocks.
 */
module TemplateInputs {
  import opened BlockCompiler
  import opened CompiledTemplates
  import opened TemplateParts
  import opened Typst
  import opened Wrappers

  // ---------------------------------------------------------------------------
  // What a template reads, and in which order
  // ---------------------------------------------------------------------------

  /** What the rows ask to have printed: a variable by its identifier, an input field by its name. */
  function RowNames(rows: seq<Row>): seq<string> {
    seq(|rows|, i requires 0 <= i < |rows| =>
      match rows[i].value
      case Variable(id) => id
      case Field(name, _, _) => name)
  }

  /** The input a block prints, in the order it prints it. */
  function BlockReads(b: Block): seq<string> {
    match b
    case Fields(rows) => RowNames(rows)
    case Table(field, _) => [if field.Some? then field.value else "items"]
    case Totals(_, _, _, _) => ["total", "total_words"]
    case _ => []
  }

  function AllBlockReads(blocks: seq<Block>): seq<string> {
    if blocks == [] then [] else AllBlockReads(blocks[..|blocks| - 1]) + BlockReads(blocks[|blocks| - 1])
  }

  lemma JoinReads(p: Part, q: Part)
    ensures AllReads(Join(p, q).body) == AllReads(p.body) + AllReads(q.body)
  {
    ReadsAppend(p.body, Shift(q.body, |p.labels|));
    ReadsShift(q.body, |p.labels|);
  }

  lemma RowReadsItsValue(row: Row)
    requires RowFault(row).None?
    ensures AllReads(RowPart(row).body) == ValueReads(row.value)
  {
    if row.value.Field? {
      FieldIsName(row.value.name);
    }
    CellNeat(row.value);
    RowFrontNeat();
    ReadsAppend(RowFront(), RowCell(row.value));
  }

  lemma {:induction false} RowsRead(rows: seq<Row>)
    requires RowsFault(rows).None?
    ensures AllReads(JoinAll(RowParts(rows)).body) == RowNames(rows)
    decreases |rows|
  {
    if rows != [] {
      var pre, last := rows[..|rows| - 1], rows[|rows| - 1];
      assert rows == pre + [last];
      RowsSnoc(pre, last);
      RowsRead(pre);
      RowsReadSnoc(pre, last);
    }
  }

  lemma RowsReadSnoc(rows: seq<Row>, row: Row)
    requires RowFault(row).None? && AllReads(JoinAll(RowParts(rows)).body) == RowNames(rows)
    ensures AllReads(JoinAll(RowParts(rows + [row])).body) == RowNames(rows + [row])
  {
    RowsSnoc(rows, row);
    RowReadsItsValue(row);
    JoinReads(JoinAll(RowParts(rows)), RowPart(row));
    assert RowNames(rows + [row]) == RowNames(rows) + ValueReads(row.value);
  }

  lemma FieldsRead(rows: seq<Row>)
    requires RowsFault(rows).None?
    ensures AllReads(FieldsPart(rows).body) == RowNames(rows)
  {
    RowsRead(rows);
    FieldsEnds();
    var p := JoinAll(RowParts(rows));
    ReadsAppend(FieldsStart() + p.body, FieldsEnd());
    ReadsAppend(FieldsStart(), p.body);
  }

  lemma TableReads(items: string, columns: seq<Column>)
    requires IsName(items)
    ensures AllReads(TablePart(items, columns).body) == [items]
  {
    TableEnds(items, columns);
    TableTailNeat(items, columns);
    HeaderCellsReadNothing(columns);
    var cells, tail := Columns(columns).body, TableTail(items, Keys(columns));
    ReadsAppend(TableStart(columns) + cells, tail);
    ReadsAppend(TableStart(columns), cells);
  }

  lemma BlockReadsAre(b: Block)
    requires BlockFault(b).None?
    ensures AllReads(BlockPart(b).body) == BlockReads(b)
  {
    match b
    case Fields(rows) => FieldsRead(rows);
    case Table(field, columns) =>
      FieldIsName(ItemsField(field));
      TableReads(ItemsField(field), columns);
    case Totals(_, _, _, _) => TotalsNeat();
    case _ => OtherBlocksReadNothing(b);
  }

  lemma OtherBlocksReadNothing(b: Block)
    requires BlockFault(b).None? && !b.Fields? && !b.Table? && !b.Totals?
    ensures AllReads(BlockPart(b).body) == []
  {
    if b.Signatures? {
      LabelsSayNothing(PartyParts(b.parties));
    }
    BlockGood(b);
    ClosedReadsNothing(BlockPart(b));
  }

  lemma {:induction false} BlocksRead(blocks: seq<Block>)
    requires forall j :: 0 <= j < |blocks| ==> BlockFault(blocks[j]).None?
    ensures AllReads(PartOf(blocks).body) == AllBlockReads(blocks)
    decreases |blocks|
  {
    if blocks != [] {
      var pre, last := blocks[..|blocks| - 1], blocks[|blocks| - 1];
      assert blocks == pre + [last];
      BlocksRead(pre);
      BlocksReadSnoc(pre, last);
    }
  }

  lemma BlocksReadSnoc(blocks: seq<Block>, b: Block)
    requires BlockFault(b).None? && AllReads(PartOf(blocks).body) == AllBlockReads(blocks)
    ensures AllReads(PartOf(blocks + [b]).body) == AllBlockReads(blocks + [b])
  {
    BlocksSnoc(blocks, b);
    BlockReadsAre(b);
    JoinReads(PartOf(blocks), BlockPart(b));
    assert (blocks + [b])[..|blocks|] == blocks;
  }

  /** The compiled source reads exactly what its blocks print, in the order of the blocks. */
  lemma SourceReadsItsBlocks(blocks: seq<Block>)
    requires FirstFault(blocks).None?
    ensures Reads(Lex(Plain, SourceOf(blocks)).tokens) == AllBlockReads(blocks)
  {
    var p := PartOf(blocks);
    PrologueHead();
    TemplateGood(blocks);
    FaultComesFirst(blocks);
    BlocksRead(blocks);
    SourceOk(Prologue(), p);
    SourceReadsBody(Prologue(), p);
    LexPieces(SourcePieces(Prologue(), p));
    ReadsOfPieces(SourcePieces(Prologue(), p));
  }

  function Concat(parts: seq<string>): string {
    if parts == [] then "" else Concat(parts[..|parts| - 1]) + parts[|parts| - 1]
  }

  /** The texts quoted in source pieces, the empty ones left out. */
  function QuotedTexts(ps: seq<Piece>): seq<string> {
    if ps == [] then []
    else
      var last := ps[|ps| - 1];
      QuotedTexts(ps[..|ps| - 1]) + if last.Str? && last.value != "" then [last.value] else []
  }

  lemma {:induction false} QuotedAppend(a: seq<Piece>, b: seq<Piece>)
    ensures QuotedTexts(a + b) == QuotedTexts(a) + QuotedTexts(b)
    decreases |b|
  {
    if b == [] {
      assert a + b == a;
    } else {
      var n := |b| - 1;
      assert (a + b)[..|a + b| - 1] == a + b[..n];
      QuotedAppend(a, b[..n]);
    }
  }

  lemma KeyCellQuotes(key: string)
    ensures QuotedTexts(KeyCell(key)) == if key == "" then [] else [key]
  {
    var cell := KeyCell(key);
    assert cell == cell[..2] + [cell[2]] + cell[3..];
    QuotedAppend(cell[..2] + [cell[2]], cell[3..]);
    QuotedAppend(cell[..2], [cell[2]]);
    NothingQuoted(cell[..2]);
    NothingQuoted(cell[3..]);
    assert [cell[2]][..0] == [];
  }

  lemma {:induction false} NothingQuoted(ps: seq<Piece>)
    requires forall i :: 0 <= i < |ps| && ps[i].Str? ==> ps[i].value == ""
    ensures QuotedTexts(ps) == []
  {
    if ps != [] {
      NothingQuoted(ps[..|ps| - 1]);
    }
  }

  lemma {:induction false} KeyCellsQuote(keys: seq<string>)
    requires "" !in keys
    ensures QuotedTexts(KeyCells(keys)) == keys
    decreases |keys|
  {
    if keys != [] {
      var pre, last := keys[..|keys| - 1], keys[|keys| - 1];
      assert keys == pre + [last];
      KeyCellsQuote(pre);
      KeyCellsQuoteSnoc(pre, last);
    }
  }

  lemma KeyCellsQuoteSnoc(keys: seq<string>, key: string)
    requires key != ""
    ensures QuotedTexts(KeyCells(keys + [key])) == QuotedTexts(KeyCells(keys)) + [key]
  {
    KeysSnoc(keys, key);
    QuotedAppend(KeyCells(keys), Comma(|keys|) + KeyCell(key));
    QuotedAppend(Comma(|keys|), KeyCell(key));
    NothingQuoted(Comma(|keys|));
    KeyCellQuotes(key);
  }

  /** How wide a column is: those of names and descriptions share the room there is. */
  function WidthOf(c: Column): string { if c.key in {"name", "description"} then "1fr, " else "auto, " }

  /**
   A table's columns, title by title: the widths are those of the columns, and the cells of an
   item read the columns' keys, both in the order of the titles.
   */
  lemma {:induction false} TableFollowsItsColumns(columns: seq<Column>)
    requires forall i :: 0 <= i < |columns| ==> columns[i].key != ""
    ensures Widths(columns) == Concat(seq(|columns|, i requires 0 <= i < |columns| => WidthOf(columns[i])))
    ensures QuotedTexts(KeyCells(Keys(columns))) == seq(|columns|, i requires 0 <= i < |columns| => columns[i].key)
    ensures Columns(columns).labels == seq(|columns|, i requires 0 <= i < |columns| => columns[i].title)
  {
    KeyCellsQuote(Keys(columns));
    ColumnLabels(columns);
    WidthsConcat(columns);
  }

  lemma {:induction false} WidthsConcat(columns: seq<Column>)
    ensures Widths(columns) == Concat(seq(|columns|, i requires 0 <= i < |columns| => WidthOf(columns[i])))
    decreases |columns|
  {
    if columns != [] {
      var pre, last := columns[..|columns| - 1], columns[|columns| - 1];
      WidthsConcat(pre);
      var all := seq(|columns|, i requires 0 <= i < |columns| => WidthOf(columns[i]));
      assert all[..|pre|] == seq(|pre|, i requires 0 <= i < |pre| => WidthOf(pre[i]));
    }
  }

  // ---------------------------------------------------------------------------
  // What a template requires
  // ---------------------------------------------------------------------------

  /** The block makes the input field mandatory. */
  predicate Demands(b: Block, name: string) {
    match b
    case Fields(rows) =>
      exists i :: 0 <= i < |rows| && rows[i].value.Field? && rows[i].value.name == name &&
                  rows[i].value.isRequired != Some(false)
    case Table(field, _) => name == if field.Some? then field.value else "items"
    case Totals(field, _, _, _) =>
      name in {"total", "total_words", if field.Some? then field.value else "total_tiyn"}
    case _ => false
  }

  lemma {:induction false} RowsDemand(rows: seq<Row>, name: string)
    ensures name in JoinAll(RowParts(rows)).required <==> Demands(Fields(rows), name)
    decreases |rows|
  {
    if rows != [] {
      var pre, last := rows[..|rows| - 1], rows[|rows| - 1];
      assert rows == pre + [last];
      RowsDemand(pre, name);
      RowsSnoc(pre, last);
    }
  }

  lemma {:induction false} LabelsDemandNothing(parts: seq<Part>)
    requires forall i :: 0 <= i < |parts| ==> parts[i].required == []
    ensures JoinAll(parts).required == []
  {
    if parts != [] {
      LabelsDemandNothing(parts[..|parts| - 1]);
    }
  }

  lemma BlockDemands(b: Block, name: string)
    ensures name in BlockPart(b).required <==> Demands(b, name)
  {
    match b
    case Fields(rows) => RowsDemand(rows, name);
    case Signatures(parties) => LabelsDemandNothing(PartyParts(parties));
    case _ =>
  }

  /** The schema requires exactly the fields some block makes mandatory: by default all but variables. */
  lemma {:induction false} RequiredIff(blocks: seq<Block>, name: string)
    ensures name in PartOf(blocks).required <==> exists j :: 0 <= j < |blocks| && Demands(blocks[j], name)
    decreases |blocks|
  {
    if blocks != [] {
      var pre, last := blocks[..|blocks| - 1], blocks[|blocks| - 1];
      assert blocks == pre + [last];
      RequiredIff(pre, name);
      BlocksSnoc(pre, last);
      BlockDemands(last, name);
      assert forall j :: 0 <= j < |pre| ==> blocks[j] == pre[j];
    }
  }

  // ---------------------------------------------------------------------------
  // What the form asks for
  // ---------------------------------------------------------------------------

  /** An input field is asked for under its caption, in Kazakh under its own label if it has one. */
  function RowForm(row: Row): seq<FormField> {
    match row.value
    case Variable(_) => []
    case Field(name, labelKk, _) =>
      [FormField(name, row.caption, if labelKk.Some? then labelKk.value else row.caption, TextBox)]
  }

  function RowsForm(rows: seq<Row>): seq<FormField> {
    if rows == [] then [] else RowsForm(rows[..|rows| - 1]) + RowForm(rows[|rows| - 1])
  }

  lemma RowAsksFor(row: Row)
    ensures RowPart(row).form == RowForm(row)
  {
  }

  function BlockForm(b: Block): seq<FormField> {
    match b
    case Fields(rows) => RowsForm(rows)
    case Table(field, columns) =>
      [FormField(if field.Some? then field.value else "items", "Позиции", "Жолдар", TableBox(columns))]
    case Totals(field, caption, _, labelKk) =>
      var ru := if caption.Some? then caption.value else "Итого к оплате";
      [FormField(if field.Some? then field.value else "total_tiyn", ru, if labelKk.Some? then labelKk.value else ru,
                 MoneyBox)]
    case _ => []
  }

  function AllBlockForms(blocks: seq<Block>): seq<FormField> {
    if blocks == [] then [] else AllBlockForms(blocks[..|blocks| - 1]) + BlockForm(blocks[|blocks| - 1])
  }

  lemma {:induction false} RowsAskFor(rows: seq<Row>)
    ensures JoinAll(RowParts(rows)).form == RowsForm(rows)
    decreases |rows|
  {
    if rows != [] {
      var pre, last := rows[..|rows| - 1], rows[|rows| - 1];
      assert rows == pre + [last];
      RowsAskFor(pre);
      RowsAskForSnoc(pre, last);
    }
  }

  lemma RowsAskForSnoc(rows: seq<Row>, row: Row)
    requires JoinAll(RowParts(rows)).form == RowsForm(rows)
    ensures JoinAll(RowParts(rows + [row])).form == RowsForm(rows + [row])
  {
    RowsSnoc(rows, row);
    RowAsksFor(row);
    assert (rows + [row])[..|rows|] == rows;
  }

  lemma BlockAsksFor(b: Block)
    ensures BlockPart(b).form == BlockForm(b)
  {
    match b
    case Fields(rows) => RowsAskFor(rows);
    case Signatures(parties) => LabelsSayNothing(PartyParts(parties));
    case _ =>
  }

  /** The form is that of the blocks, field by field in their order. */
  lemma {:induction false} FormIsTheBlocks(blocks: seq<Block>)
    ensures PartOf(blocks).form == AllBlockForms(blocks)
    decreases |blocks|
  {
    if blocks != [] {
      var pre, last := blocks[..|blocks| - 1], blocks[|blocks| - 1];
      assert blocks == pre + [last];
      FormIsTheBlocks(pre);
      FormSnoc(pre, last);
    }
  }

  lemma FormSnoc(blocks: seq<Block>, b: Block)
    requires PartOf(blocks).form == AllBlockForms(blocks)
    ensures PartOf(blocks + [b]).form == AllBlockForms(blocks + [b])
  {
    BlocksSnoc(blocks, b);
    BlockAsksFor(b);
    assert (blocks + [b])[..|blocks|] == blocks;
  }
}
