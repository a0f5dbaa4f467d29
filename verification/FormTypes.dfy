/**
 The form of a compiled template asks for input by widgets, and its schema says of what type
 each input is.  Later blocks overwrite what the schema said of a name, but not what the form
 asks; this module says exactly when the two agree.
 */
module FormTypes {
  import opened BlockCompiler
  import opened TemplateParts
  import opened Wrappers

  /** The type of the input a widget collects. */
  function Collects(w: Widget): Property {
    match w
    case TextBox => StringValue
    case MoneyBox => MoneyValue
    case TableBox(columns) => Rows(set k | k in Keys(columns))
  }

  /** Every form field is of the type the schema gives its name. */
  predicate WellTyped(p: Part) {
    forall f :: f in p.form ==> f.field in p.properties && p.properties[f.field] == Collects(f.widget)
  }

  /** Form fields of one name ask for one type. */
  predicate Agree(form: seq<FormField>) {
    forall f, g :: f in form && g in form && f.field == g.field ==> Collects(f.widget) == Collects(g.widget)
  }

  predicate RowAsks(row: Row, name: string) { row.value.Field? && row.value.name == name }

  /** The block puts a field of that name into the form. */
  predicate Asks(b: Block, name: string) {
    match b
    case Fields(rows) => exists i :: 0 <= i < |rows| && RowAsks(rows[i], name)
    case Table(field, _) => name == if field.Some? then field.value else "items"
    case Totals(field, _, _, _) => name == if field.Some? then field.value else "total_tiyn"
    case _ => false
  }

  /** A totals block also describes the two strings it prints, which the form does not ask for. */
  predicate Prints(b: Block, name: string) {
    b.Totals? && (name == "total" || name == "total_words")
  }

  /** A totals block describes the name as a string it prints, and no later block asks for it. */
  predicate TakenByTotals(blocks: seq<Block>, name: string) {
    exists j :: 0 <= j < |blocks| && Prints(blocks[j], name) && forall k :: j < k < |blocks| ==> !Asks(blocks[k], name)
  }

  // ---------------------------------------------------------------------------
  // One block
  // ---------------------------------------------------------------------------

  predicate InForm(p: Part, name: string) { exists f :: f in p.form && f.field == name }

  lemma VariablesAreNoFields(id: string)
    requires Known(id)
    ensures !ValidField(id)
  {
    assert (|id| > 3 && id[3] == '.') || (|id| > 8 && id[8] == '.') || (|id| > 12 && id[12] == '.');
  }

  /**
   What a part says of a name: the form has it exactly if it is asked for, the schema if it is
   asked for or printed; printed, it is a string, else it is of the type of some form field.
   */
  ghost predicate Says(p: Part, name: string, asked: bool, printed: bool) {
    && (InForm(p, name) <==> asked)
    && (name in p.properties <==> asked || printed)
    && (printed ==> p.properties[name] == StringValue)
    && (asked && !printed ==> exists f :: f in p.form && f.field == name && Collects(f.widget) == p.properties[name])
  }

  lemma RowSays(row: Row, name: string)
    requires RowFault(row).None? && ValidField(name)
    ensures var p := RowPart(row);
            Says(p, name, RowAsks(row, name), false)
  {
    match row.value
    case Variable(id) => VariablesAreNoFields(id);
    case Field(_, _, _) => assert RowPart(row).form[0] in RowPart(row).form;
  }

  /** Of two parts joined, the second overwrites what the first says. */
  lemma JoinSays(p: Part, q: Part, name: string, asked: bool, printed: bool, asked': bool, printed': bool)
    requires Says(p, name, asked, printed) && Says(q, name, asked', printed')
    ensures Says(Join(p, q), name, asked || asked', printed' || (printed && !asked'))
  {
    var r := Join(p, q);
    forall f ensures f in r.form <==> f in p.form || f in q.form {
    }
    if asked' && !printed' {
      var f :| f in q.form && f.field == name && Collects(f.widget) == q.properties[name];
      assert f in r.form;
    } else if asked && !printed && !printed' {
      var f :| f in p.form && f.field == name && Collects(f.widget) == p.properties[name];
      assert f in r.form;
    }
  }

  lemma {:induction false} RowsSay(rows: seq<Row>, name: string)
    requires RowsFault(rows).None? && ValidField(name)
    ensures Says(JoinAll(RowParts(rows)), name, Asks(Fields(rows), name), false)
    decreases |rows|
  {
    if rows != [] {
      var n := |rows| - 1;
      RowsSay(rows[..n], name);
      RowsSaySnoc(rows[..n], rows[n], name);
      assert rows == rows[..n] + [rows[n]];
    }
  }

  lemma RowsSaySnoc(rows: seq<Row>, row: Row, name: string)
    requires Says(JoinAll(RowParts(rows)), name, Asks(Fields(rows), name), false)
    requires RowFault(row).None? && ValidField(name)
    ensures Says(JoinAll(RowParts(rows + [row])), name, Asks(Fields(rows + [row]), name), false)
  {
    RowSays(row, name);
    RowsSnoc(rows, row);
    RowAskSnoc(rows, row, name);
    JoinSays(JoinAll(RowParts(rows)), RowPart(row), name, Asks(Fields(rows), name), false, RowAsks(row, name), false);
  }

  lemma RowAskSnoc(rows: seq<Row>, row: Row, name: string)
    ensures Asks(Fields(rows + [row]), name) <==> Asks(Fields(rows), name) || RowAsks(row, name)
  {
    var all := rows + [row];
    assert all[|rows|] == row;
    if Asks(Fields(rows), name) {
      var i :| 0 <= i < |rows| && RowAsks(rows[i], name);
      assert all[i] == rows[i];
    }
  }

  lemma TableSays(field: Option<string>, columns: seq<Column>, name: string)
    ensures Says(TablePart(ItemsField(field), columns), name, ItemsField(field) == name, false)
  {
    var p := TablePart(ItemsField(field), columns);
    assert p.form[0] in p.form;
  }

  lemma TotalsSay(b: Block, name: string)
    requires b.Totals?
    ensures Says(BlockPart(b), name, Asks(b, name), Prints(b, name))
  {
    assert BlockPart(b).form[0] in BlockPart(b).form;
  }

  lemma BlockSays(b: Block, name: string)
    requires BlockFault(b).None? && ValidField(name)
    ensures Says(BlockPart(b), name, Asks(b, name), Prints(b, name))
  {
    match b
    case Fields(rows) => RowsSay(rows, name);
    case Table(field, columns) => TableSays(field, columns, name);
    case Totals(_, _, _, _) => TotalsSay(b, name);
    case Signatures(parties) => LabelsSayNothing(PartyParts(parties));
    case _ =>
  }

  // ---------------------------------------------------------------------------
  // All blocks
  // ---------------------------------------------------------------------------

  lemma TakenSnoc(blocks: seq<Block>, b: Block, name: string)
    ensures TakenByTotals(blocks + [b], name) <==>
            Prints(b, name) || (TakenByTotals(blocks, name) && !Asks(b, name))
  {
    var all := blocks + [b];
    if Prints(b, name) {
      assert Prints(all[|blocks|], name);
    }
    if TakenByTotals(blocks, name) && !Asks(b, name) {
      var j :| 0 <= j < |blocks| && Prints(blocks[j], name) && forall k :: j < k < |blocks| ==> !Asks(blocks[k], name);
      assert Prints(all[j], name);
    }
    if TakenByTotals(all, name) && !Prints(b, name) {
      var j :| 0 <= j < |all| && Prints(all[j], name) && forall k :: j < k < |all| ==> !Asks(all[k], name);
      assert Prints(blocks[j], name) && !Asks(all[|blocks|], name);
      forall k | j < k < |blocks| ensures !Asks(blocks[k], name) {
        assert !Asks(all[k], name);
      }
    }
  }

  predicate SomeAsks(blocks: seq<Block>, name: string) { exists i :: 0 <= i < |blocks| && Asks(blocks[i], name) }

  lemma AskSnoc(blocks: seq<Block>, b: Block, name: string)
    ensures SomeAsks(blocks + [b], name) <==> SomeAsks(blocks, name) || Asks(b, name)
  {
    var all := blocks + [b];
    assert all[|blocks|] == b;
    if SomeAsks(blocks, name) {
      var i :| 0 <= i < |blocks| && Asks(blocks[i], name);
      assert all[i] == blocks[i];
    }
  }

  predicate Faultless(blocks: seq<Block>) { forall j :: 0 <= j < |blocks| ==> BlockFault(blocks[j]).None? }

  ghost predicate TemplateSays(blocks: seq<Block>, name: string) {
    Says(PartOf(blocks), name, SomeAsks(blocks, name), TakenByTotals(blocks, name))
  }

  lemma {:induction false} BlocksSay(blocks: seq<Block>, name: string)
    requires Faultless(blocks) && ValidField(name)
    ensures TemplateSays(blocks, name)
    decreases |blocks|
  {
    if blocks == [] {
      NoBlocksSayNothing(name);
    } else {
      var pre, last := blocks[..|blocks| - 1], blocks[|blocks| - 1];
      assert blocks == pre + [last];
      BlocksSay(pre, name);
      BlocksSaySnoc(pre, last, name);
    }
  }

  lemma NoBlocksSayNothing(name: string)
    ensures TemplateSays([], name)
  {
  }

  lemma BlocksSaySnoc(blocks: seq<Block>, b: Block, name: string)
    requires TemplateSays(blocks, name) && BlockFault(b).None? && ValidField(name)
    ensures TemplateSays(blocks + [b], name)
  {
    BlockSays(b, name);
    BlocksSnoc(blocks, b);
    AskSnoc(blocks, b, name);
    TakenSnoc(blocks, b, name);
    JoinSays(PartOf(blocks), BlockPart(b), name, SomeAsks(blocks, name), TakenByTotals(blocks, name),
             Asks(b, name), Prints(b, name));
  }

  /** Only valid names get into the form. */
  lemma {:induction false} FormNames(blocks: seq<Block>)
    requires Faultless(blocks)
    ensures forall f :: f in PartOf(blocks).form ==> ValidField(f.field)
    decreases |blocks|
  {
    if blocks != [] {
      var pre, last := blocks[..|blocks| - 1], blocks[|blocks| - 1];
      assert blocks == pre + [last];
      FormNames(pre);
      BlockFormNames(last);
      BlocksSnoc(pre, last);
    }
  }

  lemma BlockFormNames(b: Block)
    requires BlockFault(b).None?
    ensures forall f :: f in BlockPart(b).form ==> ValidField(f.field)
  {
    match b
    case Fields(rows) => RowFormNames(rows);
    case Table(field, columns) => assert TablePart(ItemsField(field), columns).form[0].field == ItemsField(field);
    case Totals(_, _, _, _) => TotalsFormNames(b);
    case Signatures(parties) => LabelsSayNothing(PartyParts(parties));
    case _ =>
  }

  lemma TotalsFormNames(b: Block)
    requires b.Totals? && BlockFault(b).None?
    ensures forall f :: f in BlockPart(b).form ==> ValidField(f.field)
  {
  }

  lemma {:induction false} RowFormNames(rows: seq<Row>)
    requires RowsFault(rows).None?
    ensures forall f :: f in JoinAll(RowParts(rows)).form ==> ValidField(f.field)
    decreases |rows|
  {
    if rows != [] {
      var n := |rows| - 1;
      RowFormNames(rows[..n]);
      assert rows == rows[..n] + [rows[n]];
      RowsSnoc(rows[..n], rows[n]);
    }
  }

  // ---------------------------------------------------------------------------
  // Theorems
  // ---------------------------------------------------------------------------

  /**
   Every widget of the form collects what the schema asks for if and only if form fields of one
   name ask for one type, and a name a totals block takes for a string it prints is asked for as
   text, unless a later block asks for it again.
   */
  lemma FormMatchesSchemaIff(blocks: seq<Block>)
    requires FirstFault(blocks).None?
    ensures WellTyped(PartOf(blocks)) <==>
              && Agree(PartOf(blocks).form)
              && forall f :: f in PartOf(blocks).form && TakenByTotals(blocks, f.field) ==> f.widget.TextBox?
  {
    var p := PartOf(blocks);
    FaultComesFirst(blocks);
    FormNames(blocks);
    forall f | f in p.form
      ensures InForm(p, f.field) && Says(p, f.field, true, TakenByTotals(blocks, f.field))
    {
      BlocksSay(blocks, f.field);
    }
  }

  lemma JoinToNothing(q: Part)
    ensures var p := Join(Nothing, q);
            p.labels == q.labels && p.properties == q.properties && p.form == q.form
  {
    assert Nothing.properties + q.properties == q.properties;
    assert [] + q.labels == q.labels && [] + q.form == q.form;
  }

  lemma OneBlock(b: Block)
    ensures var p, q := PartOf([b]), BlockPart(b);
            p.labels == q.labels && p.properties == q.properties && p.form == q.form
  {
    BlocksSnoc([], b);
    assert [] + [b] == [b];
    assert PartOf([]) == Nothing;
    JoinToNothing(BlockPart(b));
  }

  lemma OneBlockFault(b: Block)
    requires BlockFault(b).None?
    ensures FirstFault([b]).None?
  {
    FaultSnoc([], b);
    assert [] + [b] == [b];
  }

  /** A totals block whose amount is named after the string it prints compiles, and asks for money as text. */
  lemma TotalsNamedTotal()
    ensures var blocks := [Totals(Some("total"), None, None, None)];
            Verdict(Some(blocks)).None? && !WellTyped(PartOf(blocks)) &&
            exists f :: f in PartOf(blocks).form && f.field == "total" && f.widget.MoneyBox? &&
              "total" in PartOf(blocks).properties && PartOf(blocks).properties["total"] == StringValue
  {
    var b := Totals(Some("total"), None, None, None);
    assert ValidField("total");
    OneBlock(b);
    OneBlockFault(b);
    var f := BlockPart(b).form[0];
    assert f in PartOf([b]).form && f.widget.MoneyBox?;
  }
}
