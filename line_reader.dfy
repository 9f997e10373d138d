/**
 * Feeding a file to an importer: every line in file order, then close, as
 * the line reader and the import driver do. The lines are given as a
 * sequence; opening and reading the file is not modelled.
 */
module LineReading {
  import opened Wrappers
  import opened Csv
  import opened BarStore
  import opened StockBars

  /** Importing one more line after a stream is one more step. */
  lemma {:induction false} ImportOneMore(stock: string, state: ImportState, lines: seq<Option<string>>, line: Option<string>)
    ensures ImportAll(stock, state, lines + [line]) == Step(stock, ImportAll(stock, state, lines), line)
    decreases |lines|
  {
    if lines == [] {
      assert [line][1..] == [];
    } else {
      assert (lines + [line])[1..] == lines[1..] + [line];
      ImportOneMore(stock, Step(stock, state, lines[0]), lines[1..], line);
    }
  }

  lemma {:induction false} LiftOneMore(texts: seq<string>, text: string)
    ensures Lift(texts + [text]) == Lift(texts) + [Some(text)]
    decreases |texts|
  {
    if texts != [] {
      assert (texts + [text])[1..] == texts[1..] + [text];
      LiftOneMore(texts[1..], text);
    }
  }

  lemma {:induction false} PresentOfLift(texts: seq<string>)
    ensures Present(Lift(texts)) == texts
    decreases |texts|
  {
    if texts != [] {
      assert Lift(texts)[1..] == Lift(texts[1..]);
      PresentOfLift(texts[1..]);
    }
  }

  /**
   * Hands every line to the importer in order, then closes the importer,
   * which writes its batch to the table.
   */
  method ImportLines(lines: seq<string>, importer: LineImporter)
    requires importer.table.Valid()
    modifies importer, importer.table
    ensures importer.State() == ImportAll(importer.currentStock, old(importer.State()), Lift(lines))
    ensures importer.table.Valid()
    ensures importer.table.Contents() == old(importer.table.Contents()) + Overrides(importer.currentImport)
  {
    var i := 0;
    while i < |lines|
      invariant 0 <= i <= |lines|
      invariant importer.State() == ImportAll(importer.currentStock, old(importer.State()), Lift(lines[..i]))
      invariant importer.table.rows == old(importer.table.rows)
    {
      importer.ProcessData(Some(lines[i]));
      LiftOneMore(lines[..i], lines[i]);
      assert lines[..i + 1] == lines[..i] + [lines[i]];
      ImportOneMore(importer.currentStock, old(importer.State()), Lift(lines[..i]), Some(lines[i]));
      i := i + 1;
    }
    assert lines[..i] == lines;
    importer.Close();
  }

  const HEADER: string := "Date,Open,High,Low,Close,Volume"
  // The data lines 2015-08-27,10.0,11.0,9.5,10.5,1000 and 2015-08-28,10.5,11.2,10.0,10.8,1200.
  const FIELDS_0827: seq<string> := ["2015-08-27", "10.0", "11.0", "9.5", "10.5", "1000"]
  const FIELDS_0828: seq<string> := ["2015-08-28", "10.5", "11.2", "10.0", "10.8", "1200"]
  const BAR_0827: string := Join(FIELDS_0827)
  const BAR_0828: string := Join(FIELDS_0828)

  /** Each BMY bar line yields the put of its own six fields. */
  lemma BmyLinePuts()
    ensures LinePuts("BMY", BAR_0827) == [ToPut("BMY", FIELDS_0827)]
    ensures LinePuts("BMY", BAR_0828) == [ToPut("BMY", FIELDS_0828)]
  {
    SplitOfJoin(FIELDS_0827);
    SplitOfJoin(FIELDS_0828);
  }

  /** The puts of the two BMY bars. */
  lemma BmyPuts()
    ensures WellFormedPuts("BMY", [BAR_0827, BAR_0828]) == [ToPut("BMY", FIELDS_0827), ToPut("BMY", FIELDS_0828)]
  {
    BmyLinePuts();
    assert [BAR_0827, BAR_0828][1..] == [BAR_0828];
    assert [BAR_0828][1..] == [];
    assert WellFormedPuts("BMY", [BAR_0828]) == LinePuts("BMY", BAR_0828) + WellFormedPuts("BMY", []);
  }

  /** Importing the header and the two BMY bars batches exactly their two puts. */
  lemma BmyImport()
    ensures ImportAll("BMY", ImportState(true, []), Lift([HEADER, BAR_0827, BAR_0828]))
         == ImportState(false, [ToPut("BMY", FIELDS_0827), ToPut("BMY", FIELDS_0828)])
  {
    var texts := [HEADER, BAR_0827, BAR_0828];
    PresentOfLift(texts);
    HeaderNeverImported("BMY", Lift(texts));
    assert texts[1..] == [BAR_0827, BAR_0828];
    BmyPuts();
  }

  /**
   * A header and two bars imported for BMY: the bar of 2015-08-28 reads back
   * with its five fields, and a date never imported is absent.
   */
  lemma BmyScenario()
    ensures var state := ImportAll("BMY", ImportState(true, []), Lift([HEADER, BAR_0827, BAR_0828]));
      var contents := AsMap(PutAll([], state.batch));
      var key := MakeKey("2015-08-28", "BMY");
      && key in contents
      && RowValues(key, contents[key]) == [key, "10.5", "11.2", "10.0", "10.8", "1200"]
      && MakeKey("2015-08-26", "BMY") !in contents
  {
    BmyImport();
    var batch := [ToPut("BMY", FIELDS_0827), ToPut("BMY", FIELDS_0828)];
    assert batch[..1] == [batch[0]];
    assert Overrides(batch[..1]) == map[batch[0].key := batch[0].bar];
    assert Overrides(batch) == map[batch[0].key := batch[0].bar, batch[1].key := batch[1].bar];
    assert "2015-08-26"[9] == '6';
    if MakeKey("2015-08-26", "BMY") == MakeKey("2015-08-27", "BMY") {
      KeyDeterminesSymbolAndDate("2015-08-26", "BMY", "2015-08-27", "BMY");
    }
    if MakeKey("2015-08-26", "BMY") == MakeKey("2015-08-28", "BMY") {
      KeyDeterminesSymbolAndDate("2015-08-26", "BMY", "2015-08-28", "BMY");
    }
  }

  /**
   * The import driver's sequence: import a file for BMY into an empty table,
   * then read back the row and the close of 2015-08-28 and look up a date
   * never imported.
   */
  method ImportAndQuery() returns (row: seq<string>, missing: bool, close: CellResult)
    ensures row == [MakeKey("2015-08-28", "BMY"), "10.5", "11.2", "10.0", "10.8", "1200"]
    ensures missing
    ensures close == Value("10.8")
  {
    var table := new BarTable();
    var db := new BarDatabase(table);
    var importer := db.GetDataImporter("BMY");
    ImportLines([HEADER, BAR_0827, BAR_0828], importer);
    BmyScenario();
    var found := db.GetRow("2015-08-28", "BMY");
    row := found[..];
    var absent := db.GetRow("2015-08-26", "BMY");
    missing := absent == null;
    close := db.GetCell("2015-08-28", "BMY", COL_CLOSE);
  }

}
