/**
 * The data-access layer for daily stock bars: the row-key scheme, the CSV
 * line importer that batches one put per well-formed line and writes the
 * batch on close, and the point lookups and bounded scan over the table.
 */
module StockBars {
  import opened Wrappers
  import opened Lexicographic
  import opened Csv
  import opened BarStore

  // Column qualifiers; every column lives in the single column family "d".
  const COL_OPEN: string := "open"
  const COL_HIGH: string := "high"
  const COL_LOW: string := "low"
  const COL_CLOSE: string := "close"
  const COL_VOLUME: string := "volume"

  /** A Java `int`. */
  newtype int32 = x: int | -0x8000_0000 <= x < 0x8000_0000

  /** The row key of one bar: the symbol followed directly by the date. */
  function MakeKey(date: string, stock: string): (key: string)
    ensures stock <= key && key[|stock|..] == date
  {
    stock + date
  }

  /** For one symbol, keys sort exactly as their dates do. */
  lemma KeyOrderFollowsDates(stock: string, date1: string, date2: string)
    ensures Below(MakeKey(date1, stock), MakeKey(date2, stock)) <==> Below(date1, date2)
  {
    CommonPrefixKeepsOrder(stock, date1, date2);
  }

  /**
   * The keys that start with a symbol form one contiguous stretch of the key
   * order: a key between two keys of the symbol begins with that symbol. It
   * need not be a key of that symbol; see SymbolRowsInterleave.
   */
  lemma SymbolRowsContiguous(stock: string, date1: string, date2: string, key: string)
    requires !Below(key, MakeKey(date1, stock)) && !Below(MakeKey(date2, stock), key)
    ensures stock <= key
  {
    PrefixBlockContiguous(stock, MakeKey(date1, stock), key, MakeKey(date2, stock));
  }

  /** With dates of one length, a key determines its symbol and its date. */
  lemma KeyDeterminesSymbolAndDate(date1: string, stock1: string, date2: string, stock2: string)
    requires |date1| == |date2|
    requires MakeKey(date1, stock1) == MakeKey(date2, stock2)
    ensures date1 == date2 && stock1 == stock2
  {
    var key := MakeKey(date1, stock1);
    assert stock1 == key[..|stock1|] && date1 == key[|stock1|..];
    assert stock2 == key[..|stock2|] && date2 == key[|stock2|..];
  }

  /** Without that, two symbols can share a key: "AB" on "C" and "A" on "BC". */
  lemma KeysOfDifferentSymbolsCanCollide()
    ensures MakeKey("C", "AB") == MakeKey("BC", "A")
  {
  }

  /**
   * A symbol that extends another one can have rows inside the other's
   * stretch: "A2" on "00" sorts between "A" on "10" and "A" on "30".
   */
  lemma SymbolRowsInterleave()
    ensures Below(MakeKey("10", "A"), MakeKey("00", "A2"))
    ensures Below(MakeKey("00", "A2"), MakeKey("30", "A"))
  {
    CommonPrefixKeepsOrder("A", "10", "200");
    CommonPrefixKeepsOrder("A", "200", "30");
  }

  /** The put built from the six fields of a data line. */
  function ToPut(stock: string, data: seq<string>): (put: Row)
    requires |data| == 6
    ensures stock <= put.key
  {
    Row(MakeKey(data[0], stock), Bar(data[1], data[2], data[3], data[4], data[5]))
  }

  /** The importer's two pieces of state: the header flag and the pending batch. */
  datatype ImportState = ImportState(skipFirst: bool, batch: seq<Row>)

  /** The importer's response to one line; `None` stands for a null line. */
  function Step(stock: string, state: ImportState, line: Option<string>): (next: ImportState)
    ensures state.batch <= next.batch && |next.batch| <= |state.batch| + 1
    ensures next.skipFirst ==> state.skipFirst
    ensures |next.batch| > |state.batch| ==> stock <= next.batch[|state.batch|].key
  {
    match line
    case None => state
    case Some(text) =>
      if state.skipFirst then ImportState(false, state.batch)
      else
        var data := Split(text);
        if |data| != 6 then state
        else ImportState(state.skipFirst, state.batch + [ToPut(stock, data)])
  }

  /** The importer's state after a whole stream of lines, in order. */
  function ImportAll(stock: string, state: ImportState, lines: seq<Option<string>>): (result: ImportState)
    ensures state.batch <= result.batch && |result.batch| <= |state.batch| + |lines|
    ensures result.skipFirst ==> state.skipFirst
    decreases |lines|
  {
    if lines == [] then state
    else ImportAll(stock, Step(stock, state, lines[0]), lines[1..])
  }

  /** Every put an importer batches for a symbol has a key that starts with that symbol. */
  lemma {:induction false} ImportedKeysStartWithSymbol(stock: string, state: ImportState, lines: seq<Option<string>>)
    requires forall i :: 0 <= i < |state.batch| ==> stock <= state.batch[i].key
    ensures var batch := ImportAll(stock, state, lines).batch;
      forall i :: 0 <= i < |batch| ==> stock <= batch[i].key
    decreases |lines|
  {
    if lines != [] {
      var next := Step(stock, state, lines[0]);
      assert forall i :: 0 <= i < |next.batch| ==> stock <= next.batch[i].key by {
        forall i | 0 <= i < |next.batch|
          ensures stock <= next.batch[i].key
        {
          if i < |state.batch| {
            assert next.batch[i] == state.batch[i];
          }
        }
      }
      ImportedKeysStartWithSymbol(stock, next, lines[1..]);
      assert forall i :: 0 <= i < |ImportAll(stock, next, lines[1..]).batch| ==> stock <= ImportAll(stock, next, lines[1..]).batch[i].key;
    }
  }

  /** The lines that are not null, in order. */
  function Present(lines: seq<Option<string>>): seq<string>
  {
    if lines == [] then []
    else (if lines[0].Some? then [lines[0].value] else []) + Present(lines[1..])
  }

  /** The put a data line yields: one when it splits into exactly six fields, none otherwise. */
  function LinePuts(stock: string, text: string): (puts: seq<Row>)
    ensures |puts| <= 1
  {
    var data := Split(text);
    if |data| == 6 then [ToPut(stock, data)] else []
  }

  /** Reference definition: the puts of the data lines, in line order. */
  function WellFormedPuts(stock: string, texts: seq<string>): seq<Row>
  {
    if texts == [] then [] else LinePuts(stock, texts[0]) + WellFormedPuts(stock, texts[1..])
  }

  /**
   * Null lines change nothing, not even the header flag: importing a stream
   * is the same as importing its non-null lines.
   */
  lemma {:induction false} NullLinesIgnored(stock: string, state: ImportState, lines: seq<Option<string>>)
    ensures ImportAll(stock, state, lines) == ImportAll(stock, state, Lift(Present(lines)))
    decreases |lines|
  {
    if lines != [] {
      NullLinesIgnored(stock, Step(stock, state, lines[0]), lines[1..]);
      if lines[0].Some? {
        assert Present(lines) == [lines[0].value] + Present(lines[1..]);
        assert Lift(Present(lines)) == [lines[0]] + Lift(Present(lines[1..]));
        assert Lift(Present(lines))[1..] == Lift(Present(lines[1..]));
      } else {
        NullLinesIgnored(stock, state, lines[1..]);
        assert Present(lines) == Present(lines[1..]);
      }
    }
  }

  /** Each text as a non-null line. */
  function Lift(texts: seq<string>): (lines: seq<Option<string>>)
    ensures |lines| == |texts|
  {
    if texts == [] then [] else [Some(texts[0])] + Lift(texts[1..])
  }

  /** Past the header, one line adds exactly its put, if it has one. */
  lemma StepAfterHeader(stock: string, batch: seq<Row>, text: string)
    ensures Step(stock, ImportState(false, batch), Some(text)) == ImportState(false, batch + LinePuts(stock, text))
  {
  }

  lemma ImportFirstLine(stock: string, state: ImportState, texts: seq<string>)
    requires texts != []
    ensures ImportAll(stock, state, Lift(texts)) == ImportAll(stock, Step(stock, state, Some(texts[0])), Lift(texts[1..]))
  {
    assert Lift(texts) == [Some(texts[0])] + Lift(texts[1..]);
    assert Lift(texts)[1..] == Lift(texts[1..]);
  }

  /** Appending the puts of some lines is appending the first line's puts, then the rest. */
  lemma BatchThenFirstLine(stock: string, batch: seq<Row>, texts: seq<string>)
    requires texts != []
    ensures batch + WellFormedPuts(stock, texts)
         == batch + LinePuts(stock, texts[0]) + WellFormedPuts(stock, texts[1..])
  {
    var added, rest := LinePuts(stock, texts[0]), WellFormedPuts(stock, texts[1..]);
    assert batch + (added + rest) == batch + added + rest;
  }

  /**
   * Once the header is behind it, the importer appends one put per
   * well-formed line, in line order, and keeps everything it had.
   */
  lemma {:induction false} ImportAppendsWellFormed(stock: string, batch: seq<Row>, texts: seq<string>)
    ensures ImportAll(stock, ImportState(false, batch), Lift(texts))
         == ImportState(false, batch + WellFormedPuts(stock, texts))
    decreases |texts|
  {
    if texts != [] {
      var added := LinePuts(stock, texts[0]);
      ImportFirstLine(stock, ImportState(false, batch), texts);
      StepAfterHeader(stock, batch, texts[0]);
      ImportAppendsWellFormed(stock, batch + added, texts[1..]);
      BatchThenFirstLine(stock, batch, texts);
    }
  }

  /**
   * In default mode the first non-null line is consumed as the header,
   * whatever it holds: the batch comes only from the non-null lines after it.
   */
  lemma HeaderNeverImported(stock: string, lines: seq<Option<string>>)
    requires Present(lines) != []
    ensures ImportAll(stock, ImportState(true, []), lines)
         == ImportState(false, WellFormedPuts(stock, Present(lines)[1..]))
  {
    var texts := Present(lines);
    NullLinesIgnored(stock, ImportState(true, []), lines);
    assert Lift(texts) == [Some(texts[0])] + Lift(texts[1..]);
    assert Lift(texts)[1..] == Lift(texts[1..]);
    ImportAppendsWellFormed(stock, [], texts[1..]);
  }

  /** With the header skip turned off, every well-formed line is imported, the first included. */
  lemma NoHeaderSkipImportsAll(stock: string, lines: seq<Option<string>>)
    ensures ImportAll(stock, ImportState(false, []), lines)
         == ImportState(false, WellFormedPuts(stock, Present(lines)))
  {
    NullLinesIgnored(stock, ImportState(false, []), lines);
    ImportAppendsWellFormed(stock, [], Present(lines));
  }

  /**
   * A data line written from six comma-free fields, the last one non-empty,
   * appends exactly the put of its key and its five columns.
   */
  lemma WellFormedLineAppends(stock: string, state: ImportState, fields: seq<string>)
    requires !state.skipFirst
    requires |fields| == 6 && fields[5] != ""
    requires forall i :: 0 <= i < 6 ==> COMMA !in fields[i]
    ensures Step(stock, state, Some(Join(fields))).batch
         == state.batch + [Row(MakeKey(fields[0], stock), Bar(fields[1], fields[2], fields[3], fields[4], fields[5]))]
  {
    SplitOfJoin(fields);
  }

  /** A data line with a field count other than six leaves the importer as it was. */
  lemma MalformedLineDropped(stock: string, state: ImportState, line: string)
    requires !state.skipFirst && |Split(line)| != 6
    ensures Step(stock, state, Some(line)) == state
  {
  }

  /** The layout of the array GetRow returns: the key, then the five columns. */
  function RowValues(key: string, bar: Bar): (cells: seq<string>)
    ensures |cells| == 6 && cells[0] == key
  {
    [key, bar.open, bar.high, bar.low, bar.close, bar.volume]
  }

  /** The value of one column of family "d"; `None` for a qualifier the row does not have. */
  function ColumnValue(bar: Bar, column: string): (value: Option<string>)
    ensures value.Some? <==> column in {COL_OPEN, COL_HIGH, COL_LOW, COL_CLOSE, COL_VOLUME}
    ensures value.Some? ==> value.value in {bar.open, bar.high, bar.low, bar.close, bar.volume}
  {
    if column == COL_OPEN then Some(bar.open)
    else if column == COL_HIGH then Some(bar.high)
    else if column == COL_LOW then Some(bar.low)
    else if column == COL_CLOSE then Some(bar.close)
    else if column == COL_VOLUME then Some(bar.volume)
    else None
  }

  /** GetCell on each of the five column names agrees with the matching slot of GetRow. */
  lemma CellsAgreeWithRow(key: string, bar: Bar)
    ensures var cells := RowValues(key, bar);
      && ColumnValue(bar, COL_OPEN) == Some(cells[1])
      && ColumnValue(bar, COL_HIGH) == Some(cells[2])
      && ColumnValue(bar, COL_LOW) == Some(cells[3])
      && ColumnValue(bar, COL_CLOSE) == Some(cells[4])
      && ColumnValue(bar, COL_VOLUME) == Some(cells[5])
  {
  }

  /** What GetCell gives back: null, a value, or the NullPointerException of `new String(null)`. */
  datatype CellResult = Null | Value(value: string) | NullPointerException

  /**
   * Import round trip: a well-formed line imported after any earlier batch,
   * then flushed, reads back through GetRow as its key and its five fields.
   */
  lemma ImportThenReadBack(stock: string, state: ImportState, fields: seq<string>, rows: seq<Row>)
    requires !state.skipFirst
    requires |fields| == 6 && fields[5] != ""
    requires forall i :: 0 <= i < 6 ==> COMMA !in fields[i]
    ensures var batch := Step(stock, state, Some(Join(fields))).batch;
      var contents := AsMap(PutAll(rows, batch));
      var key := MakeKey(fields[0], stock);
      key in contents && RowValues(key, contents[key]) == [key] + fields[1..]
  {
    WellFormedLineAppends(stock, state, fields);
    var batch := Step(stock, state, Some(Join(fields))).batch;
    LastPutWins(batch, |batch| - 1);
  }

  /** Closing twice writes the same batch twice, which changes nothing the second time. */
  lemma SecondCloseChangesNothing(rows: seq<Row>, batch: seq<Row>)
    ensures AsMap(PutAll(PutAll(rows, batch), batch)) == AsMap(PutAll(rows, batch))
  {
  }

  /** How many rows ScanRows hands on from a store scan of `available` rows. */
  function ScanCount(available: nat, limit: int32): (n: nat)
    ensures n <= available && (limit >= 0 ==> n <= limit as int + 1)
    ensures available > 0 ==> n > 0
  {
    var cap := if limit < 0 then 1 else limit as int + 1;
    if available < cap then available else cap
  }

  /**
   * The off-by-one of the counter test: whenever the scan has more rows than
   * `limit`, one row more than `limit` is handed on.
   */
  lemma ScanOvershootsLimit(available: nat, limit: int32)
    requires 0 <= limit as int < available
    ensures ScanCount(available, limit) == limit as int + 1
  {
  }

  /** How many rows a scan capped at `limit` hands on, as the page size `limit` intends. */
  function CappedCount(available: nat, limit: int32): (n: nat)
    ensures n <= available && n <= (if limit < 0 then 0 else limit as int)
    ensures n < available ==> n == (if limit < 0 then 0 else limit as int)
  {
    if limit < 0 then 0 else if available < limit as int then available else limit as int
  }

  /** Every row a scan yields on a sorted table is the row GetRow reads under its key. */
  lemma ScannedRowMatchesContents(rows: seq<Row>, start: string, i: nat)
    requires Sorted(rows) && i < |ScanFrom(rows, start)|
    ensures var row := ScanFrom(rows, start)[i];
      row.key in AsMap(rows) && AsMap(rows)[row.key] == row.bar && !Below(row.key, start)
  {
    var k := FirstAtOrAfter(rows, start);
    assert ScanFrom(rows, start)[i] == rows[k + i];
    RowInContents(rows, k + i);
    if i > 0 {
      AtOrAfterUpward(rows[k].key, rows[k + i].key, start);
    }
  }

  /**
   * There is no end key: a scan from the last bar of one symbol goes on into
   * the rows of the next symbol.
   */
  lemma ScanRunsIntoNextSymbol(bar: Bar)
    ensures var rows := [Row(MakeKey("2015-08-28", "BMY"), bar), Row(MakeKey("2015-08-17", "MRK"), bar)];
      var results := ScanFrom(rows, MakeKey("2015-08-28", "BMY"));
      |results| == 2 && ScanCount(|results|, 10) == 2 && !("BMY" <= results[1].key)
  {
    var rows := [Row(MakeKey("2015-08-28", "BMY"), bar), Row(MakeKey("2015-08-17", "MRK"), bar)];
    BelowIrreflexive(MakeKey("2015-08-28", "BMY"));
    assert FirstAtOrAfter(rows, MakeKey("2015-08-28", "BMY")) == 0;
  }

  /**
   * Importer of the CSV lines of one symbol. It buffers one put per
   * well-formed line and writes the whole buffer to the table on close.
   */
  class LineImporter {
    var skipFirst: bool
    const currentStock: string
    var currentImport: seq<Row>
    const table: BarTable

    function State(): ImportState
      reads this
    {
      ImportState(skipFirst, currentImport)
    }

    constructor (inSymbol: string, inSkipFirst: bool, inTable: BarTable)
      ensures State() == ImportState(inSkipFirst, [])
      ensures currentStock == inSymbol && table == inTable
    {
      skipFirst := inSkipFirst;
      currentStock := inSymbol;
      currentImport := [];
      table := inTable;
    }

    /** The default importer assumes a header line. */
    constructor WithHeader(inSymbol: string, inTable: BarTable)
      ensures State() == ImportState(true, [])
      ensures currentStock == inSymbol && table == inTable
    {
      skipFirst := true;
      currentStock := inSymbol;
      currentImport := [];
      table := inTable;
    }

    /** Processes one CSV line; `None` stands for a null line. */
    method ProcessData(line: Option<string>)
      modifies this
      ensures State() == Step(currentStock, old(State()), line)
    {
      if line.None? { return; }
      if skipFirst {
        skipFirst := false;
        return;
      }
      var data := Split(line.value);
      if |data| != 6 { return; }
      currentImport := currentImport + [ToPut(currentStock, data)];
    }

    /**
     * Writes the whole batch in one bulk put, or does nothing when the batch
     * is empty. The batch itself is kept.
     */
    method Close()
      requires table.Valid()
      modifies table
      ensures table.Valid()
      ensures table.rows == if currentImport == [] then old(table.rows) else PutAll(old(table.rows), currentImport)
      ensures table.Contents() == old(table.Contents()) + Overrides(currentImport)
    {
      if currentImport == [] { return; }
      table.Put(currentImport);
    }
  }

  /** The gateway to the bar table. */
  class BarDatabase {
    const table: BarTable

    constructor (inTable: BarTable)
      ensures table == inTable
    {
      table := inTable;
    }

    /** A fresh importer for one symbol, in default (header-skipping) mode. */
    method GetDataImporter(symbol: string) returns (importer: LineImporter)
      ensures fresh(importer)
      ensures importer.State() == ImportState(true, []) && importer.currentStock == symbol
      ensures importer.table == table
    {
      importer := new LineImporter.WithHeader(symbol, table);
    }

    /**
     * The row of `symbol` on `date` as [key, open, high, low, close, volume],
     * or null when the table has no such row.
     */
    method GetRow(date: string, symbol: string) returns (r: array?<string>)
      ensures var key := MakeKey(date, symbol);
        && (r == null <==> key !in table.Contents())
        && (r != null ==> fresh(r) && r[..] == RowValues(key, table.Contents()[key]))
    {
      var key := MakeKey(date, symbol);
      var contents := table.Contents();
      if key !in contents { return null; }
      var bar := contents[key];
      r := new string[6];
      r[0] := key;
      r[1] := bar.open;
      r[2] := bar.high;
      r[3] := bar.low;
      r[4] := bar.close;
      r[5] := bar.volume;
    }

    /**
     * One column of the row of `symbol` on `date`: null when there is no such
     * row, and a NullPointerException when the row lacks the column.
     */
    method GetCell(date: string, symbol: string, column: string) returns (r: CellResult)
      ensures var key := MakeKey(date, symbol);
        && (key !in table.Contents() ==> r == Null)
        && (key in table.Contents() && column in {COL_OPEN, COL_HIGH, COL_LOW, COL_CLOSE, COL_VOLUME} ==>
              r.Value? && Some(r.value) == ColumnValue(table.Contents()[key], column))
        && (key in table.Contents() && column !in {COL_OPEN, COL_HIGH, COL_LOW, COL_CLOSE, COL_VOLUME} ==>
              r == NullPointerException)
    {
      var contents := table.Contents();
      var key := MakeKey(date, symbol);
      if key !in contents { return Null; }
      var value := ColumnValue(contents[key], column);
      if value.None? { return NullPointerException; }
      return Value(value.value);
    }

    /**
     * Scans from the key of `symbol` on `startDate` and hands rows to the
     * handler; returns the rows handed on, in order. The counter test
     * `count++ >= limit` stops only after the row that reaches the limit has
     * been handed on, so up to `limit + 1` rows go out; there is no end key.
     */
    method ScanRows(startDate: string, symbol: string, limit: int32) returns (handled: seq<Row>)
      ensures var results := ScanFrom(table.rows, MakeKey(startDate, symbol));
        |handled| == ScanCount(|results|, limit) && handled == results[..|handled|]
    {
      var results := ScanFrom(table.rows, MakeKey(startDate, symbol));
      var bound := if limit < 0 then 0 else limit as int;
      handled := [];
      var count := 0;
      var i := 0;
      while i < |results|
        invariant 0 <= i <= |results| && count == i && i <= bound
        invariant handled == results[..i]
      {
        handled := handled + [results[i]];
        var previous := count;
        count := count + 1;
        if previous >= limit as int {
          assert |handled| == i + 1 == ScanCount(|results|, limit);
          return;
        }
        i := i + 1;
      }
      assert |handled| == |results| == ScanCount(|results|, limit);
    }

    /**
     * ScanRows with the counter tested before a row is handed on, so that at
     * most `limit` rows go out.
     */
    method ScanRowsCapped(startDate: string, symbol: string, limit: int32) returns (handled: seq<Row>)
      ensures var results := ScanFrom(table.rows, MakeKey(startDate, symbol));
        |handled| == CappedCount(|results|, limit) && handled == results[..|handled|]
    {
      var results := ScanFrom(table.rows, MakeKey(startDate, symbol));
      handled := [];
      var count := 0;
      while count < |results|
        invariant 0 <= count <= |results| && count <= (if limit < 0 then 0 else limit as int)
        invariant handled == results[..count]
      {
        if count >= limit as int { break; }
        handled := handled + [results[count]];
        count := count + 1;
      }
    }
  }

}
