# Stock bar store: a Dafny model of the BarDatabase data-access layer

This project models the client side of a small HBase demo that keeps
daily stock bars (open, high, low, close, volume). The modelled class is
`BarDatabase`. It builds row keys as the symbol followed by the date. It
imports CSV files through a line importer that batches one put per
well-formed line and writes the batch on close. It also offers point
lookups of a row or a cell, and a bounded scan from a start key.

The HBase table is modelled abstractly as the class `BarStore.BarTable`. It
holds its rows in strictly ascending row-key order, and its contents are
also seen as a map from row key to the five columns. A put replaces the
whole row under its key. A scan yields the rows from the first key at or
after the start key to the end of the table.

Modules:

- `Lexicographic` (lexicographic.dfy): the order of row keys, and the facts
  the key scheme relies on. A shared prefix does not change how two strings
  compare, and the strings with one prefix form a contiguous block.
- `Csv` (csv.dfy): `String.split(",")` as Java defines it. A line with no
  comma comes back whole. Otherwise the line is cut at every comma and the
  trailing empty pieces are dropped.
- `BarStore` (store.dfy): rows, the sorted table, the bulk put, the scan.
- `StockBars` (bar_database.dfy): the row key, the importer (the state
  machine `Step`, its fold `ImportAll`, and the class `LineImporter`), and
  the class `BarDatabase` with `GetDataImporter`, `GetRow`, `GetCell` and
  `ScanRows`.
- `LineReading` (line_reader.dfy): the line reader feeding a file's lines
  to an importer and closing it, plus the BMY import scenario.

Null is modelled as `Option.None`. A Java `int` is the newtype `int32`.
The row handler of `ScanRows` is modelled by returning the rows it would
receive, in order.

Three behaviours of the code worth noting:

- Null lines are ignored before the header flag is looked at, so the header
  skip is used up by the first non-null line.
- `GetCell` with a column name the row does not have throws a
  NullPointerException (`new String(null)`). It does not return null.
- `ScanRows` hands on up to `limit + 1` rows (see Findings).

## Model

| member | source | states |
|---|---|---|
| StockBars.MakeKey | BarDatabase.java:48-51 | the key starts with the symbol, and what follows the symbol is exactly the date |
| StockBars.KeyOrderFollowsDates | BarDatabase.java:48-50 | for one symbol, key order is exactly the lexicographic order of the dates |
| StockBars.SymbolRowsContiguous | BarDatabase.java:48-50 | any key between two keys of a symbol starts with that symbol: the keys that start with the symbol form one contiguous stretch of the key order |
| StockBars.SymbolRowsInterleave | BarDatabase.java:48-50 | a symbol that extends another can have rows inside the other's stretch: "A2" on "00" sorts between "A" on "10" and "A" on "30" |
| StockBars.KeyDeterminesSymbolAndDate | BarDatabase.java:48-50 | for dates of one length, the key `stock + date` determines both the symbol and the date |
| StockBars.KeysOfDifferentSymbolsCanCollide | BarDatabase.java:48-50 | without dates of one fixed length, keys of two symbols can coincide: "AB" on "C" and "A" on "BC" |
| Lexicographic.CommonPrefixKeepsOrder | BarDatabase.java:49-50 | a common prefix (the symbol) does not change the order of two keys |
| Lexicographic.PrefixBlockContiguous | BarDatabase.java:49-50 | the strings that start with one prefix form one contiguous stretch of the key order |
| Csv.JoinOfFields | BarDatabase.java:174 | the comma-separated pieces of a line are comma-free and join back to the line |
| Csv.FieldsOfJoin | BarDatabase.java:174 | cutting the join of comma-free fields gives those fields back |
| Csv.DropTrailingEmpty | BarDatabase.java:174 | split drops exactly the empty fields at the end: the result is a prefix, everything dropped is empty, and the kept last field is not empty |
| Csv.Split | BarDatabase.java:174 | `split(",")` is a prefix of the comma-separated pieces with only empty pieces after it; its last field is empty only for the empty line |
| Csv.SplitOfJoin | BarDatabase.java:174-175 | a line written from comma-free fields whose last field is non-empty splits back into exactly those fields |
| Csv.TrailingCommaAccepted | BarDatabase.java:174-175 | `"d,o,h,l,c,v,"` splits into six fields, so it is accepted |
| Csv.FiveFieldsAndCommaRejected | BarDatabase.java:174-175 | `"d,o,h,l,c,"` splits into five fields, so it is dropped |
| StockBars.ToPut | BarDatabase.java:177-182 | the put of a data line has a key that starts with the importer's symbol |
| StockBars.Step | BarDatabase.java:168-184 | one line keeps every earlier put in place, adds at most one at the end, whose key starts with the symbol, and never turns the header flag back on |
| StockBars.ImportAll | LineReader.java:29-31 | feeding a stream of lines one by one keeps the earlier batch as a prefix, adds at most one put per line, and never turns the header flag back on |
| StockBars.ImportedKeysStartWithSymbol | BarDatabase.java:177 | every put an importer batches for a symbol has a key that starts with that symbol |
| StockBars.NullLinesIgnored | BarDatabase.java:169 | null lines change nothing, the header flag included: a stream imports as its non-null lines do |
| StockBars.ImportAppendsWellFormed | BarDatabase.java:174-183 | past the header, the batch grows by exactly one put per line that splits into six fields, in line order, after the puts already there |
| StockBars.HeaderNeverImported | BarDatabase.java:155-173 | in default mode the first non-null line is never imported, whatever it holds; the batch is the puts of the later lines |
| StockBars.NoHeaderSkipImportsAll | BarDatabase.java:155-173 | with the skip flag off, every well-formed line is imported, the first one included |
| StockBars.WellFormedLineAppends | BarDatabase.java:177-183 | a well-formed line appends the put with key `MakeKey(data[0], symbol)` and columns open, high, low, close, volume = `data[1..5]` |
| StockBars.MalformedLineDropped | BarDatabase.java:174-175 | a line whose field count is not six leaves the importer unchanged, without an error |
| StockBars.LinePuts | BarDatabase.java:174-183 | a line yields at most one put |
| StockBars.LineImporter.constructor | BarDatabase.java:155-159 | a new importer has the given skip flag, symbol and an empty batch |
| StockBars.LineImporter.WithHeader | BarDatabase.java:161-163 | the default importer skips a header line |
| StockBars.LineImporter.ProcessData | BarDatabase.java:168-184 | the importer's new flag and batch are the step function `Step` applied to the old ones |
| StockBars.LineImporter.Close | BarDatabase.java:187-194 | an empty batch leaves the table as it was; otherwise the whole batch goes in one bulk put, and the table keeps its key order |
| BarStore.BarTable.Put | BarDatabase.java:191 | a bulk put keeps the table sorted; the new contents are the old ones overridden by the batch |
| BarStore.Insert | BarDatabase.java:191 | one put sets exactly its key to its columns and adds no other row |
| BarStore.InsertKeepsSorted | BarDatabase.java:191 | one put keeps the rows in strictly ascending key order |
| BarStore.PutAll | BarDatabase.java:191 | the contents after a bulk put are the old contents overridden by the batch |
| BarStore.PutAllKeepsSorted | BarDatabase.java:191 | a bulk put keeps the rows in strictly ascending key order |
| BarStore.LastPutWins | BarDatabase.java:183-191 | a key put several times in a batch ends up with the columns of its last put |
| BarStore.OverridesKeys | BarDatabase.java:191 | the keys a bulk put writes are exactly the keys of its puts |
| BarStore.NeverWrittenIsAbsent | BarDatabase.java:191 | a key that was absent and that no put of the batch names is still absent after the bulk put, so GetRow on it gives null |
| StockBars.ImportThenReadBack | BarDatabase.java:177-191 | a well-formed line, imported after any earlier batch and flushed, reads back through GetRow as its key and its five fields |
| StockBars.SecondCloseChangesNothing | BarDatabase.java:187-194 | writing the same batch a second time leaves the contents unchanged |
| BarStore.RowInContents | BarDatabase.java:62 | on a sorted table every row is what a lookup of its key returns |
| StockBars.RowValues | BarDatabase.java:64-70 | the array GetRow returns has six slots, the key first |
| StockBars.BarDatabase.GetRow | BarDatabase.java:57-73 | null exactly when the key is absent; otherwise a fresh six-element array [key, open, high, low, close, volume] of the stored row |
| StockBars.BarDatabase.GetCell | BarDatabase.java:75-84 | null when the key is absent; the stored value for one of the five columns; a NullPointerException for any other column |
| StockBars.ColumnValue | BarDatabase.java:82 | a column read gives a value exactly for the five qualifiers open, high, low, close and volume, and that value is one of the row's five stored fields |
| StockBars.CellsAgreeWithRow | BarDatabase.java:66-82 | GetCell on each of the five column names gives the matching slot of GetRow's array |
| StockBars.BarDatabase.constructor | BarDatabase.java:142-144 | the database works on the table it is given |
| StockBars.BarDatabase.GetDataImporter | BarDatabase.java:53-55 | a fresh default-mode importer for the symbol, with an empty batch, writing to this database's table |
| BarStore.FirstAtOrAfter | BarDatabase.java:92 | the scan starts at the first row whose key is at or after the start key; every row before it is below the start key |
| BarStore.ScanFrom | BarDatabase.java:92-96 | the scan is the tail of the table whose first row is at or after the start key, and every row left out before it is below the start key |
| BarStore.ScanIsOrderedFilter | BarDatabase.java:92-96 | on a sorted table the scan yields exactly the rows at or after the start key, in ascending key order |
| BarStore.AtOrAfter | BarDatabase.java:92 | reference definition: a row is kept exactly when it is in the table and its key is at or after the start key |
| StockBars.ScannedRowMatchesContents | BarDatabase.java:96-99 | every row the scan yields holds what GetRow reads for its key, and its key is at or after the start key |
| StockBars.ScanCount | BarDatabase.java:97-100 | the number of rows handed on is at most the rows available and, for a non-negative `limit`, at most `limit + 1`; it is at least one when any row is available |
| StockBars.BarDatabase.ScanRows | BarDatabase.java:86-107 | hands on the first `min(n, limit + 1)` rows of the scan, in scan order (for a negative `limit`, the client loop alone would hand on at most one row) |
| StockBars.ScanOvershootsLimit | BarDatabase.java:100 | with more rows available than `limit`, exactly `limit + 1` rows are handed on |
| StockBars.ScanRunsIntoNextSymbol | BarDatabase.java:92-100 | with no end key, a scan from BMY's last bar with limit 10 also hands on the MRK row that follows |
| StockBars.CappedCount | BarDatabase.java:93-95 | the intended count: at most `max(limit, 0)` rows, and exactly `max(limit, 0)` whenever more are available |
| StockBars.BarDatabase.ScanRowsCapped | BarDatabase.java:97-100 | the corrected loop hands on the first `min(n, max(limit, 0))` rows of the scan, in scan order |
| LineReading.ImportLines | LineReader.java:27-43 | each line goes to the importer in file order, then close writes the batch; the final importer state is `ImportAll` of the lines |
| LineReading.ImportAndQuery | TestHBase.java:26-46 | importing the three-line BMY file of `BmyImport` (a header and the bars of 2015-08-27 and 2015-08-28) into an empty table and then querying gives the 2015-08-28 row as its key and 10.5, 11.2, 10.0, 10.8, 1200, null for a date never imported, and the close 10.8 |
| LineReading.BmyImport | TestHBase.java:10-19 | a header and two BMY bar lines batch exactly the two puts of the bars |
| LineReading.BmyScenario | TestHBase.java:37-46 | after that import, the 2015-08-28 row reads back as its key and 10.5, 11.2, 10.0, 10.8, 1200, and 2015-08-26 is absent |

## Left out

- Table administration (`CreateTable`, `DropTable`) and its console output
  are not modelled; they only manage the HBase schema.
- Connections, `Table` handles and the `try`-with-resources and `finally`
  cleanup are not modelled. Every store call succeeds, so the
  `IOException` paths of the store are absent.
- `PageFilter(limit)` and `setCaching(limit)` are left out. They are
  server-side hints whose effect lies inside HBase. Only the client-side
  counter of `ScanRows` is modelled, so the model may hand on more rows
  than a real region server would send.
- Byte encoding (`getBytes`, `new String(byte[])`) is not modelled. Keys and
  values are strings, and keys compare character by character. This is the
  same as HBase's unsigned byte order for ASCII keys.
- HBase cell versions and timestamps are not modelled. A put replaces the
  whole row, and two puts of one key in a batch resolve to the later one.
- GetRow's `new String(null)` for a stored row that lacks a column cannot
  happen in the model. Every put writes all five columns.
- `ScanPrinter` is left out. It only prints the rows `ScanRows` hands on,
  which the model returns instead.
- In `LineReader`, the file-name, callback, existence and directory checks
  and the `BufferedReader` I/O are not modelled. The file is given as its
  sequence of lines, none of them null.
- `TestHBase.main` reads its configuration from the environment and prints
  results. Neither is modelled. `LineReading.ImportAndQuery` follows its
  import-then-query sequence for BMY alone, over a three-line stand-in for
  the BMY data file. The imports of ABT, MRK and PFE and the final
  `ScanRows` call are not part of it; `StockBars.ScanRunsIntoNextSymbol`
  covers what that scan does at the end of BMY's rows.
- `StockBars.BarDatabase.ScanRows`: `count` is an unbounded integer. The
  Java `int` counter wraps only in the post-increment of the last test,
  when `limit` is the largest `int`, and it is never read after that.
  A negative `limit` is not rejected. In the program, `new PageFilter(limit)`
  throws an `IllegalArgumentException` before any row is read, so no row is
  handed on. The model's result of at most one row describes the client
  loop alone.
- The HBase client rejects an empty row key in `new Put` and `new Get`
  (for example symbol "" with date ""). The model stores and looks up the
  key "" like any other.

## Findings

| source | as written | input that shows it | evidently intended | confidence | as-written member | corrected member |
|---|---|---|---|---|---|---|
| BarDatabase.java:97-100 | the counter is tested with `count++ >= limit` after the row has been handed on, so `limit + 1` rows go out | a scan with `limit` 10 over 12 rows at or after the start key hands 11 rows to the handler | at most `limit` rows, matching the `PageFilter(limit)` page size | not executed; medium, because on a single region the server-side page filter may hide the extra row | StockBars.ScanOvershootsLimit | StockBars.BarDatabase.ScanRowsCapped |
