/**
 * The backing table, seen from the client: rows kept in ascending row-key
 * order, each row holding the five columns of family "d". A put replaces the
 * whole row under its key; a scan yields the rows from a start key onwards.
 */
module BarStore {
  import opened Lexicographic

  /** The five columns of one daily bar, each the raw string it was imported as. */
  datatype Bar = Bar(open: string, high: string, low: string, close: string, volume: string)

  /** One row of the table, and equally one Put of an import batch. */
  datatype Row = Row(key: string, bar: Bar)

  /** Row keys strictly increase along the table, so no key occurs twice. */
  predicate Sorted(rows: seq<Row>)
  {
    forall i, j :: 0 <= i < j < |rows| ==> Below(rows[i].key, rows[j].key)
  }

  /** The table as a map from row key to columns. */
  function AsMap(rows: seq<Row>): map<string, Bar>
  {
    if rows == [] then map[] else AsMap(rows[1..])[rows[0].key := rows[0].bar]
  }

  /** On a sorted table every row is what the map view gives for its key. */
  lemma {:induction false} RowInContents(rows: seq<Row>, i: nat)
    requires Sorted(rows) && i < |rows|
    ensures rows[i].key in AsMap(rows) && AsMap(rows)[rows[i].key] == rows[i].bar
  {
    if i > 0 {
      SuffixSorted(rows, 1);
      RowInContents(rows[1..], i - 1);
      assert rows[1..][i - 1] == rows[i];
      assert Below(rows[0].key, rows[i].key);
      BelowIrreflexive(rows[0].key);
    }
  }

  /** Puts one row: overwrites the row with the same key, or inserts it in key order. */
  function Insert(rows: seq<Row>, row: Row): (result: seq<Row>)
    ensures AsMap(result) == AsMap(rows)[row.key := row.bar]
    ensures forall r :: r in result ==> r == row || r in rows
  {
    if rows == [] then [row]
    else if row.key == rows[0].key then
      assert ([row] + rows[1..])[1..] == rows[1..];
      assert AsMap(rows)[row.key := row.bar] == AsMap(rows[1..])[row.key := row.bar];
      [row] + rows[1..]
    else if Below(row.key, rows[0].key) then
      assert ([row] + rows)[1..] == rows;
      [row] + rows
    else
      var rest := Insert(rows[1..], row);
      assert ([rows[0]] + rest)[1..] == rest;
      assert AsMap(rows[1..])[row.key := row.bar][rows[0].key := rows[0].bar]
          == AsMap(rows)[row.key := row.bar];
      [rows[0]] + rest
  }

  /** Putting a row keeps the table in key order. */
  lemma {:induction false} InsertKeepsSorted(rows: seq<Row>, row: Row)
    requires Sorted(rows)
    ensures Sorted(Insert(rows, row))
  {
    if rows == [] || row.key == rows[0].key {
    } else if Below(row.key, rows[0].key) {
      forall j | 0 <= j < |rows| ensures Below(row.key, rows[j].key) {
        if j > 0 { BelowTransitive(row.key, rows[0].key, rows[j].key); }
      }
    } else {
      var rest := Insert(rows[1..], row);
      InsertKeepsSorted(rows[1..], row);
      BelowTotal(row.key, rows[0].key);
      forall j | 0 <= j < |rest| ensures Below(rows[0].key, rest[j].key) {
        if rest[j] != row {
          assert rest[j] in rows[1..];
          var k :| 0 <= k < |rows[1..]| && rows[1..][k] == rest[j];
          assert rows[1..][k] == rows[k + 1];
        }
      }
      assert Insert(rows, row) == [rows[0]] + rest;
    }
  }

  /**
   * The combined effect of a batch on the rows it names: for each key, the
   * columns of the last put in the batch with that key.
   */
  function Overrides(batch: seq<Row>): map<string, Bar>
  {
    if batch == [] then map[]
    else
      var last := batch[|batch| - 1];
      Overrides(batch[..|batch| - 1])[last.key := last.bar]
  }

  /** Applies a batch of puts one after another, in batch order. */
  function PutAll(rows: seq<Row>, batch: seq<Row>): (result: seq<Row>)
    ensures AsMap(result) == AsMap(rows) + Overrides(batch)
    decreases |batch|
  {
    if batch == [] then rows
    else
      var init := batch[..|batch| - 1];
      var last := batch[|batch| - 1];
      assert (AsMap(rows) + Overrides(init))[last.key := last.bar] == AsMap(rows) + Overrides(batch);
      Insert(PutAll(rows, init), last)
  }

  /** A bulk put keeps the table in key order. */
  lemma {:induction false} PutAllKeepsSorted(rows: seq<Row>, batch: seq<Row>)
    requires Sorted(rows)
    ensures Sorted(PutAll(rows, batch))
    decreases |batch|
  {
    if batch != [] {
      var init := batch[..|batch| - 1];
      PutAllKeepsSorted(rows, init);
      InsertKeepsSorted(PutAll(rows, init), batch[|batch| - 1]);
    }
  }

  /** A key put more than once in a batch ends up with the columns of its last put. */
  lemma {:induction false} LastPutWins(batch: seq<Row>, i: nat)
    requires i < |batch|
    requires forall j :: i < j < |batch| ==> batch[j].key != batch[i].key
    ensures batch[i].key in Overrides(batch) && Overrides(batch)[batch[i].key] == batch[i].bar
  {
    if i < |batch| - 1 {
      var init := batch[..|batch| - 1];
      assert init[i] == batch[i];
      LastPutWins(init, i);
    }
  }

  /** The keys a batch writes are exactly the keys of its puts. */
  lemma {:induction false} OverridesKeys(batch: seq<Row>, k: string)
    ensures k in Overrides(batch) <==> exists i :: 0 <= i < |batch| && batch[i].key == k
    decreases |batch|
  {
    if batch != [] {
      var init := batch[..|batch| - 1];
      OverridesKeys(init, k);
      if exists i :: 0 <= i < |init| && init[i].key == k {
        var i :| 0 <= i < |init| && init[i].key == k;
        assert batch[i].key == k;
      }
      if exists i :: 0 <= i < |batch| && batch[i].key == k {
        var i :| 0 <= i < |batch| && batch[i].key == k;
        if i < |init| {
          assert init[i].key == k;
        }
      }
    }
  }

  /** A bulk put leaves a key that none of its puts names as absent as it was. */
  lemma {:induction false} NeverWrittenIsAbsent(rows: seq<Row>, batch: seq<Row>, k: string)
    requires k !in AsMap(rows)
    requires forall i :: 0 <= i < |batch| ==> batch[i].key != k
    ensures k !in AsMap(PutAll(rows, batch))
  {
    OverridesKeys(batch, k);
  }

  /** The position of the first row whose key is at or after `start`. */
  function FirstAtOrAfter(rows: seq<Row>, start: string): (k: nat)
    ensures k <= |rows|
    ensures forall i :: 0 <= i < k ==> Below(rows[i].key, start)
    ensures k < |rows| ==> !Below(rows[k].key, start)
  {
    if rows == [] || !Below(rows[0].key, start) then 0
    else
      var k := FirstAtOrAfter(rows[1..], start);
      assert forall i :: 1 <= i < k + 1 ==> rows[i] == rows[1..][i - 1];
      k + 1
  }

  /** What a scan from `start` yields: the rows from the first key at or after `start` to the end of the table. */
  function ScanFrom(rows: seq<Row>, start: string): (result: seq<Row>)
    ensures |result| <= |rows|
    ensures forall i :: 0 <= i < |rows| - |result| ==> Below(rows[i].key, start)
    ensures forall i :: 0 <= i < |result| ==> result[i] == rows[|rows| - |result| + i]
    ensures result != [] ==> !Below(result[0].key, start)
  {
    rows[FirstAtOrAfter(rows, start)..]
  }

  /** Reference definition: the rows whose keys are at or after `start`, in table order. */
  function AtOrAfter(rows: seq<Row>, start: string): (result: seq<Row>)
    ensures forall r :: r in result <==> r in rows && !Below(r.key, start)
  {
    if rows == [] then []
    else
      var rest := AtOrAfter(rows[1..], start);
      assert forall r :: r in rows <==> r == rows[0] || r in rows[1..];
      (if Below(rows[0].key, start) then [] else [rows[0]]) + rest
  }

  lemma {:induction false} AllAtOrAfter(rows: seq<Row>, start: string)
    requires Sorted(rows)
    requires rows != [] ==> !Below(rows[0].key, start)
    ensures AtOrAfter(rows, start) == rows
  {
    if rows != [] {
      if |rows| > 1 {
        AtOrAfterUpward(rows[0].key, rows[1].key, start);
      }
      SuffixSorted(rows, 1);
      AllAtOrAfter(rows[1..], start);
      assert rows == [rows[0]] + rows[1..];
    }
  }

  /** A table with its first rows taken off is still in key order. */
  lemma SuffixSorted(rows: seq<Row>, k: nat)
    requires Sorted(rows) && k <= |rows|
    ensures Sorted(rows[k..])
  {
    forall i, j | 0 <= i < j < |rows[k..]| ensures Below(rows[k..][i].key, rows[k..][j].key) {
      assert rows[k..][i] == rows[k + i] && rows[k..][j] == rows[k + j];
    }
  }

  /**
   * On a sorted table the scan yields exactly the rows at or after the start
   * key, in ascending key order.
   */
  lemma {:induction false} ScanIsOrderedFilter(rows: seq<Row>, start: string)
    requires Sorted(rows)
    ensures ScanFrom(rows, start) == AtOrAfter(rows, start)
    ensures Sorted(ScanFrom(rows, start))
  {
    var result := ScanFrom(rows, start);
    SuffixSorted(rows, FirstAtOrAfter(rows, start));
    if rows != [] && Below(rows[0].key, start) {
      assert result == ScanFrom(rows[1..], start);
      assert AtOrAfter(rows, start) == [] + AtOrAfter(rows[1..], start);
      SuffixSorted(rows, 1);
      ScanIsOrderedFilter(rows[1..], start);
    } else {
      assert result == rows;
      AllAtOrAfter(rows, start);
    }
  }

  /** The table: the only state this client changes besides its own batch. */
  class BarTable {
    var rows: seq<Row>

    predicate Valid()
      reads this
    {
      Sorted(rows)
    }

    /** The table's contents as a map from row key to columns. */
    function Contents(): map<string, Bar>
      reads this
    {
      AsMap(rows)
    }

    constructor ()
      ensures Valid() && rows == []
    {
      rows := [];
    }

    /** One bulk put: every row of the batch written, in order. */
    method Put(batch: seq<Row>)
      requires Valid()
      modifies this
      ensures Valid() && rows == PutAll(old(rows), batch)
      ensures Contents() == old(Contents()) + Overrides(batch)
    {
      PutAllKeepsSorted(rows, batch);
      rows := PutAll(rows, batch);
    }
  }

}
