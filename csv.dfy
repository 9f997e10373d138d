/**
 * Splitting a CSV line on commas the way Java's `String.split(",")` does:
 * the pieces between commas, with every trailing empty piece dropped, except
 * that a line without any comma comes back whole (so an empty line gives one
 * empty field). No quoting or escaping is recognised.
 */
module Csv {

  const COMMA: char := ','

  /** The pieces of `fields` written out with a comma between each two. */
  function Join(fields: seq<string>): (line: string)
    requires |fields| > 0
  {
    if |fields| == 1 then fields[0] else fields[0] + [COMMA] + Join(fields[1..])
  }

  /** Every piece between commas, empty pieces included. */
  function Fields(line: string): (fields: seq<string>)
    ensures |fields| > 0
    decreases |line|
  {
    if line == [] then [""]
    else if line[0] == COMMA then [""] + Fields(line[1..])
    else
      var rest := Fields(line[1..]);
      [[line[0]] + rest[0]] + rest[1..]
  }

  /** The pieces are comma-free and joining them gives the line back. */
  lemma {:induction false} JoinOfFields(line: string)
    ensures Join(Fields(line)) == line
    ensures forall i :: 0 <= i < |Fields(line)| ==> COMMA !in Fields(line)[i]
    decreases |line|
  {
    if line != [] {
      var rest := Fields(line[1..]);
      JoinOfFields(line[1..]);
      assert line == [line[0]] + line[1..];
      if line[0] != COMMA {
        var fields := [[line[0]] + rest[0]] + rest[1..];
        assert fields[1..] == rest[1..];
        assert |rest| > 1 ==> Join(rest) == rest[0] + [COMMA] + Join(rest[1..]);
      }
    }
  }

  /** Fields is the only way to cut a line into comma-free pieces. */
  lemma {:induction false} FieldsOfJoin(fields: seq<string>)
    requires |fields| > 0
    requires forall i :: 0 <= i < |fields| ==> COMMA !in fields[i]
    ensures Fields(Join(fields)) == fields
    decreases |Join(fields)|
  {
    var line := Join(fields);
    if fields[0] == [] {
      if |fields| > 1 {
        assert line == [COMMA] + Join(fields[1..]);
        assert line[1..] == Join(fields[1..]);
        FieldsOfJoin(fields[1..]);
        assert fields == [""] + fields[1..];
      }
    } else {
      var tail := [fields[0][1..]] + fields[1..];
      assert tail[1..] == fields[1..];
      assert line == [fields[0][0]] + Join(tail) by {
        if |fields| > 1 {
          assert Join(tail) == fields[0][1..] + [COMMA] + Join(fields[1..]);
        }
      }
      assert line[1..] == Join(tail);
      assert forall i :: 0 <= i < |tail| ==> COMMA !in tail[i] by {
        assert forall c :: c in fields[0][1..] ==> c in fields[0];
      }
      FieldsOfJoin(tail);
      assert fields[0] == [fields[0][0]] + fields[0][1..];
      assert fields == [[fields[0][0]] + tail[0]] + tail[1..];
    }
  }

  /** Drops the empty pieces at the end, as `split` with no limit does. */
  function DropTrailingEmpty(fields: seq<string>): (kept: seq<string>)
    ensures kept <= fields
    ensures kept != [] ==> kept[|kept| - 1] != ""
    ensures forall i :: |kept| <= i < |fields| ==> fields[i] == ""
  {
    if fields == [] || fields[|fields| - 1] != "" then fields
    else DropTrailingEmpty(fields[..|fields| - 1])
  }

  /**
   * Java's `line.split(",")`: a prefix of the comma-separated pieces with
   * only empty pieces after it, and an empty last field only for the empty
   * line.
   */
  function Split(line: string): (fields: seq<string>)
    ensures fields <= Fields(line)
    ensures forall i :: |fields| <= i < |Fields(line)| ==> Fields(line)[i] == ""
    ensures fields != [] && fields[|fields| - 1] == "" ==> line == ""
  {
    if COMMA !in line then
      FieldsOfJoin([line]);
      [line]
    else DropTrailingEmpty(Fields(line))
  }

  /** A line written from comma-free fields, the last one non-empty, splits back into them. */
  lemma SplitOfJoin(fields: seq<string>)
    requires |fields| > 0 && fields[|fields| - 1] != ""
    requires forall i :: 0 <= i < |fields| ==> COMMA !in fields[i]
    ensures Split(Join(fields)) == fields
  {
    FieldsOfJoin(fields);
    if |fields| > 1 {
      assert Join(fields)[|fields[0]|] == COMMA;
    }
  }

  /** A trailing comma adds only an empty field, which split drops. */
  lemma TrailingCommaAccepted()
    ensures Split("d,o,h,l,c,v,") == ["d", "o", "h", "l", "c", "v"]
  {
    assert "d,o,h,l,c,v," == Join(["d", "o", "h", "l", "c", "v", ""]);
    FieldsOfJoin(["d", "o", "h", "l", "c", "v", ""]);
  }

  /** Five fields and a trailing comma give five fields, not six. */
  lemma FiveFieldsAndCommaRejected()
    ensures |Split("d,o,h,l,c,")| == 5
  {
    assert "d,o,h,l,c," == Join(["d", "o", "h", "l", "c", ""]);
    FieldsOfJoin(["d", "o", "h", "l", "c", ""]);
  }

}
