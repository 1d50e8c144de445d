/** What reading a log yields, told of its rows instead of the loop over its bytes
    (internal/wal/wal.go, readRecords). */
module LogRows {
  import opened Types
  import opened LogBytes

  /** Rows with a newline behind each. */
  function Glue(rows: seq<seq<Byte>>): seq<Byte> {
    if rows == [] then [] else rows[0] + [NEWLINE] + Glue(rows[1..])
  }

  ghost predicate AreRows(rows: seq<seq<Byte>>) { forall i :: 0 <= i < |rows| ==> NEWLINE !in rows[i] }

  ghost predicate Blank(b: seq<Byte>) { forall i :: 0 <= i < |b| ==> IsSpace(b[i]) }

  /** row without the space at its ends. */
  function Text(row: seq<Byte>): seq<Byte> { TrimRight(TrimLeft(row)) }

  /** The event of a row, if it has one. */
  function EventOf(c: Codec, row: seq<Byte>): seq<Event> {
    var text := Text(row);
    if text != [] && c.decode(text).Some? then [c.decode(text).value] else []
  }

  /** The row is neither blank nor a record. */
  predicate IsGarbage(c: Codec, row: seq<Byte>) { Text(row) != [] && c.decode(Text(row)).None? }

  function Decoded(c: Codec, rows: seq<seq<Byte>>): seq<Event> {
    if rows == [] then [] else EventOf(c, rows[0]) + Decoded(c, rows[1..])
  }

  function Unreadable(c: Codec, rows: seq<seq<Byte>>): nat {
    if rows == [] then 0 else (if IsGarbage(c, rows[0]) then 1 else 0) + Unreadable(c, rows[1..])
  }

  lemma {:induction false} LeftIs(b: seq<Byte>) returns (l: seq<Byte>)
    ensures b == l + TrimLeft(b) && Blank(l)
    ensures TrimLeft(b) != [] ==> !IsSpace(TrimLeft(b)[0])
  {
    l := [];
    if b != [] && IsSpace(b[0]) {
      l := LeftIs(b[1..]);
      assert b == [b[0]] + b[1..];
      l := [b[0]] + l;
    }
  }

  lemma {:induction false} RightIs(b: seq<Byte>) returns (r: seq<Byte>)
    ensures b == TrimRight(b) + r && Blank(r)
    ensures TrimRight(b) != [] ==> !IsSpace(TrimRight(b)[|TrimRight(b)| - 1]) && TrimRight(b)[0] == b[0]
  {
    r := [];
    if b != [] && IsSpace(b[|b| - 1]) {
      r := RightIs(b[..|b| - 1]);
      assert b == b[..|b| - 1] + [b[|b| - 1]];
      r := r + [b[|b| - 1]];
    }
  }

  /** Text takes the space off both ends and nothing else. */
  lemma TextIs(row: seq<Byte>) returns (l: seq<Byte>, r: seq<Byte>)
    ensures row == l + Text(row) + r && Blank(l) && Blank(r)
    ensures Text(row) != [] ==> !IsSpace(Text(row)[0]) && !IsSpace(Text(row)[|Text(row)| - 1])
  {
    l := LeftIs(row);
    r := RightIs(TrimLeft(row));
  }

  lemma {:induction false} LeftOfLine(row: seq<Byte>)
    ensures TrimLeft(row + [NEWLINE]) == if TrimLeft(row) == [] then [] else TrimLeft(row) + [NEWLINE]
  {
    if row == [] {
      assert row + [NEWLINE] == [NEWLINE] && [NEWLINE][1..] == [];
    } else if IsSpace(row[0]) {
      assert (row + [NEWLINE])[1..] == row[1..] + [NEWLINE];
      LeftOfLine(row[1..]);
    }
  }

  /** The newline itself is space. */
  lemma TextOfLine(row: seq<Byte>)
    ensures TrimRight(TrimLeft(row + [NEWLINE])) == Text(row)
  {
    LeftOfLine(row);
    var left := TrimLeft(row);
    assert (left + [NEWLINE])[..|left|] == left;
  }

  function ScanOf(c: Codec, row: seq<Byte>): Scan {
    Scan(EventOf(c, row), if IsGarbage(c, row) then 1 else 0, 0, |row| + 1)
  }

  lemma LineIsRow(c: Codec, row: seq<Byte>)
    ensures ReadLine(c, row + [NEWLINE]) == ScanOf(c, row)
  {
    TextOfLine(row);
  }

  lemma OneLine(row: seq<Byte>)
    requires NEWLINE !in row
    ensures LineLength(row + [NEWLINE]) == |row| + 1
  {
    var line := row + [NEWLINE];
    forall i | 0 <= i < |row| ensures line[i] != NEWLINE {
      assert line[i] == row[i];
    }
    LineEndsAt(line, |line|);
  }

  lemma ReadFirstOf(c: Codec, b: seq<Byte>, head: seq<Byte>, tail: seq<Byte>)
    requires b != [] && b[LineLength(b) - 1] == NEWLINE && head == b[..LineLength(b)] && tail == b[LineLength(b)..]
    ensures Read(c, b) == Join(ReadLine(c, head), Read(c, tail))
  {
    ReadFirst(c, b);
  }

  lemma ReadSingle(c: Codec, line: seq<Byte>)
    requires line != [] && LineLength(line) == |line| && line[|line| - 1] == NEWLINE
    ensures Read(c, line) == ReadLine(c, line)
  {
    assert line == line[..|line|] && [] == line[|line|..];
    ReadFirstOf(c, line, line, []);
    JoinEmpty(c, ReadLine(c, line));
  }

  lemma JoinEmpty(c: Codec, scan: Scan)
    ensures Join(scan, Read(c, [])) == scan
  {
    assert Read(c, []) == Scan([], 0, 0, 0);
    JoinLaws(scan, scan, scan);
  }

  lemma ReadRow(c: Codec, row: seq<Byte>)
    requires NEWLINE !in row
    ensures Read(c, row + [NEWLINE]) == ScanOf(c, row)
  {
    OneLine(row);
    LineIsRow(c, row);
    ReadSingle(c, row + [NEWLINE]);
  }

  lemma ReadTail(c: Codec, tail: seq<Byte>)
    requires NEWLINE !in tail
    ensures Read(c, tail) == Scan([], 0, |tail|, 0)
  {
    if tail != [] {
      var n := LineLength(tail);
      assert tail[n - 1] in tail;
      assert n == |tail|;
    }
  }

  /** Reading any file: the events are those of the rows that are not blank and decode, in order; those that
      do not decode are counted; an unfinished row at the end is left out and its bytes are counted. */
  lemma {:induction false} ReadIsRows(c: Codec, rows: seq<seq<Byte>>, tail: seq<Byte>)
    requires AreRows(rows) && NEWLINE !in tail
    ensures Read(c, Glue(rows) + tail) == Scan(Decoded(c, rows), Unreadable(c, rows), |tail|, |Glue(rows)|)
    decreases rows
  {
    if rows == [] {
      assert Glue(rows) + tail == tail;
      ReadTail(c, tail);
    } else {
      var line, rest := rows[0] + [NEWLINE], Glue(rows[1..]) + tail;
      GlueFirst(rows, tail);
      ReadConcat(c, line, rest);
      ReadRow(c, rows[0]);
      ReadIsRows(c, rows[1..], tail);
    }
  }

  lemma GlueFirst(rows: seq<seq<Byte>>, tail: seq<Byte>)
    requires rows != []
    ensures Glue(rows) + tail == rows[0] + [NEWLINE] + (Glue(rows[1..]) + tail)
  {
  }

  /** Every file consists of rows and an unfinished one. */
  lemma {:induction false} EveryFileHasRows(b: seq<Byte>) returns (rows: seq<seq<Byte>>, tail: seq<Byte>)
    ensures AreRows(rows) && NEWLINE !in tail && b == Glue(rows) + tail
    decreases |b|
  {
    var n := LineLength(b);
    if b == [] || b[n - 1] != NEWLINE {
      rows, tail := [], b;
      assert Glue(rows) + tail == tail;
    } else {
      rows, tail := EveryFileHasRows(b[n..]);
      var row := b[..n - 1];
      assert b == row + [NEWLINE] + b[n..];
      assert ([row] + rows)[0] == row && ([row] + rows)[1..] == rows;
      assert row + [NEWLINE] + (Glue(rows) + tail) == row + [NEWLINE] + Glue(rows) + tail;
      rows := [row] + rows;
    }
  }
}
