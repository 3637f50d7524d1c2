/**
 What a printed table holds for a reader that knows quoting and nothing else: no hint line, no apostrophe
 guard, no blank-row rule. RFC 4180, section 2, read cell by cell.
 */
module CsvCells {
  import opened Csv

  datatype Piece = Piece(cell: string, rest: string)

  /** Up to the closing quote; a doubled quote stands for one. */
  function ReadQuoted(text: string): (p: Piece)
    ensures |p.rest| <= |text|
    decreases |text|
  {
    if text == "" then Piece("", "")
    else if text[0] != '"' then
      var p := ReadQuoted(text[1..]);
      Piece([text[0]] + p.cell, p.rest)
    else if |text| > 1 && text[1] == '"' then
      var p := ReadQuoted(text[2..]);
      Piece("\"" + p.cell, p.rest)
    else Piece("", text[1..])
  }

  function ReadPlain(text: string, d: char): (p: Piece)
    ensures |p.rest| <= |text|
    decreases |text|
  {
    if text == "" || text[0] == d || text[0] == '\r' || text[0] == '\n' then Piece("", text)
    else
      var p := ReadPlain(text[1..], d);
      Piece([text[0]] + p.cell, p.rest)
  }

  function ReadCell(text: string, d: char): (p: Piece)
    ensures |p.rest| <= |text|
  {
    if text != "" && text[0] == '"' then ReadQuoted(text[1..]) else ReadPlain(text, d)
  }

  datatype Line = Line(cells: Row, rest: string)

  function ReadRow(text: string, d: char): (l: Line)
    ensures |l.rest| <= |text|
    decreases |text|
  {
    var p := ReadCell(text, d);
    if p.rest != "" && p.rest[0] == d then
      var l := ReadRow(p.rest[1..], d);
      Line([p.cell] + l.cells, l.rest)
    else Line([p.cell], p.rest)
  }

  function ReadTable(text: string, d: char): seq<Row>
    decreases |text|
  {
    var l := ReadRow(text, d);
    if |l.rest| >= 2 && l.rest[0] == '\r' && l.rest[1] == '\n' then [l.cells] + ReadTable(l.rest[2..], d)
    else [l.cells]
  }

  /** A spreadsheet would run the cell. */
  predicate IsFormula(cell: string) {
    cell != "" && cell[0] in ['=', '+', '-', '@', '\t', '\r']
  }

  /** What is in the file for a cell: a formula behind an apostrophe, anything else as it is. */
  function InFile(raw: string): (cell: string)
    ensures !IsFormula(cell)
  {
    if IsFormula(raw) then "'" + raw else raw
  }

  /** A row of no cells prints as one empty cell. */
  function RowInFile(row: Row): (cells: Row)
    ensures row != [] ==> |cells| == |row|
  {
    if row == [] then [""] else seq(|row|, i requires 0 <= i < |row| => InFile(row[i]))
  }

  lemma QuoteSplits(inner: string, rest: string)
    ensures var text := "\"" + inner + "\"" + rest;
      text != "" && text[0] == '"' && text[1..] == inner + "\"" + rest
  {
  }

  lemma ReadDoubled(c: char, tail: string)
    ensures ReadQuoted((if c == '"' then "\"\"" else [c]) + tail)
      == Piece([c] + ReadQuoted(tail).cell, ReadQuoted(tail).rest)
  {
    if c == '"' {
      assert ("\"\"" + tail)[2..] == tail;
    } else {
      assert ([c] + tail)[1..] == tail;
    }
  }

  lemma {:induction false} QuotedReads(f: string, rest: string)
    requires rest == "" || rest[0] != '"'
    ensures ReadQuoted(DoubleQuotes(f) + "\"" + rest) == Piece(f, rest)
    decreases |f|
  {
    if f == "" {
      assert DoubleQuotes(f) + "\"" + rest == "\"" + rest;
      assert ("\"" + rest)[1..] == rest;
    } else {
      var first := if f[0] == '"' then "\"\"" else [f[0]];
      var tail := DoubleQuotes(f[1..]) + "\"" + rest;
      Associates(first, DoubleQuotes(f[1..]), "\"", rest);
      ReadDoubled(f[0], tail);
      QuotedReads(f[1..], rest);
      assert [f[0]] + f[1..] == f;
    }
  }

  lemma Associates(a: string, b: string, c: string, e: string)
    ensures (a + b) + c + e == a + (b + c + e)
  {
  }

  lemma {:induction false} PlainReads(f: string, rest: string, d: char)
    requires !NeedsQuote(f, d) && Boundary(rest, d)
    ensures ReadPlain(f + rest, d) == Piece(f, rest)
    decreases |f|
  {
    if f == "" {
      assert f + rest == rest;
    } else {
      assert (f + rest)[1..] == f[1..] + rest;
      PlainReads(f[1..], rest, d);
      assert f == [f[0]] + f[1..];
    }
  }

  lemma CellReads(raw: string, rest: string, d: char)
    requires UsableDelimiter(d) && Boundary(rest, d)
    ensures ReadCell(Escape(raw, d) + rest, d) == Piece(InFile(raw), rest)
  {
    var f := Guard(raw);
    assert f == InFile(raw);
    if NeedsQuote(f, d) {
      QuoteSplits(DoubleQuotes(f), rest);
      QuotedReads(f, rest);
    } else {
      PlainReads(f, rest, d);
      PlainStarts(f, rest, d);
    }
  }

  lemma PlainStarts(f: string, rest: string, d: char)
    requires !NeedsQuote(f, d) && UsableDelimiter(d) && Boundary(rest, d)
    ensures f + rest == "" || (f + rest)[0] != '"'
  {
  }

  lemma LoneCellReads(row: Row, rest: string, d: char)
    requires UsableDelimiter(d) && (rest == "" || rest[0] == '\r') && |row| <= 1
    ensures ReadRow(PrintRow(row, d) + rest, d) == Line(RowInFile(row), rest)
  {
    if row == [] {
      assert PrintRow(row, d) + rest == rest;
    } else {
      CellReads(row[0], rest, d);
      assert RowInFile(row) == [InFile(row[0])];
    }
  }

  lemma RowSplitsInFile(row: Row)
    requires |row| > 1
    ensures RowInFile(row) == [InFile(row[0])] + RowInFile(row[1..])
  {
  }

  lemma {:induction false} RowReads(row: Row, rest: string, d: char)
    requires UsableDelimiter(d) && (rest == "" || rest[0] == '\r')
    ensures ReadRow(PrintRow(row, d) + rest, d) == Line(RowInFile(row), rest)
    decreases |row|
  {
    if |row| <= 1 {
      LoneCellReads(row, rest, d);
    } else {
      var tail := PrintRow(row[1..], d) + rest;
      AppendAssociates(Escape(row[0], d), [d], PrintRow(row[1..], d), rest);
      CellReads(row[0], [d] + tail, d);
      var text := Escape(row[0], d) + ([d] + tail);
      FirstCellReads(text, InFile(row[0]), tail, d);
      RowReads(row[1..], rest, d);
      RowSplitsInFile(row);
    }
  }

  lemma FirstCellReads(text: string, cell: string, tail: string, d: char)
    requires ReadCell(text, d) == Piece(cell, [d] + tail)
    ensures |tail| < |text|
    ensures ReadRow(text, d) == Line([cell] + ReadRow(tail, d).cells, ReadRow(tail, d).rest)
  {
    assert ([d] + tail)[1..] == tail;
  }

  lemma LineReads(row: Row, next: string, d: char)
    requires UsableDelimiter(d)
    ensures ReadTable(PrintRow(row, d) + "\r\n" + next, d) == [RowInFile(row)] + ReadTable(next, d)
  {
    var rest := "\r\n" + next;
    assert PrintRow(row, d) + "\r\n" + next == PrintRow(row, d) + rest;
    assert rest[2..] == next;
    RowReads(row, rest, d);
  }

  lemma LastLineReads(row: Row, d: char)
    requires UsableDelimiter(d)
    ensures ReadTable(PrintRow(row, d), d) == [RowInFile(row)]
  {
    assert PrintRow(row, d) + "" == PrintRow(row, d);
    RowReads(row, "", d);
  }

  function RowsInFile(rows: seq<Row>): (table: seq<Row>)
    ensures |table| == |rows| && forall i :: 0 <= i < |rows| ==> table[i] == RowInFile(rows[i])
  {
    seq(|rows|, i requires 0 <= i < |rows| => RowInFile(rows[i]))
  }

  lemma {:induction false} TableReads(rows: seq<Row>, d: char)
    requires UsableDelimiter(d) && rows != []
    ensures ReadTable(PrintRows(rows, d), d) == RowsInFile(rows)
    decreases |rows|
  {
    if |rows| == 1 {
      LastLineReads(rows[0], d);
    } else {
      LineReads(rows[0], PrintRows(rows[1..], d), d);
      TableReads(rows[1..], d);
      assert RowsInFile(rows) == [RowInFile(rows[0])] + RowsInFile(rows[1..]);
    }
  }

  /** The file, character for character: the mark first, then the hint line, then the table. */
  predicate StartsWith(text: string, mark: string, hint: string) {
    |text| >= |mark| + |hint| && text[..|mark| + |hint|] == mark + hint
  }

  /**
   Whatever the table, the delimiter and the options, every cell is in the file under its own row and
   column: as it is, or behind an apostrophe exactly when it is a formula. No cell in the file is one.
   */
  lemma FormulasAreInert(headers: Row, rows: seq<Row>, d: char, bom: bool, sepLine: bool)
    requires UsableDelimiter(d)
    ensures var mark, hint := if bom then "\U{FEFF}" else "", if sepLine then ['s', 'e', 'p', '=', d, '\r', '\n']
      else "";
      var file := ToCsv(headers, rows, d, bom, sepLine);
      && StartsWith(file, mark, hint)
      && var table := ReadTable(file[|mark| + |hint|..], d);
         && table == RowsInFile([headers] + rows)
         && (forall i, j :: 0 <= i < |table| && 0 <= j < |table[i]| ==> !IsFormula(table[i][j]))
  {
    var all := [headers] + rows;
    var mark, hint := if bom then "\U{FEFF}" else "", if sepLine then ['s', 'e', 'p', '=', d, '\r', '\n'] else "";
    assert ToCsv(headers, rows, d, bom, sepLine) == mark + hint + PrintRows(all, d);
    TableReads(all, d);
  }

  lemma {:induction false} DoublingLengthens(f: string)
    ensures |DoubleQuotes(f)| >= |f|
  {
    if f != "" { DoublingLengthens(f[1..]); }
  }

  /** A cell stands in the file as it is, without quotes, exactly when nothing in it needs them and it is no formula. */
  lemma PrintedAsIsExactly(raw: string, d: char)
    ensures Escape(raw, d) == raw <==> !IsFormula(raw) && forall c :: c in raw ==> c !in ['"', '\r', '\n', d]
  {
    DoublingLengthens(InFile(raw));
    assert InFile(raw) == Guard(raw);
  }
}
