/** Files this platform did not print: text in which no cell opens with a quote, read by splitting it. */
module CsvLines {
  import opened Wrappers
  import opened Csv
  import opened CsvCells

  function SplitAt(text: string, c: char): (parts: seq<string>)
    ensures |parts| > 0
  {
    if text == "" then [""]
    else
      var parts := SplitAt(text[1..], c);
      if text[0] == c then [""] + parts else [[text[0]] + parts[0]] + parts[1..]
  }

  function Without(text: string, c: char): string {
    if text == "" then "" else (if text[0] == c then "" else [text[0]]) + Without(text[1..], c)
  }

  /** A line's cells: carriage returns gone, cut at every delimiter. */
  function CellsOf(line: string, d: char): (cells: seq<string>)
    ensures |cells| > 0
  {
    SplitAt(Without(line, '\r'), d)
  }

  predicate OpensPlain(cells: seq<string>) {
    forall j :: 0 <= j < |cells| && cells[j] != "" ==> cells[j][0] != '"'
  }

  /** The apostrophe in front of a formula comes off; nothing else changes. */
  function Bare(cell: string): string {
    if cell != "" && cell[0] == '\'' && IsFormula(cell[1..]) then cell[1..] else cell
  }

  function BareCells(cells: seq<string>): (row: Row)
    ensures |row| == |cells|
  {
    seq(|cells|, j requires 0 <= j < |cells| => Bare(cells[j]))
  }

  /** A row of one empty cell is none. */
  function Counted(row: Row): seq<Row> {
    if row == [""] then [] else [row]
  }

  function RowsOf(lines: seq<string>, d: char): seq<Row> {
    if lines == [] then [] else Counted(BareCells(CellsOf(lines[0], d))) + RowsOf(lines[1..], d)
  }

  predicate AllOpenPlain(lines: seq<string>, d: char) {
    forall i :: 0 <= i < |lines| ==> OpensPlain(CellsOf(lines[i], d))
  }

  /** A row begun with `row` and `field` goes on with these cells. */
  function Resumed(row: Row, field: string, cells: seq<string>): Row
    requires cells != []
  {
    row + [Bare(field + cells[0])] + BareCells(cells[1..])
  }

  /** What is still to be read, once the scanner holds `st` and `lines` are left. */
  function Remaining(st: Scan, lines: seq<string>, d: char): seq<Row>
    requires lines != []
  {
    st.rows + Counted(Resumed(st.row, st.field, CellsOf(lines[0], d))) + RowsOf(lines[1..], d)
  }

  /** No cell to come opens with a quote; the one begun may go on with one. */
  predicate Ahead(st: Scan, lines: seq<string>, d: char)
    requires lines != []
  {
    && AllOpenPlain(lines[1..], d)
    && var cells := CellsOf(lines[0], d);
       OpensPlain(cells[1..]) && OpensPlain([st.field + cells[0]])
  }

  lemma UnguardIsBare(cell: string)
    ensures Unguard(cell) == Bare(cell)
  {
  }

  /** The first character of a line, as the scanner and as the splitting see it. */
  lemma CellsStep(ch: char, line: string, d: char)
    requires UsableDelimiter(d) && ch != '\n'
    ensures var rest := CellsOf(line, d);
      CellsOf([ch] + line, d)
        == if ch == '\r' then rest else if ch == d then [""] + rest else [[ch] + rest[0]] + rest[1..]
  {
    assert ([ch] + line)[1..] == line;
    if ch == '\r' {
      assert Without([ch] + line, '\r') == Without(line, '\r');
    } else {
      var kept := Without([ch] + line, '\r');
      assert kept == [ch] + Without(line, '\r');
      assert kept[1..] == Without(line, '\r');
    }
  }

  /** The line in hand, with one more character in front. */
  predicate Keeps(st: Scan, next: Scan, ch: char, lines: seq<string>, d: char)
    requires lines != []
  {
    var all := [[ch] + lines[0]] + lines[1..];
    !next.inQuotes && Ahead(next, lines, d) && Remaining(next, lines, d) == Remaining(st, all, d)
  }

  lemma DelimiterStays(st: Scan, lines: seq<string>, d: char)
    requires UsableDelimiter(d) && !st.inQuotes && lines != []
    requires Ahead(st, [[d] + lines[0]] + lines[1..], d)
    ensures Keeps(st, EndField(st), d, lines, d)
  {
    assert ([[d] + lines[0]] + lines[1..])[1..] == lines[1..];
    CellsStep(d, lines[0], d);
    var rest := CellsOf(lines[0], d);
    assert ([""] + rest)[1..] == rest;
    OpenTail(rest);
    DelimiterResumes(st.row, st.field, rest);
    assert "" + rest[0] == rest[0];
  }

  lemma DelimiterResumes(row: Row, field: string, rest: seq<string>)
    requires rest != []
    ensures Resumed(row + [Unguard(field)], "", rest) == Resumed(row, field, [""] + rest)
  {
    UnguardIsBare(field);
    assert ([""] + rest)[1..] == rest && field + "" == field && "" + rest[0] == rest[0];
    assert BareCells(rest) == [Bare(rest[0])] + BareCells(rest[1..]);
  }

  lemma CharacterStays(st: Scan, ch: char, lines: seq<string>, d: char)
    requires UsableDelimiter(d) && !st.inQuotes && lines != [] && ch != '\n' && ch != '\r' && ch != d
    requires Ahead(st, [[ch] + lines[0]] + lines[1..], d)
    ensures Step(st, ch, d) == st.(field := st.field + [ch])
    ensures Keeps(st, st.(field := st.field + [ch]), ch, lines, d)
  {
    assert ([[ch] + lines[0]] + lines[1..])[1..] == lines[1..];
    CellsStep(ch, lines[0], d);
    var rest := CellsOf(lines[0], d);
    var cells := [[ch] + rest[0]] + rest[1..];
    assert cells[1..] == rest[1..] && st.field + ([ch] + rest[0]) == st.field + [ch] + rest[0];
    assert [st.field + cells[0]][0] == st.field + cells[0];
  }

  lemma StepStays(st: Scan, ch: char, lines: seq<string>, d: char)
    requires UsableDelimiter(d) && !st.inQuotes && lines != [] && ch != '\n'
    requires Ahead(st, [[ch] + lines[0]] + lines[1..], d)
    ensures Keeps(st, Step(st, ch, d), ch, lines, d)
  {
    if ch == d {
      DelimiterStays(st, lines, d);
    } else if ch == '\r' {
      assert ([[ch] + lines[0]] + lines[1..])[1..] == lines[1..];
      CellsStep(ch, lines[0], d);
    } else {
      CharacterStays(st, ch, lines, d);
    }
  }

  lemma OpenTail(cells: seq<string>)
    requires cells != [] && OpensPlain(cells)
    ensures OpensPlain([cells[0]]) && OpensPlain(cells[1..])
  {
  }

  lemma ClosedRow(row: Row, field: string)
    ensures Resumed(row, field, [""]) == row + [Unguard(field)]
  {
    UnguardIsBare(field);
    assert field + "" == field;
  }

  lemma FreshRow(cells: seq<string>)
    requires cells != []
    ensures Resumed([], "", cells) == BareCells(cells)
    ensures OpensPlain(cells) ==> OpensPlain(["" + cells[0]]) && OpensPlain(cells[1..])
  {
    assert "" + cells[0] == cells[0];
  }

  lemma LineEnds(st: Scan, lines: seq<string>, d: char)
    requires UsableDelimiter(d) && !st.inQuotes && lines != []
    requires Ahead(st, [""] + lines, d)
    ensures var next := EndRow(st);
      !next.inQuotes && Ahead(next, lines, d) && Remaining(next, lines, d) == Remaining(st, [""] + lines, d)
  {
    assert ([""] + lines)[1..] == lines && CellsOf("", d) == [""];
    ClosedRow(st.row, st.field);
    FreshRow(CellsOf(lines[0], d));
    RowEnds(st);
    hide Resumed, OpensPlain, BareCells, CellsOf, Unguard, Counted, EndRow;
    RowsAssociate(EndRow(st).rows, Counted(BareCells(CellsOf(lines[0], d))), RowsOf(lines[1..], d));
  }

  lemma RowEnds(st: Scan)
    ensures EndRow(st) == Scan(st.rows + Counted(st.row + [Unguard(st.field)]), [], "", st.inQuotes)
  {
    assert st.rows + [] == st.rows;
  }

  lemma FinishCloses(st: Scan, d: char)
    requires !st.inQuotes
    ensures Finish(st) == Remaining(st, [""], d)
  {
    assert CellsOf("", d) == [""];
    ClosedRow(st.row, st.field);
  }

  lemma {:induction false} ScanSplits(text: string, d: char, st: Scan)
    requires UsableDelimiter(d) && !st.inQuotes && Ahead(st, SplitAt(text, '\n'), d)
    ensures Finish(Feed(text, d, st)) == Remaining(st, SplitAt(text, '\n'), d)
    decreases |text|
  {
    if text == "" {
      FinishCloses(st, d);
    } else {
      var lines := SplitAt(text[1..], '\n');
      if text[0] == '\n' {
        LineEnds(st, lines, d);
      } else {
        StepStays(st, text[0], lines, d);
      }
      ScanSplits(text[1..], d, Step(st, text[0], d));
    }
  }

  /**
   A text in which no cell opens with a quote reads as its lines, cut at the line feeds and then at the
   delimiters: a bare line feed ends a row, carriage returns vanish, a quote inside a cell is a character
   like any other, empty lines are skipped, and the guard's apostrophes come off.
   */
  lemma UnquotedTextReads(text: string, d: char)
    requires UsableDelimiter(d) && AllOpenPlain(SplitAt(text, '\n'), d)
    ensures ParseRows(text, d) == RowsOf(SplitAt(text, '\n'), d)
  {
    Starting(SplitAt(text, '\n'), d);
    ScanSplits(text, d, START);
  }

  lemma Starting(lines: seq<string>, d: char)
    requires lines != [] && AllOpenPlain(lines, d)
    ensures Ahead(START, lines, d) && Remaining(START, lines, d) == RowsOf(lines, d)
  {
    FreshRow(CellsOf(lines[0], d));
    hide Resumed, OpensPlain, BareCells, CellsOf, Counted;
    assert START.rows + Counted(BareCells(CellsOf(lines[0], d))) == Counted(BareCells(CellsOf(lines[0], d)));
  }

  // ---------------------------------------------------------------- which delimiter

  lemma {:induction false} UnclosedFeeds(f: string, d: char, st: Scan)
    requires st.inQuotes
    ensures Feed(DoubleQuotes(f), d, st) == st.(field := st.field + f)
    decreases |f|
  {
    if f == "" {
      assert st.field + f == st.field;
    } else {
      var tail := DoubleQuotes(f[1..]);
      assert st.field + [f[0]] + f[1..] == st.field + f;
      if f[0] == '"' {
        assert DoubleQuotes(f)[2..] == tail;
      } else {
        assert DoubleQuotes(f)[1..] == tail;
      }
      UnclosedFeeds(f[1..], d, st.(field := st.field + [f[0]]));
    }
  }

  /** A quote that is never closed takes everything to the end of the text, doubled quotes as one. */
  lemma UnclosedQuoteRunsOn(f: string, d: char)
    requires f != ""
    ensures ParseRows("\"" + DoubleQuotes(f), d) == [[Bare(f)]]
  {
    FeedOne('"', DoubleQuotes(f), d, START);
    assert ['"'] + DoubleQuotes(f) == "\"" + DoubleQuotes(f);
    UnclosedFeeds(f, d, START.(inQuotes := true));
    UnguardIsBare(f);
    BareIsEmpty(f);
    var end := START.(inQuotes := true, field := f);
    assert "" + f == f;
    assert EndField(end).row == [Bare(f)] && [Bare(f)][0] != "";
    assert Finish(end) == [] + [[Bare(f)]];
  }

  lemma BareIsEmpty(cell: string)
    ensures Bare(cell) == "" <==> cell == ""
  {
  }

  predicate SpellsSep(word: string) {
    |word| == 3 && word[0] in ['s', 'S'] && word[1] in ['e', 'E'] && word[2] in ['p', 'P']
  }

  lemma HintReads(word: string, d: char, crlf: bool, body: string)
    requires SpellsSep(word) && d !in ['\n', '\r', '\U{2028}', '\U{2029}']
    ensures var text := word + (['=', d] + (if crlf then "\r\n" else "\n") + body);
      SepLine(text) == Some((d, if crlf then 7 else 6)) && text[if crlf then 7 else 6..] == body
  {
  }

  /** Nothing else is taken for a hint. */
  lemma OnlyHintsAreRead(text: string)
    requires SepLine(text).Some?
    ensures var (d, n) := SepLine(text).value;
      && d !in ['\n', '\r', '\U{2028}', '\U{2029}'] && (n == 6 || n == 7) && n <= |text|
      && SpellsSep(text[..3]) && text[..n] == text[..3] + (['=', d] + if n == 7 then "\r\n" else "\n")
  {
  }

  lemma MarkIsStripped(mark: bool, text: string)
    requires text != "" && text[0] != '\U{FEFF}'
    ensures StripBom((if mark then "\U{FEFF}" else "") + text) == text
  {
    assert ("\U{FEFF}" + text)[1..] == text && "" + text == text;
  }

  /** A hint line in any letter case, with or without a byte-order mark, ended by either line break, is obeyed. */
  lemma HintInAnyCase(mark: bool, word: string, d: char, crlf: bool, body: string)
    requires SpellsSep(word) && d !in ['\n', '\r', '\U{2028}', '\U{2029}']
    ensures var text := word + (['=', d] + (if crlf then "\r\n" else "\n") + body);
      Detect((if mark then "\U{FEFF}" else "") + text) == (d, body)
  {
    HintReads(word, d, crlf, body);
    MarkIsStripped(mark, word + (['=', d] + (if crlf then "\r\n" else "\n") + body));
  }

  lemma {:induction false} OccurrencesCount(c: char, s: string)
    ensures Occurrences(c, s) == multiset(s)[c]
  {
    if s != "" {
      OccurrencesCount(c, s[1..]);
      assert s == [s[0]] + s[1..];
    }
  }

  /** Where the first line of a text ends: at a line feed, a carriage return before one, or the end. */
  predicate FirstLineEnds(text: string, n: nat) {
    n <= |text| && EndsLine(text, n) && forall i :: 0 <= i < n ==> !EndsLine(text, i)
  }

  lemma {:induction false} HeaderLineEnds(text: string, i: nat) returns (n: nat)
    requires i <= |text|
    ensures i <= n <= |text| && EndsLine(text, n) && (forall j :: i <= j < n ==> !EndsLine(text, j))
    ensures HeaderLine(text[i..]) == text[i..n]
    decreases |text| - i
  {
    HeaderLineSteps(text, i);
    if EndsLine(text, i) {
      n := i;
    } else {
      n := HeaderLineEnds(text, i + 1);
      assert [text[i]] + text[i + 1..n] == text[i..n];
    }
  }

  /** Without a hint, the delimiter is a semicolon exactly when the first line holds more of them than commas. */
  lemma CommonerDelimiterWins(text: string, n: nat)
    requires (text == "" || text[0] != '\U{FEFF}') && SepLine(text).None? && FirstLineEnds(text, n)
    ensures Detect(text) == (if multiset(text[..n])[';'] > multiset(text[..n])[','] then ';' else ',', text)
  {
    var m := HeaderLineEnds(text, 0);
    assert m == n && text[0..] == text && text[0..n] == text[..n];
    OccurrencesCount(';', text[..n]);
    OccurrencesCount(',', text[..n]);
  }
}
