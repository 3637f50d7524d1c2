/**
 The CSV printer and reader of the analytics exports. `ToCsv` prints a table with an optional
 byte-order mark, an optional `sep=` hint line, and an apostrophe guard on cells a spreadsheet
 would run as a formula; `FromCsv` is the one-pass character scanner that reads it back.
 */
module Csv {
  import opened Wrappers
  import opened Text

  type Row = seq<string>

  const BOM := '\U{FEFF}'

  /** The first characters the formula guard targets: = + - @ tab CR. */
  predicate Trigger(c: char) {
    c == '=' || c == '+' || c == '-' || c == '@' || c == '\t' || c == '\r'
  }

  // ---------------------------------------------------------------- printing

  function Guard(raw: string): string {
    if raw != "" && Trigger(raw[0]) then "'" + raw else raw
  }

  function Unguard(value: string): string {
    if GuardShaped(value) then value[1..] else value
  }

  /** An apostrophe followed by a character the guard targets. */
  predicate GuardShaped(value: string) {
    |value| >= 2 && value[0] == '\'' && Trigger(value[1])
  }

  predicate NeedsQuote(f: string, delimiter: char) {
    '"' in f || '\r' in f || '\n' in f || delimiter in f
  }

  function DoubleQuotes(f: string): string {
    if f == "" then "" else (if f[0] == '"' then "\"\"" else [f[0]]) + DoubleQuotes(f[1..])
  }

  function Escape(raw: string, delimiter: char): string {
    var f := Guard(raw);
    if NeedsQuote(f, delimiter) then "\"" + DoubleQuotes(f) + "\"" else f
  }

  function PrintRow(row: Row, delimiter: char): string {
    if row == [] then ""
    else if |row| == 1 then Escape(row[0], delimiter)
    else Escape(row[0], delimiter) + [delimiter] + PrintRow(row[1..], delimiter)
  }

  function PrintRows(rows: seq<Row>, delimiter: char): string {
    if rows == [] then ""
    else if |rows| == 1 then PrintRow(rows[0], delimiter)
    else PrintRow(rows[0], delimiter) + "\r\n" + PrintRows(rows[1..], delimiter)
  }

  function Hint(delimiter: char): string {
    "sep=" + [delimiter] + "\r\n"
  }

  function ToCsv(headers: Row, rows: seq<Row>, delimiter: char, bom: bool, sepLine: bool): string {
    (if bom then [BOM] else "") + (if sepLine then Hint(delimiter) else "") + PrintRows([headers] + rows, delimiter)
  }

  // ---------------------------------------------------------------- reading

  /** The scanner's variables between two characters. */
  datatype Scan = Scan(rows: seq<Row>, row: Row, field: string, inQuotes: bool)

  const START := Scan([], [], "", false)

  function EndField(st: Scan): Scan {
    st.(row := st.row + [Unguard(st.field)], field := "")
  }

  function EndRow(st: Scan): Scan {
    var row := EndField(st).row;
    Scan(if row == [""] then st.rows else st.rows + [row], [], "", st.inQuotes)
  }

  /** One character that is not the first half of a doubled quote. */
  function Step(st: Scan, ch: char, delimiter: char): Scan {
    if st.inQuotes then
      if ch == '"' then st.(inQuotes := false) else st.(field := st.field + [ch])
    else if ch == '"' && st.field == "" then st.(inQuotes := true)
    else if ch == delimiter then EndField(st)
    else if ch == '\r' then st
    else if ch == '\n' then EndRow(st)
    else st.(field := st.field + [ch])
  }

  predicate DoubledQuote(text: string, st: Scan) {
    st.inQuotes && |text| >= 2 && text[0] == '"' && text[1] == '"'
  }

  function Feed(text: string, delimiter: char, st: Scan): Scan
    decreases |text|
  {
    if text == "" then st
    else if DoubledQuote(text, st) then Feed(text[2..], delimiter, st.(field := st.field + "\""))
    else Feed(text[1..], delimiter, Step(st, text[0], delimiter))
  }

  function Finish(st: Scan): seq<Row> {
    if st.field != "" || st.row != [] then EndRow(st).rows else st.rows
  }

  function ParseRows(text: string, delimiter: char): seq<Row> {
    Finish(Feed(text, delimiter, START))
  }

  function StripBom(input: string): string {
    if input != "" && input[0] == BOM then input[1..] else input
  }

  /** What the regular-expression dot matches: anything but a line terminator. */
  predicate MatchesDot(c: char) {
    c != '\n' && c != '\r' && c != '\U{2028}' && c != '\U{2029}'
  }

  /** The delimiter and length of a leading `sep=` line, in either letter case. */
  function SepLine(text: string): Option<(char, nat)> {
    if |text| >= 6
       && (text[0] == 's' || text[0] == 'S') && (text[1] == 'e' || text[1] == 'E')
       && (text[2] == 'p' || text[2] == 'P') && text[3] == '=' && MatchesDot(text[4])
    then
      if text[5] == '\n' then Some((text[4], 6))
      else if |text| >= 7 && text[5] == '\r' && text[6] == '\n' then Some((text[4], 7))
      else None
    else None
  }

  /** Everything before the first line break. */
  function HeaderLine(text: string): string {
    if text == "" || text[0] == '\n' then ""
    else if |text| >= 2 && text[0] == '\r' && text[1] == '\n' then ""
    else [text[0]] + HeaderLine(text[1..])
  }

  function Occurrences(c: char, s: string): nat {
    if s == "" then 0 else (if s[0] == c then 1 else 0) + Occurrences(c, s[1..])
  }

  function Sniff(text: string): char {
    if Occurrences(';', HeaderLine(text)) > Occurrences(',', HeaderLine(text)) then ';' else ','
  }

  /** The delimiter `FromCsv` settles on and the text it then scans. */
  function Detect(input: string): (char, string) {
    var text := StripBom(input);
    match SepLine(text)
    case Some((d, n)) => (d, text[n..])
    case None => (Sniff(text), text)
  }

  datatype ParsedCsv = ParsedCsv(headers: Row, rows: seq<Row>)

  /** `lower` is the host's case mapping; the header row is trimmed and then lowered. */
  function Heads(headers: Row, lower: string -> string): Row {
    seq(|headers|, i requires 0 <= i < |headers| => lower(Trim(headers[i])))
  }

  function Shift(rows: seq<Row>, lower: string -> string): ParsedCsv {
    if rows == [] then ParsedCsv([], []) else ParsedCsv(Heads(rows[0], lower), rows[1..])
  }

  function Parse(input: string, lower: string -> string): ParsedCsv {
    var (d, text) := Detect(input);
    Shift(ParseRows(text, d), lower)
  }

  predicate EndsLine(text: string, i: nat)
    requires i <= |text|
  {
    i == |text| || text[i] == '\n' || (i + 1 < |text| && text[i] == '\r' && text[i + 1] == '\n')
  }

  lemma HeaderLineSteps(text: string, i: nat)
    requires i <= |text|
    ensures HeaderLine(text[i..]) == if EndsLine(text, i) then "" else [text[i]] + HeaderLine(text[i + 1..])
  {
    if i < |text| {
      assert text[i..][1..] == text[i + 1..] && text[i..][0] == text[i];
    }
  }

  method HeaderLineOf(text: string) returns (line: string)
    ensures line == HeaderLine(text)
  {
    var i := 0;
    while i < |text| && text[i] != '\n' && !(i + 1 < |text| && text[i] == '\r' && text[i + 1] == '\n')
      invariant 0 <= i <= |text|
      invariant HeaderLine(text) == text[..i] + HeaderLine(text[i..])
    {
      HeaderLineSteps(text, i);
      assert text[..i] + ([text[i]] + HeaderLine(text[i + 1..])) == text[..i + 1] + HeaderLine(text[i + 1..]);
      i := i + 1;
    }
    HeaderLineSteps(text, i);
    line := text[..i];
  }

  method Count(c: char, s: string) returns (n: nat)
    ensures n == Occurrences(c, s)
  {
    n := 0;
    for i := 0 to |s|
      invariant n + Occurrences(c, s[i..]) == Occurrences(c, s)
    {
      assert s[i..][1..] == s[i + 1..];
      if s[i] == c { n := n + 1; }
    }
  }

  lemma FeedAt(text: string, i: nat, d: char, st: Scan)
    requires i < |text|
    ensures Feed(text[i..], d, st) ==
            if DoubledQuote(text[i..], st) then Feed(text[i + 2..], d, st.(field := st.field + "\""))
            else Feed(text[i + 1..], d, Step(st, text[i], d))
  {
    assert text[i..][1..] == text[i + 1..];
    if i + 2 <= |text| { assert text[i..][2..] == text[i + 2..]; }
  }

  /** The scanner as the source runs it: four variables, one pass, one character of lookahead. */
  method ScanRows(text: string, delimiter: char) returns (rows: seq<Row>)
    ensures rows == ParseRows(text, delimiter)
  {
    rows := [];
    var row: Row, field, inQuotes := [], "", false;
    var i := 0;
    while i < |text|
      invariant 0 <= i <= |text|
      invariant Feed(text[i..], delimiter, Scan(rows, row, field, inQuotes)) == Feed(text, delimiter, START)
    {
      FeedAt(text, i, delimiter, Scan(rows, row, field, inQuotes));
      var ch := text[i];
      if inQuotes {
        if ch == '"' {
          if i + 1 < |text| && text[i + 1] == '"' {
            field := field + "\"";
            i := i + 1;
          } else {
            inQuotes := false;
          }
        } else {
          field := field + [ch];
        }
      } else if ch == '"' && field == "" {
        inQuotes := true;
      } else if ch == delimiter {
        row, field := row + [Unguard(field)], "";
      } else if ch == '\r' {
      } else if ch == '\n' {
        row, field := row + [Unguard(field)], "";
        if !(|row| == 1 && row[0] == "") { rows := rows + [row]; }
        row := [];
      } else {
        field := field + [ch];
      }
      i := i + 1;
    }
    if field != "" || |row| > 0 {
      row, field := row + [Unguard(field)], "";
      if !(|row| == 1 && row[0] == "") { rows := rows + [row]; }
    }
  }

  method FromCsv(input: string, lower: string -> string) returns (parsed: ParsedCsv)
    ensures parsed == Parse(input, lower)
  {
    var text := StripBom(input);
    var delimiter: char;
    match SepLine(text) {
      case Some((d, n)) =>
        delimiter, text := d, text[n..];
      case None =>
        var line := HeaderLineOf(text);
        var semis := Count(';', line);
        var commas := Count(',', line);
        delimiter := if semis > commas then ';' else ',';
    }
    var rows := ScanRows(text, delimiter);
    if rows == [] {
      parsed := ParsedCsv([], []);
    } else {
      parsed := ParsedCsv(Heads(rows[0], lower), rows[1..]);
    }
  }

  // ---------------------------------------------------------------- the round trip

  /** A cell after one trip through the guard and back. */
  function Returned(raw: string): string {
    Unguard(Guard(raw))
  }

  function ReturnedRow(row: Row): (r: Row)
    ensures |r| == |row|
  {
    seq(|row|, i requires 0 <= i < |row| => Returned(row[i]))
  }

  predicate Blank(row: Row) {
    row == [] || row == [""]
  }

  function Kept(row: Row): seq<Row> {
    if Blank(row) then [] else [ReturnedRow(row)]
  }

  /** The rows that come back: blank ones gone, every other one cell for cell. */
  function ReturnedRows(rows: seq<Row>): seq<Row> {
    if rows == [] then []
    else Kept(rows[0]) + ReturnedRows(rows[1..])
  }

  predicate UsableDelimiter(d: char) {
    d != '"' && d != '\r' && d != '\n'
  }

  /** Where a printed field or row may stop. */
  predicate Boundary(rest: string, d: char) {
    rest == "" || rest[0] == d || rest[0] == '\r'
  }

  lemma ReturnedSpares(raw: string)
    ensures Returned(raw) == raw <==> !GuardShaped(raw)
    ensures GuardShaped(raw) ==> Returned(raw) == raw[1..]
    ensures Returned(raw) == "" <==> raw == ""
  {
    if raw != "" && Trigger(raw[0]) {
      assert ("'" + raw)[1..] == raw;
    }
    if GuardShaped(raw) {
      assert |raw[1..]| != |raw|;
    }
  }

  lemma {:induction false} FeedPlain(f: string, rest: string, d: char, st: Scan)
    requires !NeedsQuote(f, d) && !st.inQuotes
    ensures Feed(f + rest, d, st) == Feed(rest, d, st.(field := st.field + f))
    decreases |f|
  {
    if f == "" {
      assert f + rest == rest && st.field + f == st.field;
    } else {
      assert (f + rest)[1..] == f[1..] + rest;
      FeedPlain(f[1..], rest, d, st.(field := st.field + [f[0]]));
      assert st.field + [f[0]] + f[1..] == st.field + f;
    }
  }

  lemma {:induction false} FeedQuoted(f: string, rest: string, d: char, st: Scan)
    requires st.inQuotes && (rest == "" || rest[0] != '"')
    ensures Feed(DoubleQuotes(f) + "\"" + rest, d, st) == Feed(rest, d, st.(field := st.field + f, inQuotes := false))
    decreases |f|
  {
    var text := DoubleQuotes(f) + "\"" + rest;
    if f == "" {
      assert text[1..] == rest && st.field + f == st.field;
    } else {
      var tail := DoubleQuotes(f[1..]) + "\"" + rest;
      assert st.field + [f[0]] + f[1..] == st.field + f;
      if f[0] == '"' {
        assert text[2..] == tail;
      } else {
        assert text[1..] == tail;
      }
      FeedQuoted(f[1..], rest, d, st.(field := st.field + [f[0]]));
    }
  }

  lemma FeedOne(ch: char, rest: string, d: char, st: Scan)
    requires !DoubledQuote([ch] + rest, st)
    ensures Feed([ch] + rest, d, st) == Feed(rest, d, Step(st, ch, d))
  {
    assert ([ch] + rest)[1..] == rest;
  }

  lemma FeedField(raw: string, rest: string, d: char, st: Scan)
    requires UsableDelimiter(d) && Boundary(rest, d)
    requires !st.inQuotes && st.field == ""
    ensures Feed(Escape(raw, d) + rest, d, st) == Feed(rest, d, st.(field := Guard(raw)))
  {
    var f := Guard(raw);
    assert "" + f == f;
    if NeedsQuote(f, d) {
      var body := DoubleQuotes(f) + "\"" + rest;
      assert Escape(raw, d) + rest == ['"'] + body;
      FeedOne('"', body, d, st);
      FeedQuoted(f, rest, d, st.(inQuotes := true));
    } else {
      FeedPlain(f, rest, d, st);
    }
  }

  /** Scanning one printed row leaves its last field pending and the others closed. */
  lemma {:induction false} FeedRow(row: Row, rest: string, d: char, st: Scan)
    requires UsableDelimiter(d) && (rest == "" || rest[0] == '\r')
    requires !st.inQuotes && st.field == "" && row != []
    ensures Feed(PrintRow(row, d) + rest, d, st) ==
            Feed(rest, d, st.(row := st.row + ReturnedRow(row)[..|row| - 1], field := Guard(row[|row| - 1])))
    decreases |row|
  {
    if |row| == 1 {
      FeedField(row[0], rest, d, st);
      assert st.row + ReturnedRow(row)[..0] == st.row;
    } else {
      FeedFirstField(row, rest, d, st);
      FeedRow(row[1..], rest, d, st.(row := st.row + [Returned(row[0])]));
      RowSplits(row, st.row);
    }
  }

  lemma FeedFirstField(row: Row, rest: string, d: char, st: Scan)
    requires UsableDelimiter(d) && !st.inQuotes && st.field == "" && |row| > 1
    ensures Feed(PrintRow(row, d) + rest, d, st) ==
            Feed(PrintRow(row[1..], d) + rest, d, st.(row := st.row + [Returned(row[0])]))
  {
    var tail := PrintRow(row[1..], d) + rest;
    FeedField(row[0], [d] + tail, d, st);
    FeedOne(d, tail, d, st.(field := Guard(row[0])));
    AppendAssociates(Escape(row[0], d), [d], PrintRow(row[1..], d), rest);
  }

  lemma AppendAssociates(a: string, b: string, c: string, e: string)
    ensures a + b + c + e == a + (b + (c + e))
  {
  }

  lemma RowSplits(row: Row, acc: Row)
    requires |row| > 1
    ensures acc + [Returned(row[0])] + ReturnedRow(row[1..])[..|row| - 2] == acc + ReturnedRow(row)[..|row| - 1]
    ensures row[1..][|row| - 2] == row[|row| - 1]
  {
  }

  /** Closing a printed row appends it, unless it is blank. */
  lemma CloseRow(row: Row, acc: seq<Row>)
    requires row != []
    ensures EndRow(Scan(acc, ReturnedRow(row)[..|row| - 1], Guard(row[|row| - 1]), false)) ==
            Scan(acc + Kept(row), [], "", false)
  {
    var got := ReturnedRow(row)[..|row| - 1] + [Unguard(Guard(row[|row| - 1]))];
    assert got == ReturnedRow(row);
    ReturnedSpares(row[0]);
    assert got == [""] <==> row == [""];
    assert acc + [] == acc;
  }

  /** The scanner after a printed row and before whatever follows it. */
  function Pending(row: Row, acc: seq<Row>): Scan {
    if row == [] then Scan(acc, [], "", false)
    else Scan(acc, ReturnedRow(row)[..|row| - 1], Guard(row[|row| - 1]), false)
  }

  lemma FeedPrintedRow(row: Row, rest: string, d: char, acc: seq<Row>)
    requires UsableDelimiter(d) && (rest == "" || rest[0] == '\r')
    ensures Feed(PrintRow(row, d) + rest, d, Scan(acc, [], "", false)) == Feed(rest, d, Pending(row, acc))
    ensures EndRow(Pending(row, acc)) == Scan(acc + Kept(row), [], "", false)
    ensures Finish(Pending(row, acc)) == acc + Kept(row)
  {
    if row == [] {
      assert PrintRow(row, d) + rest == rest;
    } else {
      FeedRow(row, rest, d, Scan(acc, [], "", false));
      assert [] + ReturnedRow(row)[..|row| - 1] == ReturnedRow(row)[..|row| - 1];
      CloseRow(row, acc);
      ReturnedSpares(row[|row| - 1]);
    }
    assert acc + [] == acc;
  }

  lemma RowsAssociate(a: seq<Row>, b: seq<Row>, c: seq<Row>)
    ensures a + b + c == a + (b + c)
  {
  }

  lemma FeedFirstRow(rows: seq<Row>, d: char, acc: seq<Row>)
    requires UsableDelimiter(d) && |rows| > 1
    ensures Feed(PrintRows(rows, d), d, Scan(acc, [], "", false)) ==
            Feed(PrintRows(rows[1..], d), d, Scan(acc + Kept(rows[0]), [], "", false))
  {
    var next := PrintRows(rows[1..], d);
    FeedPrintedRow(rows[0], ['\r'] + (['\n'] + next), d, acc);
    BreakSplits(PrintRow(rows[0], d), next);
    FeedBreak(next, d, Pending(rows[0], acc));
  }

  lemma BreakSplits(line: string, rest: string)
    ensures line + "\r\n" + rest == line + (['\r'] + (['\n'] + rest))
  {
  }

  lemma FeedBreak(rest: string, d: char, st: Scan)
    requires UsableDelimiter(d) && !st.inQuotes
    ensures Feed(['\r'] + (['\n'] + rest), d, st) == Feed(rest, d, EndRow(st))
  {
    FeedOne('\r', ['\n'] + rest, d, st);
    FeedOne('\n', rest, d, st);
  }

  lemma {:induction false} FeedRows(rows: seq<Row>, d: char, acc: seq<Row>)
    requires UsableDelimiter(d) && rows != []
    ensures Finish(Feed(PrintRows(rows, d), d, Scan(acc, [], "", false))) == acc + ReturnedRows(rows)
    decreases |rows|
  {
    var row, tail := rows[0], rows[1..];
    var st := Scan(acc, [], "", false);
    RowsAssociate(acc, Kept(row), ReturnedRows(tail));
    if |rows| == 1 {
      FeedPrintedRow(row, "", d, acc);
      assert PrintRow(row, d) + "" == PrintRow(row, d);
      assert ReturnedRows(rows) == Kept(row);
    } else {
      FeedFirstRow(rows, d, acc);
      FeedRows(tail, d, acc + Kept(row));
    }
  }

  /** Scanning the printed body with the delimiter it was printed with. */
  lemma BodyReturns(headers: Row, rows: seq<Row>, d: char)
    requires UsableDelimiter(d)
    ensures ParseRows(PrintRows([headers] + rows, d), d) == ReturnedRows([headers] + rows)
  {
    FeedRows([headers] + rows, d, []);
    assert [] + ReturnedRows([headers] + rows) == ReturnedRows([headers] + rows);
  }

  /** What a reader sees of a printed table. */
  function Expected(headers: Row, rows: seq<Row>, lower: string -> string): ParsedCsv {
    if Blank(headers) then Shift(ReturnedRows(rows), lower)
    else ParsedCsv(Heads(ReturnedRow(headers), lower), ReturnedRows(rows))
  }

  lemma ExpectedIsShift(headers: Row, rows: seq<Row>, lower: string -> string)
    ensures Shift(ReturnedRows([headers] + rows), lower) == Expected(headers, rows, lower)
  {
    var all := [headers] + rows;
    assert all[1..] == rows;
    if !Blank(headers) {
      assert ReturnedRows(all)[1..] == ReturnedRows(rows);
    } else {
      assert [] + ReturnedRows(rows) == ReturnedRows(rows);
    }
  }

  /** The hint line is read back, whatever the letter case, exactly when the dot matches the delimiter. */
  lemma HintIsRead(d: char, body: string)
    ensures SepLine(Hint(d) + body) == if MatchesDot(d) then Some((d, 7)) else None
    ensures (Hint(d) + body)[7..] == body
  {
  }

  /**
   The round trip with a `sep=` line: every table, every delimiter the hint can carry, with or
   without a byte-order mark.
   */
  lemma RoundTripWithHint(headers: Row, rows: seq<Row>, d: char, bom: bool, lower: string -> string)
    requires d != '"' && MatchesDot(d)
    ensures Parse(ToCsv(headers, rows, d, bom, true), lower) == Expected(headers, rows, lower)
  {
    var body := PrintRows([headers] + rows, d);
    var text := Hint(d) + body;
    assert ToCsv(headers, rows, d, bom, true) == (if bom then [BOM] else "") + text;
    assert StripBom(ToCsv(headers, rows, d, bom, true)) == text;
    HintIsRead(d, body);
    BodyReturns(headers, rows, d);
    ExpectedIsShift(headers, rows, lower);
  }

  /**
   Without the hint, the same holds whenever detection finds the body and the delimiter that was
   used; `DetectsWithoutHint` says when that is.
   */
  lemma RoundTripWithoutHint(headers: Row, rows: seq<Row>, d: char, bom: bool, lower: string -> string)
    requires UsableDelimiter(d)
    requires Detect(ToCsv(headers, rows, d, bom, false)) == (d, PrintRows([headers] + rows, d))
    ensures Parse(ToCsv(headers, rows, d, bom, false), lower) == Expected(headers, rows, lower)
  {
    BodyReturns(headers, rows, d);
    ExpectedIsShift(headers, rows, lower);
  }

  /**
   Detection without a hint: exactly when the printed body, less a leading byte-order mark it was
   not given, is whole, does not itself read as a hint line, and sniffs as the delimiter used.
   */
  lemma DetectsWithoutHint(headers: Row, rows: seq<Row>, d: char, bom: bool)
    ensures var body := PrintRows([headers] + rows, d);
            Detect(ToCsv(headers, rows, d, bom, false)) == (d, body) <==>
            (bom || body == "" || body[0] != BOM) && SepLine(body).None? && Sniff(body) == d
  {
    var body := PrintRows([headers] + rows, d);
    var printed := ToCsv(headers, rows, d, bom, false);
    assert printed == (if bom then [BOM] else "") + body;
    if bom {
      assert printed[1..] == body;
    } else {
      assert printed == body;
    }
    if SepLine(StripBom(printed)).Some? {
      assert |Detect(printed).1| < |StripBom(printed)| <= |body|;
    }
  }

  /** No row is blank and no cell is already apostrophe-plus-trigger. */
  predicate Faithful(rows: seq<Row>) {
    forall i :: 0 <= i < |rows| ==> !Blank(rows[i]) && forall j :: 0 <= j < |rows[i]| ==> !GuardShaped(rows[i][j])
  }

  lemma ReturnedRowSpares(row: Row)
    ensures ReturnedRow(row) == row <==> forall j :: 0 <= j < |row| ==> !GuardShaped(row[j])
  {
    forall j | 0 <= j < |row| ensures ReturnedRow(row)[j] == row[j] <==> !GuardShaped(row[j]) {
      ReturnedSpares(row[j]);
    }
  }

  lemma {:induction false} ReturnedCount(rows: seq<Row>)
    ensures |ReturnedRows(rows)| <= |rows|
    decreases |rows|
  {
    if rows != [] { ReturnedCount(rows[1..]); }
  }

  /** The rows come back unchanged exactly when none is blank and no cell is guard-shaped. */
  lemma {:induction false} RowsReturnExactly(rows: seq<Row>)
    ensures ReturnedRows(rows) == rows <==> Faithful(rows)
    decreases |rows|
  {
    if rows != [] {
      RowsReturnExactly(rows[1..]);
      ReturnedRowSpares(rows[0]);
      ReturnedCount(rows[1..]);
      var tail := rows[1..];
      assert forall i :: 0 <= i < |tail| ==> tail[i] == rows[i + 1];
      assert Faithful(rows) <==> Faithful(rows[..1]) && Faithful(tail) by {
        if Faithful(rows[..1]) && Faithful(tail) {
          forall i | 0 <= i < |rows|
            ensures !Blank(rows[i]) && forall j :: 0 <= j < |rows[i]| ==> !GuardShaped(rows[i][j])
          {
            if i == 0 { assert rows[..1][0] == rows[0]; } else { assert tail[i - 1] == rows[i]; }
          }
        }
      }
      assert rows == [rows[0]] + tail;
      if !Blank(rows[0]) {
        assert ReturnedRows(rows) == [ReturnedRow(rows[0])] + ReturnedRows(tail);
        assert ReturnedRows(rows) == rows ==> ReturnedRows(rows)[0] == rows[0] && ReturnedRows(rows)[1..] == tail;
      }
    }
  }

  /**
   The promise in one line: with a hint, the rows come back unchanged exactly when they are
   faithful, and the header names, none of them guard-shaped, come back trimmed and lowered.
   */
  lemma TableReturnsExactly(headers: Row, rows: seq<Row>, d: char, bom: bool, lower: string -> string)
    requires d != '"' && MatchesDot(d) && !Blank(headers)
    ensures var got := Parse(ToCsv(headers, rows, d, bom, true), lower);
            && (got.rows == rows <==> Faithful(rows))
            && ((forall j :: 0 <= j < |headers| ==> !GuardShaped(headers[j])) ==>
                && |got.headers| == |headers|
                && forall j :: 0 <= j < |headers| ==> got.headers[j] == lower(Trim(headers[j])))
  {
    RoundTripWithHint(headers, rows, d, bom, lower);
    RowsReturnExactly(rows);
    ReturnedRowSpares(headers);
  }

  /**
   A line-separator delimiter breaks the promise: the hint line is not recognised, so it is read
   as the header row, whatever the table.
   */
  lemma LineSeparatorHintBecomesHeader(headers: Row, rows: seq<Row>, d: char, bom: bool, lower: string -> string)
    requires d == '\U{2028}' || d == '\U{2029}'
    ensures Parse(ToCsv(headers, rows, d, bom, true), lower).headers == [lower("sep=")]
  {
    var input := ToCsv(headers, rows, d, bom, true);
    var line := HintText(d);
    HintTextIsPlain(d);
    HintTextTrims(d);
    UnreadHintDetects(headers, rows, d, bom);
    FirstLineIsHeader(input, line, PrintRows([headers] + rows, d), lower);
  }

  function HintText(d: char): string { "sep=" + [d] }

  lemma HintTextIsPlain(d: char)
    requires d == '\U{2028}' || d == '\U{2029}'
    ensures !NeedsQuote(HintText(d), ',') && ';' !in HintText(d)
    ensures HintText(d) != "" && HintText(d)[0] != '\''
  {
    var t := HintText(d);
    assert t[0] == 's' && t[1] == 'e' && t[2] == 'p' && t[3] == '=' && t[4] == d;
  }

  lemma HintTextTrims(d: char)
    requires d == '\U{2028}' || d == '\U{2029}'
    ensures Trim(HintText(d)) == "sep="
  {
    TrimDropsLast("sep=", d);
  }

  lemma FirstLineIsHeader(input: string, line: string, body: string, lower: string -> string)
    requires Detect(input) == (',', line + "\r\n" + body)
    requires !NeedsQuote(line, ',') && line != "" && line[0] != '\''
    ensures Parse(input, lower).headers == [lower(Trim(line))]
  {
    FirstLineCloses(line, body);
    FeedKeepsRows(body, ',', Scan([[line]], [], "", false));
    assert Heads([line], lower) == [lower(Trim(line))];
  }

  lemma UnreadHintDetects(headers: Row, rows: seq<Row>, d: char, bom: bool)
    requires d == '\U{2028}' || d == '\U{2029}'
    ensures Detect(ToCsv(headers, rows, d, bom, true)) ==
            (',', HintText(d) + "\r\n" + PrintRows([headers] + rows, d))
  {
    var body := PrintRows([headers] + rows, d);
    var text := Hint(d) + body;
    assert ToCsv(headers, rows, d, bom, true) == (if bom then [BOM] else "") + text;
    assert StripBom(ToCsv(headers, rows, d, bom, true)) == text;
    HintIsRead(d, body);
    assert text == HintText(d) + "\r\n" + body;
    HintTextIsPlain(d);
    HintLineSniffs(HintText(d), body);
  }

  lemma TrimDropsLast(s: string, c: char)
    requires s != "" && !IsSpace(s[0]) && !IsSpace(s[|s| - 1]) && IsSpace(c)
    ensures Trim(s + [c]) == s
  {
    assert TrimStart(s + [c]) == s + [c];
    assert (s + [c])[..|s|] == s;
    assert TrimEnd(s) == s;
  }

  lemma FirstLineCloses(hint: string, body: string)
    requires !NeedsQuote(hint, ',') && hint != "" && hint[0] != '\''
    ensures Feed(hint + "\r\n" + body, ',', START) == Feed(body, ',', Scan([[hint]], [], "", false))
  {
    var tail := ['\r'] + (['\n'] + body);
    assert hint + "\r\n" + body == hint + tail;
    FeedPlain(hint, tail, ',', START);
    assert "" + hint == hint;
    FeedBreak(body, ',', START.(field := hint));
    assert EndField(START.(field := hint)).row == [hint];
    assert [] + [[hint]] == [[hint]];
  }

  lemma HintLineSniffs(hint: string, body: string)
    requires '\r' !in hint && '\n' !in hint && ';' !in hint
    ensures Sniff(hint + "\r\n" + body) == ','
  {
    var rest := "\r\n" + body;
    assert hint + "\r\n" + body == hint + rest;
    PlainPrefix(hint, rest);
    assert HeaderLine(rest) == "";
    assert hint + "" == hint;
    NoneOccur(';', hint);
  }

  /** Rows already closed are never touched again. */
  lemma {:induction false} FeedKeepsRows(text: string, d: char, st: Scan)
    requires st.rows != []
    ensures Feed(text, d, st).rows != [] && Feed(text, d, st).rows[0] == st.rows[0]
    ensures Finish(Feed(text, d, st)) != [] && Finish(Feed(text, d, st))[0] == st.rows[0]
    decreases |text|
  {
    if text != "" {
      if DoubledQuote(text, st) {
        FeedKeepsRows(text[2..], d, st.(field := st.field + "\""));
      } else {
        FeedKeepsRows(text[1..], d, Step(st, text[0], d));
      }
    }
  }

  // ---------------------------------------------------------------- the two presets

  /** `EXCEL_CSV`: semicolons, byte-order mark and hint line. Every table comes back. */
  lemma ExcelPresetRoundTrips(headers: Row, rows: seq<Row>, lower: string -> string)
    ensures Parse(ToCsv(headers, rows, ';', true, true), lower) == Expected(headers, rows, lower)
  {
    RoundTripWithHint(headers, rows, ';', true, lower);
  }

  lemma {:induction false} PlainRowSniffs(row: Row, rest: string)
    requires forall i :: 0 <= i < |row| ==> !NeedsQuote(Guard(row[i]), ',') && ';' !in row[i]
    requires rest == "" || (|rest| >= 2 && rest[0] == '\r' && rest[1] == '\n')
    ensures ';' !in HeaderLine(PrintRow(row, ',') + rest)
    decreases |row|
  {
    if row == [] {
      assert PrintRow(row, ',') + rest == rest;
    } else {
      var f := Guard(row[0]);
      var more := if |row| == 1 then rest else [','] + (PrintRow(row[1..], ',') + rest);
      assert PrintRow(row, ',') + rest == f + more;
      PlainPrefix(f, more);
      if |row| > 1 {
        PlainRowSniffs(row[1..], rest);
        assert more[1..] == PrintRow(row[1..], ',') + rest;
      }
    }
  }

  lemma {:induction false} PlainPrefix(f: string, rest: string)
    requires '\r' !in f && '\n' !in f
    ensures HeaderLine(f + rest) == f + HeaderLine(rest)
    decreases |f|
  {
    if f == "" {
      assert f + rest == rest;
    } else {
      assert (f + rest)[1..] == f[1..] + rest;
      PlainPrefix(f[1..], rest);
    }
  }

  lemma {:induction false} NoneOccur(c: char, s: string)
    requires c !in s
    ensures Occurrences(c, s) == 0
    decreases |s|
  {
    if s != "" { NoneOccur(c, s[1..]); }
  }

  /**
   `INTERCHANGE_CSV`: commas, byte-order mark, no hint line. It comes back for every table whose
   header names are plain: nothing to quote, no semicolon, no equals sign.
   */
  lemma InterchangePresetRoundTrips(headers: Row, rows: seq<Row>, lower: string -> string)
    requires forall i :: 0 <= i < |headers| ==>
               !NeedsQuote(Guard(headers[i]), ',') && ';' !in headers[i] && '=' !in headers[i]
    requires !Blank(headers)
    ensures Parse(ToCsv(headers, rows, ',', true, false), lower) == Expected(headers, rows, lower)
  {
    var rest := if rows == [] then "" else "\r\n" + PrintRows(rows, ',');
    var body := PrintRows([headers] + rows, ',');
    assert ([headers] + rows)[1..] == rows;
    assert body == PrintRow(headers, ',') + rest;
    PlainRowSniffs(headers, rest);
    NoneOccur(';', HeaderLine(body));
    PlainRowHasNoEquals(headers);
    NoHintWithoutEquals(PrintRow(headers, ','), rest);
    DetectsWithoutHint(headers, rows, ',', true);
    RoundTripWithoutHint(headers, rows, ',', true, lower);
  }

  lemma NoHintWithoutEquals(line: string, rest: string)
    requires '=' !in line
    requires rest == "" || rest[0] == '\r'
    ensures SepLine(line + rest).None?
  {
    var text := line + rest;
    if |text| > 3 && |line| > 3 {
      assert text[3] == line[3] && line[3] in line;
    } else if |text| > 3 {
      assert text[|line|] == rest[0];
    }
  }

  lemma {:induction false} PlainRowHasNoEquals(row: Row)
    requires forall i :: 0 <= i < |row| ==> !NeedsQuote(Guard(row[i]), ',') && '=' !in row[i]
    ensures '=' !in PrintRow(row, ',')
    decreases |row|
  {
    if |row| > 1 { PlainRowHasNoEquals(row[1..]); }
  }
}
