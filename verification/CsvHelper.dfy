/** The CSV printer and the character state machine that reads it back (src/records/CsvHelper.ts). */
module CsvHelper {
  import opened Strings

  type Row = seq<string>

  /** A record as the printer sees it: a missing column is undefined. */
  type Item = map<string, string>

  // ---------------------------------------------------------------- printing

  predicate NeedsQuotes(v: string, d: char) {
    '"' in v || d in v || '\n' in v || '\r' in v
  }

  function Escape(v: string, d: char): string {
    if NeedsQuotes(v, d) then "\"" + ReplaceChar(v, '"', "\"\"") + "\"" else v
  }

  function Escaped(cells: Row, d: char): seq<string> {
    seq(|cells|, i requires 0 <= i < |cells| => Escape(cells[i], d))
  }

  function RowText(cells: Row, d: char): string {
    Join(Escaped(cells, d), [d])
  }

  function Cells(headers: seq<string>, item: Item): Row {
    seq(|headers|, i requires 0 <= i < |headers| => if headers[i] in item then item[headers[i]] else "")
  }

  function DataRows(headers: seq<string>, items: seq<Item>): seq<Row> {
    seq(|items|, i requires 0 <= i < |items| => Cells(headers, items[i]))
  }

  function Table(headers: seq<string>, items: seq<Item>): seq<Row> {
    [headers] + DataRows(headers, items)
  }

  function TableText(rows: seq<Row>, d: char): string {
    Join(seq(|rows|, i requires 0 <= i < |rows| => RowText(rows[i], d)), "\r\n")
  }

  method EscapeRow(cells: Row, d: char) returns (line: string)
    ensures line == RowText(cells, d)
  {
    var escaped: seq<string> := [];
    for k := 0 to |cells|
      invariant escaped == Escaped(cells, d)[..k]
    {
      escaped := escaped + [Escape(cells[k], d)];
    }
    assert escaped == Escaped(cells, d);
    return Join(escaped, [d]);
  }

  method Serialize(headers: seq<string>, items: seq<Item>, d: char) returns (text: string)
    ensures text == TableText(Table(headers, items), d)
  {
    var table := Table(headers, items);
    var head := EscapeRow(headers, d);
    var lines := [head];
    for k := 0 to |items|
      invariant |lines| == k + 1
      invariant forall i :: 0 <= i <= k ==> lines[i] == RowText(table[i], d)
    {
      var line := EscapeRow(Cells(headers, items[k]), d);
      lines := lines + [line];
    }
    assert lines == seq(|table|, i requires 0 <= i < |table| => RowText(table[i], d));
    return Join(lines, "\r\n");
  }

  // ---------------------------------------------------------------- reading

  datatype Reader = Reader(rows: seq<Row>, row: Row, cell: string, inQuotes: bool)

  function EndCell(s: Reader): Reader {
    s.(row := s.row + [s.cell], cell := "")
  }

  function EndRow(s: Reader): Reader {
    s.(rows := s.rows + [s.row + [s.cell]], row := [], cell := "")
  }

  function Consume(t: string, d: char, s: Reader): Reader
    decreases |t|
  {
    if t == "" then s
    else if s.inQuotes then
      if t[0] == '"' then
        if |t| > 1 && t[1] == '"' then Consume(t[2..], d, s.(cell := s.cell + "\""))
        else Consume(t[1..], d, s.(inQuotes := false))
      else Consume(t[1..], d, s.(cell := s.cell + [t[0]]))
    else if t[0] == '"' then Consume(t[1..], d, s.(inQuotes := true))
    else if t[0] == d then Consume(t[1..], d, EndCell(s))
    else if t[0] == '\r' then Consume(if |t| > 1 && t[1] == '\n' then t[2..] else t[1..], d, EndRow(s))
    else if t[0] == '\n' then Consume(t[1..], d, EndRow(s))
    else Consume(t[1..], d, s.(cell := s.cell + [t[0]]))
  }

  const EMPTY := Reader([], [], "", false)

  function AllRows(text: string, d: char): (rows: seq<Row>)
    ensures rows != []
  {
    EndRow(Consume(text, d, EMPTY)).rows
  }

  predicate EndsWithBlankLine(rows: seq<Row>, text: string)
    requires rows != []
  {
    rows[|rows| - 1] == [""] && text != "" && text[|text| - 1] == '\n'
  }

  function Parsed(text: string, d: char): seq<Row> {
    var rows := AllRows(text, d);
    if EndsWithBlankLine(rows, text) then rows[..|rows| - 1] else rows
  }

  method ParseRawRows(csvText: string, d: char) returns (rows: seq<Row>)
    ensures rows == Parsed(csvText, d)
  {
    rows := [];
    var currentRow: Row := [];
    var currentCell := "";
    var inQuotes := false;
    var i, len := 0, |csvText|;
    while i < len
      invariant 0 <= i <= len
      invariant Consume(csvText[i..], d, Reader(rows, currentRow, currentCell, inQuotes)) == Consume(csvText, d, EMPTY)
    {
      var c := csvText[i];
      if inQuotes {
        if c == '"' {
          if i + 1 < len && csvText[i + 1] == '"' {
            currentCell := currentCell + "\"";
            i := i + 2;
          } else {
            inQuotes := false;
            i := i + 1;
          }
        } else {
          currentCell := currentCell + [c];
          i := i + 1;
        }
      } else {
        if c == '"' {
          inQuotes := true;
          i := i + 1;
        } else if c == d {
          currentRow, currentCell := currentRow + [currentCell], "";
          i := i + 1;
        } else if c == '\r' {
          if i + 1 < len && csvText[i + 1] == '\n' {
            i := i + 1;
          }
          rows, currentRow, currentCell := rows + [currentRow + [currentCell]], [], "";
          i := i + 1;
        } else if c == '\n' {
          rows, currentRow, currentCell := rows + [currentRow + [currentCell]], [], "";
          i := i + 1;
        } else {
          currentCell := currentCell + [c];
          i := i + 1;
        }
      }
    }
    currentRow := currentRow + [currentCell];
    rows := rows + [currentRow];
    var last := rows[|rows| - 1];
    if |last| == 1 && last[0] == "" && len > 0 && csvText[len - 1] == '\n' {
      rows := rows[..|rows| - 1];
    }
  }

  // ---------------------------------------------------------------- reading what was printed

  /** What may follow a cell: not a quote, which would continue a quoted one. */
  predicate Follows(rest: string) {
    rest == "" || rest[0] != '"'
  }

  lemma {:induction false} ReadPlain(v: string, rest: string, d: char, s: Reader)
    requires !NeedsQuotes(v, d) && !s.inQuotes
    ensures Consume(v + rest, d, s) == Consume(rest, d, s.(cell := s.cell + v))
    decreases |v|
  {
    if v == "" {
      assert v + rest == rest && s.cell + v == s.cell;
    } else {
      assert (v + rest)[1..] == v[1..] + rest;
      assert v[0] in v && !NeedsQuotes(v[1..], d);
      ReadPlain(v[1..], rest, d, s.(cell := s.cell + [v[0]]));
      assert s.cell + [v[0]] + v[1..] == s.cell + v;
    }
  }

  lemma {:induction false} ReadQuoted(v: string, rest: string, d: char, s: Reader)
    requires s.inQuotes && Follows(rest)
    ensures Consume(ReplaceChar(v, '"', "\"\"") + "\"" + rest, d, s)
        == Consume(rest, d, s.(cell := s.cell + v, inQuotes := false))
    decreases |v|
  {
    var text := ReplaceChar(v, '"', "\"\"") + "\"" + rest;
    if v == "" {
      assert text == "\"" + rest && text[1..] == rest && s.cell + v == s.cell;
    } else {
      var tail := ReplaceChar(v[1..], '"', "\"\"") + "\"" + rest;
      assert text == (if v[0] == '"' then "\"\"" else [v[0]]) + tail;
      assert text[if v[0] == '"' then 2 else 1..] == tail;
      ReadQuoted(v[1..], rest, d, s.(cell := s.cell + [v[0]]));
      assert s.cell + [v[0]] + v[1..] == s.cell + v;
    }
  }

  /** Reading a printed cell collects exactly that cell. */
  lemma ReadCell(v: string, rest: string, d: char, s: Reader)
    requires !s.inQuotes && s.cell == "" && Follows(rest)
    ensures Consume(Escape(v, d) + rest, d, s) == Consume(rest, d, s.(cell := v))
  {
    if NeedsQuotes(v, d) {
      var body := ReplaceChar(v, '"', "\"\"") + "\"" + rest;
      assert Escape(v, d) + rest == "\"" + body;
      assert ("\"" + body)[1..] == body;
      ReadQuoted(v, rest, d, s.(inQuotes := true));
    } else {
      ReadPlain(v, rest, d, s);
      assert s.cell + v == v;
    }
  }

  lemma ReadFirstCell(cells: Row, rest: string, d: char, s: Reader)
    requires |cells| > 1 && !s.inQuotes && s.cell == "" && d != '"'
    ensures Consume(RowText(cells, d) + rest, d, s)
        == Consume(RowText(cells[1..], d) + rest, d, EndCell(s.(cell := cells[0])))
  {
    assert Escaped(cells, d)[1..] == Escaped(cells[1..], d);
    var tail := RowText(cells[1..], d) + rest;
    assert RowText(cells, d) + rest == Escape(cells[0], d) + ([d] + tail);
    assert ([d] + tail)[1..] == tail;
    ReadCell(cells[0], [d] + tail, d, s);
  }

  lemma {:induction false} ReadRow(cells: Row, rest: string, d: char, s: Reader)
    requires cells != [] && !s.inQuotes && s.cell == "" && Follows(rest) && (d != '"' || |cells| == 1)
    ensures Consume(RowText(cells, d) + rest, d, s)
         == Consume(rest, d, s.(row := s.row + cells[..|cells| - 1], cell := cells[|cells| - 1]))
    decreases |cells|
  {
    if |cells| == 1 {
      ReadCell(cells[0], rest, d, s);
      assert s.row + cells[..0] == s.row;
    } else {
      var s' := EndCell(s.(cell := cells[0]));
      ReadFirstCell(cells, rest, d, s);
      ReadRow(cells[1..], rest, d, s');
      assert s'.row + cells[1..][..|cells| - 2] == s.row + cells[..|cells| - 1];
    }
  }

  predicate Rectangular(rows: seq<Row>, n: nat) {
    forall i :: 0 <= i < |rows| ==> |rows[i]| == n
  }

  lemma TableTextSplits(rows: seq<Row>, d: char)
    requires |rows| > 1
    ensures TableText(rows, d) == RowText(rows[0], d) + ("\r\n" + TableText(rows[1..], d))
  {
    var lines := seq(|rows|, i requires 0 <= i < |rows| => RowText(rows[i], d));
    assert lines[1..] == seq(|rows[1..]|, i requires 0 <= i < |rows[1..]| => RowText(rows[1..][i], d));
  }

  lemma ReadLineEnd(tail: string, d: char, s: Reader)
    requires !s.inQuotes && d != '\r'
    ensures Consume("\r\n" + tail, d, s) == Consume(tail, d, EndRow(s))
  {
    assert ("\r\n" + tail)[2..] == tail;
  }

  function AtRow(rows: seq<Row>): Reader {
    Reader(rows, [], "", false)
  }

  /** A row and its line end. */
  lemma ReadLine(cells: Row, tail: string, d: char, before: seq<Row>)
    requires cells != [] && d != '\r' && (d != '"' || |cells| == 1)
    ensures Consume(RowText(cells, d) + ("\r\n" + tail), d, AtRow(before)) == Consume(tail, d, AtRow(before + [cells]))
  {
    var n := |cells|;
    ReadRow(cells, "\r\n" + tail, d, AtRow(before));
    var s := Reader(before, [] + cells[..n - 1], cells[n - 1], false);
    assert [] + cells[..n - 1] + [cells[n - 1]] == cells;
    ReadLineEnd(tail, d, s);
  }

  lemma ReadLastLine(cells: Row, d: char, before: seq<Row>)
    requires cells != [] && (d != '"' || |cells| == 1)
    ensures EndRow(Consume(RowText(cells, d), d, AtRow(before))) == AtRow(before + [cells])
  {
    var n := |cells|;
    ReadRow(cells, "", d, AtRow(before));
    assert RowText(cells, d) + "" == RowText(cells, d);
    assert [] + cells[..n - 1] + [cells[n - 1]] == cells;
  }

  lemma {:induction false} ReadRows(rows: seq<Row>, n: nat, d: char, before: seq<Row>)
    requires rows != [] && n > 0 && Rectangular(rows, n)
    requires (d != '"' || n == 1) && (d != '\r' || |rows| == 1)
    ensures EndRow(Consume(TableText(rows, d), d, AtRow(before))) == AtRow(before + rows)
    decreases |rows|
  {
    if |rows| == 1 {
      ReadLastLine(rows[0], d, before);
      assert TableText(rows, d) == RowText(rows[0], d);
      assert rows == [rows[0]];
    } else {
      TableTextSplits(rows, d);
      ReadLine(rows[0], TableText(rows[1..], d), d, before);
      ReadRows(rows[1..], n, d, before + [rows[0]]);
      assert before + [rows[0]] + rows[1..] == before + rows;
    }
  }

  // ---------------------------------------------------------------- when it is not read back

  /** Every row has a cell; with a quote as the delimiter it never has two, because quotes are looked at first. */
  predicate Shaped(s: Reader, d: char) {
    && (forall i :: 0 <= i < |s.rows| ==> |s.rows[i]| >= 1 && (d == '"' ==> |s.rows[i]| == 1))
    && (d == '"' ==> s.row == [])
  }

  lemma {:induction false} ConsumeShapes(t: string, d: char, s: Reader)
    requires Shaped(s, d)
    ensures Shaped(Consume(t, d, s), d) && s.rows <= Consume(t, d, s).rows
    decreases |t|
  {
    if t == "" {
    } else if s.inQuotes {
      if t[0] != '"' {
        ConsumeShapes(t[1..], d, s.(cell := s.cell + [t[0]]));
      } else if |t| > 1 && t[1] == '"' {
        ConsumeShapes(t[2..], d, s.(cell := s.cell + "\""));
      } else {
        ConsumeShapes(t[1..], d, s.(inQuotes := false));
      }
    } else if t[0] == '"' {
      ConsumeShapes(t[1..], d, s.(inQuotes := true));
    } else if t[0] == d {
      ConsumeShapes(t[1..], d, EndCell(s));
    } else if t[0] == '\r' {
      ConsumeShapes(if |t| > 1 && t[1] == '\n' then t[2..] else t[1..], d, EndRow(s));
    } else if t[0] == '\n' {
      ConsumeShapes(t[1..], d, EndRow(s));
    } else {
      ConsumeShapes(t[1..], d, s.(cell := s.cell + [t[0]]));
    }
  }

  /** With a carriage return as the delimiter, the line end after the first row reads as one more, empty cell. */
  lemma ReturnSplitsLineEnd(rows: seq<Row>, n: nat)
    requires |rows| > 1 && n > 0 && Rectangular(rows, n)
    ensures var read := AllRows(TableText(rows, '\r'), '\r'); |read| > 1 && |read[0]| == n + 1
  {
    TableTextSplits(rows, '\r');
    var tail := TableText(rows[1..], '\r');
    var rest := "\r\n" + tail;
    var first := rows[0];
    ReadRow(first, rest, '\r', EMPTY);
    assert [] + first[..n - 1] == first[..n - 1];
    var s := EMPTY.(row := first[..n - 1], cell := first[n - 1]);
    assert rest[1..] == "\n" + tail && ("\n" + tail)[1..] == tail;
    var s' := EndRow(EndCell(s));
    assert Consume(rest, '\r', s) == Consume(tail, '\r', s');
    assert |s'.rows[0]| == n + 1;
    ConsumeShapes(tail, '\r', s');
  }

  // ---------------------------------------------------------------- the round trip

  /** The printed table reads back: there is a column, and none of the corner cases below applies. */
  predicate ReadsBack(rows: seq<Row>, n: nat, d: char)
    requires rows != [] && Rectangular(rows, n)
  {
    && n > 0 && (d == '"' ==> n == 1) && (d == '\r' ==> |rows| == 1)
    && (n == 1 && |rows| > 1 ==> rows[|rows| - 1][0] != "")
  }

  lemma TableTextEnd(rows: seq<Row>, d: char)
    requires |rows| > 1 && rows[|rows| - 1] == [""]
    ensures TableText(rows, d) != "" && TableText(rows, d)[|TableText(rows, d)| - 1] == '\n'
    decreases |rows|
  {
    TableTextSplits(rows, d);
    if |rows| == 2 {
      assert TableText(rows[1..], d) == "";
    } else {
      TableTextEnd(rows[1..], d);
    }
  }

  lemma {:induction false} TableRoundTripIff(rows: seq<Row>, n: nat, d: char)
    requires rows != [] && Rectangular(rows, n)
    ensures Parsed(TableText(rows, d), d) == rows <==> ReadsBack(rows, n, d)
  {
    var text := TableText(rows, d);
    var read := AllRows(text, d);
    ConsumeShapes(text, d, EMPTY);
    var end := EndRow(Consume(text, d, EMPTY));
    assert Shaped(end, d) && end.rows == read;
    if n > 0 && (d == '"' ==> n == 1) {
      if d == '\r' && |rows| > 1 {
        ReturnSplitsLineEnd(rows, n);
        assert |Parsed(text, d)| > 0 && |Parsed(text, d)[0]| == n + 1;
      } else {
        ReadRows(rows, n, d, []);
        assert [] + rows == rows;
        assert read == rows;
        BlankEndIff(rows, n, d);
      }
    } else {
      var p := Parsed(text, d);
      assert |p| > 0 ==> p[0] == read[0] && |p[0]| != n;
      assert |rows[0]| == n;
    }
  }

  /** The last row is taken for a blank line exactly when it is one empty cell and not the only row. */
  lemma BlankEndIff(rows: seq<Row>, n: nat, d: char)
    requires rows != [] && n > 0 && Rectangular(rows, n)
    ensures EndsWithBlankLine(rows, TableText(rows, d)) <==> n == 1 && |rows| > 1 && rows[|rows| - 1][0] == ""
  {
    if |rows| > 1 && rows[|rows| - 1] == [""] {
      TableTextEnd(rows, d);
    } else if rows == [[""]] {
      assert TableText(rows, d) == "";
    }
  }

  /**
   * Reading what was printed gives the header row and the data rows back, if and only if the table is not a corner
   * case.
   */
  lemma RoundTripIff(headers: seq<string>, items: seq<Item>, d: char)
    ensures Parsed(TableText(Table(headers, items), d), d) == Table(headers, items)
      <==> ReadsBack(Table(headers, items), |headers|, d)
  {
    TableRoundTripIff(Table(headers, items), |headers|, d);
  }

  /** In particular with two columns or more and any delimiter but a quote or a carriage return. */
  lemma RoundTrip(headers: seq<string>, items: seq<Item>, d: char)
    requires |headers| >= 2 && d != '"' && d != '\r'
    ensures Parsed(TableText(Table(headers, items), d), d) == Table(headers, items)
  {
    RoundTripIff(headers, items, d);
  }

  // ---------------------------------------------------------------- the delimiter

  /** Occurrences of `x` outside quotes. */
  function Outside(line: string, x: char, inQuotes: bool): nat {
    if line == "" then 0
    else if line[0] == '"' then Outside(line[1..], x, !inQuotes)
    else (if !inQuotes && line[0] == x then 1 else 0) + Outside(line[1..], x, inQuotes)
  }

  function FirstBreak(text: string): nat
    ensures FirstBreak(text) <= |text|
  {
    if text == "" || text[0] == '\n' then 0 else 1 + FirstBreak(text[1..])
  }

  /** The first line, without the byte-order mark and without its line end. */
  function FirstLine(text: string): string {
    var body := if text != "" && text[0] == '\U{FEFF}' then text[1..] else text;
    var k := FirstBreak(body);
    if k < |body| && k > 0 && body[k - 1] == '\r' then body[..k - 1] else body[..k]
  }

  function Chosen(commas: nat, semicolons: nat, tabs: nat): char {
    if tabs > commas && tabs > semicolons then '\t'
    else if semicolons > commas && semicolons > tabs then ';'
    else ','
  }

  function Detected(text: string): char {
    var line := FirstLine(text);
    Chosen(Outside(line, ',', false), Outside(line, ';', false), Outside(line, '\t', false))
  }

  method DetectDelimiter(csvText: string) returns (d: char)
    ensures d == Detected(csvText)
  {
    var firstLine := FirstLine(csvText);
    var inQuotes := false;
    var commas, semicolons, tabs := 0, 0, 0;
    var i := 0;
    while i < |firstLine|
      invariant 0 <= i <= |firstLine| && commas >= 0 && semicolons >= 0 && tabs >= 0
      invariant commas + Outside(firstLine[i..], ',', inQuotes) == Outside(firstLine, ',', false)
      invariant semicolons + Outside(firstLine[i..], ';', inQuotes) == Outside(firstLine, ';', false)
      invariant tabs + Outside(firstLine[i..], '\t', inQuotes) == Outside(firstLine, '\t', false)
    {
      var c := firstLine[i];
      if c == '"' {
        inQuotes := !inQuotes;
      } else if !inQuotes {
        if c == ',' { commas := commas + 1; }
        else if c == ';' { semicolons := semicolons + 1; }
        else if c == '\t' { tabs := tabs + 1; }
      }
      i := i + 1;
    }
    assert firstLine[i..] == "";
    if tabs > commas && tabs > semicolons { return '\t'; }
    if semicolons > commas && semicolons > tabs { return ';'; }
    return ',';
  }

  lemma {:induction false} OutsidePlain(v: string, rest: string, x: char)
    requires '"' !in v
    ensures Outside(v + rest, x, false) == Outside(v, x, false) + Outside(rest, x, false)
  {
    if v == "" {
      assert v + rest == rest;
    } else {
      assert (v + rest)[1..] == v[1..] + rest && v[0] in v;
      OutsidePlain(v[1..], rest, x);
    }
  }

  lemma {:induction false} OutsideQuoted(v: string, rest: string, x: char)
    requires x != '"'
    ensures Outside(ReplaceChar(v, '"', "\"\"") + "\"" + rest, x, true) == Outside(rest, x, false)
  {
    var text := ReplaceChar(v, '"', "\"\"") + "\"" + rest;
    if v == "" {
      assert text == "\"" + rest && text[1..] == rest;
    } else {
      var tail := ReplaceChar(v[1..], '"', "\"\"") + "\"" + rest;
      OutsideQuoted(v[1..], rest, x);
      if v[0] == '"' {
        assert text == "\"\"" + tail && text[1..] == "\"" + tail && ("\"" + tail)[1..] == tail;
      } else {
        assert text == [v[0]] + tail && text[1..] == tail;
      }
    }
  }

  /** What a printed cell shows of `x` outside quotes: its own occurrences when it is printed plain. */
  function Shown(v: string, d: char, x: char): nat {
    if NeedsQuotes(v, d) then 0 else Outside(v, x, false)
  }

  function Strays(cells: Row, d: char, x: char): nat {
    if cells == [] then 0 else Shown(cells[0], d, x) + Strays(cells[1..], d, x)
  }

  lemma OutsideCell(v: string, rest: string, d: char, x: char)
    requires x != '"'
    ensures Outside(Escape(v, d) + rest, x, false) == Shown(v, d, x) + Outside(rest, x, false)
  {
    if NeedsQuotes(v, d) {
      var body := ReplaceChar(v, '"', "\"\"") + "\"" + rest;
      assert Escape(v, d) + rest == "\"" + body && ("\"" + body)[1..] == body;
      OutsideQuoted(v, rest, x);
    } else {
      OutsidePlain(v, rest, x);
    }
  }

  lemma {:induction false} OutsideRow(cells: Row, d: char, x: char)
    requires cells != [] && x != '"' && d != '"'
    ensures Outside(RowText(cells, d), x, false) == Strays(cells, d, x) + if x == d then |cells| - 1 else 0
    decreases |cells|
  {
    if |cells| == 1 {
      OutsideCell(cells[0], "", d, x);
      assert RowText(cells, d) == Escape(cells[0], d) == Escape(cells[0], d) + "";
    } else {
      assert Escaped(cells, d)[1..] == Escaped(cells[1..], d);
      var tail := RowText(cells[1..], d);
      assert RowText(cells, d) == Escape(cells[0], d) + ([d] + tail);
      assert ([d] + tail)[1..] == tail;
      OutsideCell(cells[0], [d] + tail, d, x);
      OutsideRow(cells[1..], d, x);
    }
  }

  /** A delimiter inside a cell puts the cell in quotes, so the row shows it only between cells. */
  lemma {:induction false} NoStrayDelimiter(cells: Row, d: char)
    requires d != '"'
    ensures Strays(cells, d, d) == 0
  {
    if cells != [] {
      if !NeedsQuotes(cells[0], d) { OutsideAbsent(cells[0], d); }
      NoStrayDelimiter(cells[1..], d);
    }
  }

  lemma {:induction false} OutsideAbsent(v: string, x: char)
    requires x !in v && '"' !in v
    ensures Outside(v, x, false) == 0
  {
    if v != "" {
      assert v[0] in v;
      OutsideAbsent(v[1..], x);
    }
  }

  lemma {:induction false} EscapeOneLine(v: string, d: char)
    requires '\n' !in v
    ensures '\n' !in Escape(v, d)
  {
    if NeedsQuotes(v, d) { ReplaceOneLine(v); }
  }

  lemma {:induction false} ReplaceOneLine(v: string)
    requires '\n' !in v
    ensures '\n' !in ReplaceChar(v, '"', "\"\"")
  {
    if v != "" {
      assert v[0] in v;
      ReplaceOneLine(v[1..]);
    }
  }

  lemma {:induction false} RowOneLine(cells: Row, d: char)
    requires d != '\n' && forall i :: 0 <= i < |cells| ==> '\n' !in cells[i]
    ensures '\n' !in RowText(cells, d)
    decreases |cells|
  {
    if cells != [] {
      EscapeOneLine(cells[0], d);
      if |cells| > 1 {
        assert Escaped(cells, d)[1..] == Escaped(cells[1..], d);
        RowOneLine(cells[1..], d);
      }
    }
  }

  lemma {:induction false} BreakAfter(line: string, rest: string)
    requires '\n' !in line && (rest == "" || rest[0] == '\n')
    ensures FirstBreak(line + rest) == |line|
  {
    if line == "" {
      assert line + rest == rest;
    } else {
      assert (line + rest)[1..] == line[1..] + rest && line[0] in line;
      BreakAfter(line[1..], rest);
    }
  }

  /** The first line of a printed table shows what its header row shows; a byte-order mark changes nothing. */
  lemma FirstLineShows(rows: seq<Row>, d: char, x: char)
    requires rows != [] && d != '\n' && x != '"' && x != '\U{FEFF}' && '\n' !in RowText(rows[0], d)
    ensures Outside(FirstLine(TableText(rows, d)), x, false) == Outside(RowText(rows[0], d), x, false)
  {
    var head, text := RowText(rows[0], d), TableText(rows, d);
    var marked := text != "" && text[0] == '\U{FEFF}';
    if |rows| == 1 {
      assert text == head;
      var body := if marked then text[1..] else text;
      BreakAfter(body, "");
      assert body + "" == body && FirstLine(text) == body;
    } else {
      TableTextSplits(rows, d);
      var tail := TableText(rows[1..], d);
      assert text == (head + "\r") + ("\n" + tail);
      if marked {
        assert head != "" && text[1..] == (head[1..] + "\r") + ("\n" + tail);
        BreakAfter(head[1..] + "\r", "\n" + tail);
        assert FirstLine(text) == head[1..];
      } else {
        BreakAfter(head + "\r", "\n" + tail);
        assert FirstLine(text) == head;
      }
    }
  }

  lemma HeaderCount(headers: seq<string>, items: seq<Item>, d: char, x: char)
    requires headers != [] && d in [',', ';', '\t'] && x in [',', ';', '\t']
    requires forall i :: 0 <= i < |headers| ==> '\n' !in headers[i]
    ensures Outside(FirstLine(TableText(Table(headers, items), d)), x, false)
         == if x == d then |headers| - 1 else Strays(headers, d, x)
  {
    RowOneLine(headers, d);
    FirstLineShows(Table(headers, items), d, x);
    OutsideRow(headers, d, x);
    NoStrayDelimiter(headers, d);
  }

  /** The delimiter separates `own` pairs of columns; the others occur so often in headers printed plain. */
  predicate Wins(d: char, own: nat, commas: nat, semicolons: nat, tabs: nat) {
    if d == ',' then !(tabs > own && tabs > semicolons) && !(semicolons > own && semicolons > tabs)
    else if d == ';' then commas < own && tabs < own
    else commas < own && semicolons < own
  }

  /**
   * The delimiter is recovered exactly when the commas, semicolons and tabs that plain headers happen to contain do not
   * outnumber it.
   */
  lemma DetectsIff(headers: seq<string>, items: seq<Item>, d: char)
    requires headers != [] && d in [',', ';', '\t'] && forall i :: 0 <= i < |headers| ==> '\n' !in headers[i]
    ensures Detected(TableText(Table(headers, items), d)) == d
      <==> Wins(d, |headers| - 1, Strays(headers, d, ','), Strays(headers, d, ';'), Strays(headers, d, '\t'))
  {
    HeaderCount(headers, items, d, ',');
    HeaderCount(headers, items, d, ';');
    HeaderCount(headers, items, d, '\t');
  }
}
