/**
 * The spreadsheet-safe CSV writer and the character-level CSV reader of
 * packages/core/src/contractor-billing.ts, and the proof that the second undoes the first.
 */
module Csv {
  import opened Prelude

  const MAX_ALLOCATION_LINES: nat := 10_000
  const MAX_CSV_BYTES: nat := 5_000_000
  const NUL: char := '\0'

  datatype CsvError = Invalid

  // ----- the writer -----

  predicate Dangerous(c: char) {
    c == '=' || c == '+' || c == '-' || c == '@' || c == '\''
  }

  /** A leading formula character or apostrophe is defused with one more apostrophe. */
  function Defuse(text: string): string {
    if text != "" && Dangerous(text[0]) then "'" + text else text
  }

  function DoubleQuotes(text: string): string {
    if text == "" then ""
    else (if text[0] == '"' then "\"\"" else [text[0]]) + DoubleQuotes(text[1..])
  }

  function CsvCell(text: string): string {
    "\"" + DoubleQuotes(Defuse(text)) + "\""
  }

  function Join(parts: seq<string>, separator: string): string {
    if parts == [] then ""
    else if |parts| == 1 then parts[0]
    else parts[0] + separator + Join(parts[1..], separator)
  }

  function CsvLine(cells: seq<string>): string {
    Join(Map(cells, CsvCell), ",")
  }

  function CsvRows(header: seq<string>, rows: seq<seq<string>>): string {
    Join(header, ",") + "\r\n" + Join(Map(rows, CsvLine), "\r\n") + "\r\n"
  }

  // ----- the reader, as a machine over the remaining text -----

  datatype Reader = Reader(rows: seq<seq<string>>, row: seq<string>, cell: string, quoted: bool, closed: bool)

  /** Removes the one defusing apostrophe, if there is one. */
  function Undefuse(cell: string): string {
    if |cell| >= 2 && cell[0] == '\'' && Dangerous(cell[1]) then cell[1..] else cell
  }

  function EndCell(r: Reader): Reader {
    r.(row := r.row + [Undefuse(r.cell)], cell := "", closed := false)
  }

  function EndRow(r: Reader): Result<Reader, CsvError> {
    var ended := EndCell(r);
    if |r.rows| + 1 > MAX_ALLOCATION_LINES + 1 then Err(Invalid)
    else Ok(ended.(rows := r.rows + [ended.row], row := []))
  }

  function Run(text: string, r: Reader): Result<seq<seq<string>>, CsvError>
    decreases |text|
  {
    if text == "" then
      if r.quoted then Err(Invalid)
      else if r.cell != "" || r.closed || r.row != [] then
        var ended := EndRow(r);
        if ended.Err? then Err(Invalid) else Ok(ended.value.rows)
      else Ok(r.rows)
    else
      var c, rest := text[0], text[1..];
      if r.quoted then
        if c != '"' then Run(rest, r.(cell := r.cell + [c]))
        else if rest != "" && rest[0] == '"' then Run(rest[1..], r.(cell := r.cell + "\""))
        else Run(rest, r.(quoted := false, closed := true))
      else if c == ',' then Run(rest, EndCell(r))
      else if c == '\n' then
        var ended := EndRow(r);
        if ended.Err? then Err(Invalid) else Run(rest, ended.value)
      else if c == '\r' then
        if rest == "" || rest[0] != '\n' then Err(Invalid)
        else
          var ended := EndRow(r);
          if ended.Err? then Err(Invalid) else Run(rest[1..], ended.value)
      else if c == '"' then
        if r.cell != "" || r.closed then Err(Invalid) else Run(rest, r.(quoted := true))
      else if r.closed then Err(Invalid)
      else Run(rest, r.(cell := r.cell + [c]))
  }

  const Fresh: Reader := Reader([], [], "", false, false)

  /** What the reader answers for a decoded text that took `bytes` bytes. */
  function Read(text: string, bytes: nat): Result<seq<seq<string>>, CsvError> {
    if bytes == 0 || bytes > MAX_CSV_BYTES || NUL in text then Err(Invalid) else Run(text, Fresh)
  }

  method ReadCsv(text: string, bytes: nat) returns (result: Result<seq<seq<string>>, CsvError>)
    ensures result == Read(text, bytes)
  {
    if bytes == 0 || bytes > MAX_CSV_BYTES {
      return Err(Invalid);
    }
    if NUL in text {
      return Err(Invalid);
    }
    var rows: seq<seq<string>>, row: seq<string>, cell: string := [], [], "";
    var quoted, closed := false, false;
    var i := 0;
    assert text[0..] == text;
    while i < |text|
      invariant 0 <= i <= |text|
      invariant Run(text[i..], Reader(rows, row, cell, quoted, closed)) == Run(text, Fresh)
    {
      var c := text[i];
      if quoted {
        if c == '"' {
          if i + 1 < |text| && text[i + 1] == '"' {
            cell := cell + "\"";
            i := i + 1;
          } else {
            quoted := false;
            closed := true;
          }
        } else {
          cell := cell + [c];
        }
      } else if c == ',' {
        row, cell, closed := row + [Undefuse(cell)], "", false;
      } else if c == '\n' || c == '\r' {
        if c == '\r' {
          i := i + 1;
          if i == |text| || text[i] != '\n' {
            return Err(Invalid);
          }
        }
        row, cell, closed := row + [Undefuse(cell)], "", false;
        rows, row := rows + [row], [];
        if |rows| > MAX_ALLOCATION_LINES + 1 {
          return Err(Invalid);
        }
      } else if c == '"' {
        if cell != "" || closed {
          return Err(Invalid);
        }
        quoted := true;
      } else {
        if closed {
          return Err(Invalid);
        }
        cell := cell + [c];
      }
      i := i + 1;
    }
    if quoted {
      return Err(Invalid);
    }
    if cell != "" || closed || row != [] {
      rows := rows + [row + [Undefuse(cell)]];
      if |rows| > MAX_ALLOCATION_LINES + 1 {
        return Err(Invalid);
      }
    }
    return Ok(rows);
  }

  // ----- the reader undoes the writer -----

  lemma DefuseUndone(text: string)
    ensures Undefuse(Defuse(text)) == text
  {
    if text != "" && Dangerous(text[0]) {
      assert Defuse(text)[1..] == text;
    }
  }

  /** A doubled body is read back character for character up to its closing quote. */
  lemma {:induction false} QuotedBody(body: string, rest: string, r: Reader)
    requires r.quoted && (rest == "" || rest[0] != '"')
    ensures Run(DoubleQuotes(body) + "\"" + rest, r) ==
            Run(rest, r.(cell := r.cell + body, quoted := false, closed := true))
  {
    var text := DoubleQuotes(body) + "\"" + rest;
    if body == "" {
      assert text[1..] == rest;
      assert r.cell + body == r.cell;
    } else {
      var tail := DoubleQuotes(body[1..]) + "\"" + rest;
      QuotedBody(body[1..], rest, r.(cell := r.cell + [body[0]]));
      assert r.cell + [body[0]] + body[1..] == r.cell + body;
      if body[0] == '"' {
        assert text[1..][1..] == tail && text[1] == '"';
      } else {
        assert text[1..] == tail;
      }
    }
  }

  predicate Clean(r: Reader) {
    r.cell == "" && !r.quoted && !r.closed
  }

  lemma {:induction false} CellRead(text: string, rest: string, r: Reader)
    requires Clean(r) && (rest == "" || rest[0] != '"')
    ensures Run(CsvCell(text) + rest, r) == Run(rest, r.(cell := Defuse(text), closed := true))
  {
    var body := DoubleQuotes(Defuse(text)) + "\"" + rest;
    assert CsvCell(text) + rest == ['"'] + body;
    QuotedBody(Defuse(text), rest, r.(quoted := true));
    assert "" + Defuse(text) == Defuse(text);
  }

  lemma {:induction false} CommaRead(tail: string, r: Reader)
    requires !r.quoted
    ensures Run("," + tail, r) == Run(tail, EndCell(r))
  {
    assert ("," + tail)[1..] == tail;
  }

  lemma {:induction false} NewlineRead(rest: string, r: Reader)
    requires !r.quoted && |r.rows| <= MAX_ALLOCATION_LINES
    ensures Run("\r\n" + rest, r) ==
            Run(rest, Reader(r.rows + [r.row + [Undefuse(r.cell)]], [], "", false, false))
  {
    assert ("\r\n" + rest)[1..][1..] == rest;
  }

  /** The reader once it has read the rest of its current row. */
  function Completed(r: Reader, cells: seq<string>): Reader {
    r.(rows := r.rows + [r.row + cells], row := [])
  }

  /** A cell before a comma joins the row; a cell before a line end completes it. */
  lemma {:induction false} InnerCellRead(text: string, tail: string, r: Reader)
    requires Clean(r)
    ensures Run(CsvCell(text) + ("," + tail), r) == Run(tail, r.(row := r.row + [text]))
  {
    DefuseUndone(text);
    CellRead(text, "," + tail, r);
    CommaRead(tail, r.(cell := Defuse(text), closed := true));
  }

  lemma {:induction false} LastCellRead(text: string, rest: string, r: Reader)
    requires Clean(r) && |r.rows| <= MAX_ALLOCATION_LINES
    ensures Run(CsvCell(text) + ("\r\n" + rest), r) == Run(rest, Completed(r, [text]))
  {
    DefuseUndone(text);
    CellRead(text, "\r\n" + rest, r);
    NewlineRead(rest, r.(cell := Defuse(text), closed := true));
  }

  lemma LineSplit(cells: seq<string>, rest: string)
    requires |cells| > 1
    ensures CsvLine(cells) + "\r\n" + rest == CsvCell(cells[0]) + ("," + (CsvLine(cells[1..]) + "\r\n" + rest))
  {
    assert Map(cells, CsvCell)[1..] == Map(cells[1..], CsvCell);
  }

  lemma LineEnds(cell: string, rest: string)
    ensures CsvLine([cell]) + "\r\n" + rest == CsvCell(cell) + ("\r\n" + rest)
  {
  }

  lemma CompletedNext(r: Reader, cells: seq<string>)
    requires cells != []
    ensures Completed(r.(row := r.row + [cells[0]]), cells[1..]) == Completed(r, cells)
  {
    assert r.row + [cells[0]] + cells[1..] == r.row + cells;
  }

  /** A written line is read back as its cells. */
  lemma {:induction false} LineRead(cells: seq<string>, rest: string, r: Reader)
    requires cells != [] && Clean(r) && |r.rows| <= MAX_ALLOCATION_LINES
    ensures Run(CsvLine(cells) + "\r\n" + rest, r) == Run(rest, Completed(r, cells))
    decreases |cells|
  {
    if |cells| == 1 {
      assert cells == [cells[0]];
      LineEnds(cells[0], rest);
      LastCellRead(cells[0], rest, r);
    } else {
      LineSplit(cells, rest);
      InnerCellRead(cells[0], CsvLine(cells[1..]) + "\r\n" + rest, r);
      LineRead(cells[1..], rest, r.(row := r.row + [cells[0]]));
      CompletedNext(r, cells);
    }
  }

  predicate PlainCell(cell: string) {
    && cell != "" && cell[0] != '\''
    && forall c :: c in cell ==> c != ',' && c != '"' && c != '\r' && c != '\n'
  }

  lemma {:induction false} PlainRead(cell: string, rest: string, r: Reader)
    requires !r.quoted && !r.closed
    requires forall c :: c in cell ==> c != ',' && c != '"' && c != '\r' && c != '\n'
    ensures Run(cell + rest, r) == Run(rest, r.(cell := r.cell + cell))
    decreases |cell|
  {
    if cell == "" {
      assert cell + rest == rest && r.cell + cell == r.cell;
    } else {
      assert cell[0] in cell && (cell + rest)[0] == cell[0];
      assert forall c :: c in cell[1..] ==> c in cell;
      assert (cell + rest)[1..] == cell[1..] + rest;
      PlainRead(cell[1..], rest, r.(cell := r.cell + [cell[0]]));
      assert r.cell + [cell[0]] + cell[1..] == r.cell + cell;
    }
  }

  lemma {:induction false} InnerNameRead(name: string, tail: string, r: Reader)
    requires PlainCell(name) && Clean(r)
    ensures Run(name + ("," + tail), r) == Run(tail, r.(row := r.row + [name]))
  {
    PlainRead(name, "," + tail, r);
    assert "" + name == name;
    CommaRead(tail, r.(cell := name));
  }

  lemma {:induction false} LastNameRead(name: string, rest: string, r: Reader)
    requires PlainCell(name) && Clean(r) && |r.rows| <= MAX_ALLOCATION_LINES
    ensures Run(name + ("\r\n" + rest), r) == Run(rest, Completed(r, [name]))
  {
    PlainRead(name, "\r\n" + rest, r);
    assert "" + name == name;
    NewlineRead(rest, r.(cell := name));
  }

  lemma {:induction false} HeaderSplit(header: seq<string>, rest: string)
    requires |header| > 1
    ensures Join(header, ",") + "\r\n" + rest == header[0] + ("," + (Join(header[1..], ",") + "\r\n" + rest))
  {
  }

  lemma HeaderEnds(name: string, rest: string)
    ensures Join([name], ",") + "\r\n" + rest == name + ("\r\n" + rest)
  {
  }

  /** The unquoted header line is read back as its names. */
  lemma {:induction false} HeaderRead(header: seq<string>, rest: string, r: Reader)
    requires header != [] && Clean(r) && |r.rows| <= MAX_ALLOCATION_LINES
    requires forall h :: h in header ==> PlainCell(h)
    ensures Run(Join(header, ",") + "\r\n" + rest, r) == Run(rest, Completed(r, header))
    decreases |header|
  {
    assert header[0] in header && forall h :: h in header[1..] ==> h in header;
    if |header| == 1 {
      assert header == [header[0]];
      HeaderEnds(header[0], rest);
      LastNameRead(header[0], rest, r);
    } else {
      HeaderSplit(header, rest);
      InnerNameRead(header[0], Join(header[1..], ",") + "\r\n" + rest, r);
      HeaderRead(header[1..], rest, r.(row := r.row + [header[0]]));
      CompletedNext(r, header);
    }
  }

  /** Written lines, each with its line end. */
  function Lines(rows: seq<seq<string>>): string {
    if rows == [] then "" else CsvLine(rows[0]) + "\r\n" + Lines(rows[1..])
  }

  lemma {:induction false} LinesJoined(rows: seq<seq<string>>)
    requires rows != []
    ensures Join(Map(rows, CsvLine), "\r\n") + "\r\n" == Lines(rows)
    decreases |rows|
  {
    var lines := Map(rows, CsvLine);
    assert lines[1..] == Map(rows[1..], CsvLine);
    if |rows| > 1 {
      LinesJoined(rows[1..]);
      assert lines[0] + "\r\n" + Join(lines[1..], "\r\n") + "\r\n" == lines[0] + "\r\n" + (Join(lines[1..], "\r\n") + "\r\n");
    } else {
      assert lines[0] + "\r\n" + "" == lines[0] + "\r\n";
    }
  }

  lemma {:induction false} EndRead(r: Reader)
    requires Clean(r) && r.row == []
    ensures Run("", r) == Ok(r.rows)
  {
  }

  lemma {:induction false} WholeLineRead(cells: seq<string>, rest: string, r: Reader)
    requires cells != [] && Clean(r) && r.row == [] && |r.rows| <= MAX_ALLOCATION_LINES
    ensures Run(CsvLine(cells) + "\r\n" + rest, r) == Run(rest, r.(rows := r.rows + [cells]))
  {
    LineRead(cells, rest, r);
    assert [] + cells == cells;
  }

  lemma {:induction false} RowsRead(rows: seq<seq<string>>, r: Reader)
    requires Clean(r) && r.row == [] && |r.rows| + |rows| <= MAX_ALLOCATION_LINES + 1
    requires forall row :: row in rows ==> row != []
    ensures Run(Lines(rows), r) == Ok(r.rows + rows)
    decreases |rows|
  {
    if rows == [] {
      EndRead(r);
      assert r.rows + rows == r.rows;
    } else {
      var next, tail := r.(rows := r.rows + [rows[0]]), Lines(rows[1..]);
      assert rows[0] in rows && forall row :: row in rows[1..] ==> row in rows;
      assert Lines(rows) == CsvLine(rows[0]) + "\r\n" + tail;
      WholeLineRead(rows[0], tail, r);
      RowsRead(rows[1..], next);
      assert next.rows + rows[1..] == r.rows + rows;
    }
  }

  /** The round trip: every written table is read back exactly, whatever its cells contain. */
  lemma TableRoundTrip(header: seq<string>, rows: seq<seq<string>>)
    requires header != [] && forall h :: h in header ==> PlainCell(h)
    requires 1 <= |rows| <= MAX_ALLOCATION_LINES
    requires forall row :: row in rows ==> row != []
    ensures Run(CsvRows(header, rows), Fresh) == Ok([header] + rows)
  {
    var tail := Join(Map(rows, CsvLine), "\r\n") + "\r\n";
    assert CsvRows(header, rows) == Join(header, ",") + "\r\n" + tail;
    HeaderRead(header, tail, Fresh);
    assert [] + header == header && [] + [header] == [header];
    LinesJoined(rows);
    RowsRead(rows, Fresh.(rows := [header]));
  }

  // ----- what a spreadsheet sees -----

  /** A text that starts with one of the five characters the format treats specially. */
  predicate StartsSpecially(text: string) {
    text != "" && (text[0] == '=' || text[0] == '+' || text[0] == '-' || text[0] == '@' || text[0] == '\'')
  }

  /** A quoted cell whose content does not start a formula. */
  predicate QuotedSafely(cell: string) {
    && |cell| >= 2 && cell[0] == '"' && cell[|cell| - 1] == '"'
    && (|cell| > 2 ==> cell[1] != '=' && cell[1] != '+' && cell[1] != '-' && cell[1] != '@')
  }

  /** How a text is to be written: quoted, its quotes doubled, and after an apostrophe exactly if it starts specially. */
  predicate WrittenAs(text: string, cell: string) {
    && QuotedSafely(cell)
    && cell == (if StartsSpecially(text) then "\"'" else "\"") + DoubleQuotes(text) + "\""
  }

  lemma CellWritten(text: string)
    ensures WrittenAs(text, CsvCell(text))
  {
    var cell := CsvCell(text);
    if StartsSpecially(text) {
      assert DoubleQuotes("'" + text) == "'" + DoubleQuotes(text) by {
        assert ("'" + text)[1..] == text;
      }
      assert cell == "\"'" + DoubleQuotes(text) + "\"";
    } else if text != "" {
      assert DoubleQuotes(text) != "" && DoubleQuotes(text)[0] == text[0];
      assert cell[1] == text[0];
    }
  }

  function JoinCells(): seq<string> -> string {
    (cells: seq<string>) => Join(cells, ",")
  }

  /** The text is the header and then, row by row, one safely written cell for every text of the table. */
  ghost predicate SafeTable(text: string, header: seq<string>, rows: seq<seq<string>>, written: seq<seq<string>>) {
    && text == Join(header, ",") + "\r\n" + Join(Map(written, JoinCells()), "\r\n") + "\r\n"
    && |written| == |rows|
    && forall i :: 0 <= i < |rows| ==>
         |written[i]| == |rows[i]| && forall j :: 0 <= j < |rows[i]| ==> WrittenAs(rows[i][j], written[i][j])
  }

  /** No data cell of a written table starts a formula. */
  lemma TableSafe(header: seq<string>, rows: seq<seq<string>>) returns (written: seq<seq<string>>)
    ensures SafeTable(CsvRows(header, rows), header, rows, written)
  {
    written := seq(|rows|, i requires 0 <= i < |rows| => Map(rows[i], CsvCell));
    forall i, j | 0 <= i < |rows| && 0 <= j < |rows[i]|
      ensures WrittenAs(rows[i][j], written[i][j])
    {
      CellWritten(rows[i][j]);
    }
    assert Map(written, JoinCells()) == Map(rows, CsvLine);
  }

  lemma {:induction false} QuotedContent(content: string, tail: string, r: Reader)
    requires Clean(r)
    ensures Run("\"" + DoubleQuotes(content) + "\"" + ("," + tail), r) == Run(tail, EndCell(r.(cell := content)))
  {
    var body := DoubleQuotes(content) + "\"" + ("," + tail);
    assert "\"" + DoubleQuotes(content) + "\"" + ("," + tail) == ['"'] + body;
    QuotedBody(content, "," + tail, r.(quoted := true));
    assert "" + content == content;
    CommaRead(tail, r.(cell := content, closed := true));
  }

  /** A quoted cell is read as its content, less an apostrophe before one of the five characters. */
  lemma {:induction false} ContentRead(content: string, tail: string, r: Reader)
    requires Clean(r)
    ensures Run("\"" + DoubleQuotes(content) + "\"" + ("," + tail), r) ==
            Run(tail, r.(row := r.row + [if content != "" && content[0] == '\'' && StartsSpecially(content[1..]) then content[1..] else content]))
  {
    QuotedContent(content, tail, r);
  }

  // ----- a written table contains NUL only where a cell does -----

  lemma {:induction false} DoubledNul(text: string)
    ensures NUL in DoubleQuotes(text) <==> NUL in text
  {
    if text != "" {
      DoubledNul(text[1..]);
      assert text == [text[0]] + text[1..];
    }
  }

  lemma CellNul(text: string)
    ensures NUL in CsvCell(text) <==> NUL in text
  {
    DoubledNul(Defuse(text));
  }

  lemma {:induction false} JoinNul(parts: seq<string>, separator: string)
    requires NUL !in separator
    ensures NUL in Join(parts, separator) <==> exists p :: p in parts && NUL in p
  {
    if |parts| == 1 {
      assert parts == [parts[0]];
    } else if |parts| > 1 {
      JoinNul(parts[1..], separator);
      assert parts == [parts[0]] + parts[1..];
    }
  }

  lemma LineNul(cells: seq<string>)
    ensures NUL in CsvLine(cells) <==> exists c :: c in cells && NUL in c
  {
    var written := Map(cells, CsvCell);
    JoinNul(written, ",");
    if c :| c in cells && NUL in c {
      var i :| 0 <= i < |cells| && cells[i] == c;
      CellNul(c);
      assert written[i] in written;
    }
    if p :| p in written && NUL in p {
      var i :| 0 <= i < |written| && written[i] == p;
      CellNul(cells[i]);
    }
  }

  lemma TableNul(header: seq<string>, rows: seq<seq<string>>)
    requires forall h :: h in header ==> NUL !in h
    ensures NUL in CsvRows(header, rows) <==> exists row, c :: row in rows && c in row && NUL in c
  {
    var lines := Map(rows, CsvLine);
    JoinNul(header, ",");
    JoinNul(lines, "\r\n");
    if row, c :| row in rows && c in row && NUL in c {
      var i :| 0 <= i < |rows| && rows[i] == row;
      LineNul(row);
      assert lines[i] in lines;
    }
    if p :| p in lines && NUL in p {
      var i :| 0 <= i < |lines| && lines[i] == p;
      LineNul(rows[i]);
    }
  }
}
