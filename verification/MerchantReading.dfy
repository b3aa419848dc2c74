/**
 * What the merchant extractor's reading comes to: every field stands in the source where its citation
 * says, amounts and quantities are exact decimals, and no issue is listed exactly when the document is
 * complete and adds up.
 */
module MerchantReading {
  import opened Prelude
  import opened Decimals
  import opened CaptureText
  import opened Merchant
  import R = CaptureReading

  // ----- literals -----

  /** Pounds without superfluous zeros, a point and two decimals, as pence. */
  predicate PoundsOf(raw: string, whole: string, fraction: string, pence: int) {
    && raw == whole + "." + fraction && Canonical(whole) && |whole| <= 11 && AllDigits(fraction) && |fraction| == 2
    && pence == 100 * DigitsValue(whole) + DigitsValue(fraction) && pence <= 1_000_000_000_000
  }

  lemma {:induction false} PointAfter(raw: string, whole: string, fraction: string)
    requires raw == whole + "." + fraction && AllDigits(whole)
    ensures IndexOf(raw, '.') == |whole| < |raw| && raw[..|whole|] == whole && raw[|whole| + 1..] == fraction
  {
    forall i | 0 <= i < |whole|
      ensures raw[i] != '.'
    {
      assert raw[i] == whole[i] && whole[i] in whole;
    }
    R.IndexIs(raw, '.', |whole|);
  }

  /** A text is an amount exactly if it is such a literal. */
  lemma AmountExactly(raw: string, pence: int)
    ensures Amount(raw) == Some(pence) <==> exists whole, fraction :: PoundsOf(raw, whole, fraction, pence)
  {
    if Amount(raw) == Some(pence) {
      var k := IndexOf(raw, '.');
      assert raw == raw[..k] + "." + raw[k + 1..];
      assert PoundsOf(raw, raw[..k], raw[k + 1..], pence);
    }
    if whole, fraction :| PoundsOf(raw, whole, fraction, pence) {
      PointAfter(raw, whole, fraction);
    }
  }

  /** A whole number without superfluous zeros and at most six decimals, in millionths. */
  predicate MicrosOfText(raw: string, whole: string, fraction: string, micros: int) {
    DecimalOf(raw, whole, fraction) && micros == 1_000_000 * DigitsValue(whole) + DigitsValue(fraction) * Pow10(6 - |fraction|)
  }

  predicate DecimalOf(raw: string, whole: string, fraction: string) {
    && raw == (if fraction == "" then whole else whole + "." + fraction) && Canonical(whole) && |whole| <= 14
    && AllDigits(fraction) && |fraction| <= 6
  }

  lemma {:induction false} PadValue(s: string, n: nat)
    requires AllDigits(s) && |s| <= n
    ensures DigitsValue(PadTo(s, n)) == DigitsValue(s) * Pow10(n - |s|)
    decreases n - |s|
  {
    if |s| < n {
      assert (s + "0")[..|s|] == s && (s + "0")[|s|] == '0';
      PadValue(s + "0", n);
      Shifted(DigitsValue(s), n - |s|);
    }
  }

  lemma Shifted(v: int, k: nat)
    requires k > 0
    ensures (10 * v) * Pow10(k - 1) == v * Pow10(k)
  {
  }

  lemma MicrosRead(raw: string, whole: string, fraction: string, micros: int)
    requires MicrosOfText(raw, whole, fraction, micros)
    ensures QuantityMicros(raw) == Some(micros)
  {
    R.PointAt(raw, whole, fraction);
    PadValue(fraction, 6);
    assert (if |whole| < |raw| then raw[|whole| + 1..] else "") == fraction;
  }

  lemma CutAt(raw: string, k: nat)
    requires k < |raw| && raw[k] == '.'
    ensures raw == raw[..k] + "." + raw[k + 1..]
  {
  }

  lemma {:induction false} MicrosCut(raw: string, k: nat, fraction: string)
    requires QuantityMicros(raw).Some? && k == IndexOf(raw, '.') && fraction == if k < |raw| then raw[k + 1..] else ""
    ensures DecimalOf(raw, raw[..k], fraction)
    ensures QuantityMicros(raw).value == DigitsValue(raw[..k]) * 1_000_000 + DigitsValue(PadTo(fraction, 6))
  {
    if k < |raw| {
      CutAt(raw, k);
    }
  }

  /** A text is a quantity exactly if it is such a literal. */
  lemma MicrosExactly(raw: string, micros: int)
    ensures QuantityMicros(raw) == Some(micros) <==> exists whole, fraction :: MicrosOfText(raw, whole, fraction, micros)
  {
    if QuantityMicros(raw) == Some(micros) {
      var k := IndexOf(raw, '.');
      var fraction := if k < |raw| then raw[k + 1..] else "";
      MicrosCut(raw, k, fraction);
      PadValue(fraction, 6);
      assert MicrosOfText(raw, raw[..k], fraction, micros);
    }
    if whole, fraction :| MicrosOfText(raw, whole, fraction, micros) {
      MicrosRead(raw, whole, fraction, micros);
    }
  }

  // ----- kinds of rows -----

  /** What stands before the first colon, trimmed and in small letters. */
  ghost predicate Keyed(language: Language, text: string, key: string) {
    exists k, t, m: nat ::
      && 0 <= k < |text| && text[k] == ':' && (forall i :: 0 <= i < k ==> text[i] != ':')
      && R.Trimmed(language.blank, text[..k], t, m) && key == language.lower(t)
  }

  lemma {:induction false} KeyedExactly(language: Language, text: string, key: string)
    ensures Keyed(language, text, key) <==>
            IndexOf(text, ':') < |text| && key == language.lower(Trim(language.blank, text[..IndexOf(text, ':')]))
  {
    var c := IndexOf(text, ':');
    if c < |text| {
      R.TrimExactly(language.blank, text[..c]);
    }
    if k, t, m: nat :| 0 <= k < |text| && text[k] == ':' && (forall i :: 0 <= i < k ==> text[i] != ':')
                       && R.Trimmed(language.blank, text[..k], t, m) && key == language.lower(t) {
      R.IndexIs(text, ':', k);
      R.TrimmedUnique(language.blank, text[..k], t, m, Trim(language.blank, text[..k]), Leading(language.blank, text[..k]));
    }
  }

  /** A row with something visible is a line or a header by its key, and is not recognized otherwise. */
  lemma KindExactly(language: Language, text: string)
    ensures KindOf(language, text).Empty? <==> forall i :: 0 <= i < |text| ==> language.blank(text[i])
    ensures KindOf(language, text).AsLine? <==>
            (exists i :: 0 <= i < |text| && !language.blank(text[i])) && exists key :: Keyed(language, text, key) && language.isLine(key)
    ensures forall h :: KindOf(language, text) == AsHeader(h) <==>
            && (exists i :: 0 <= i < |text| && !language.blank(text[i]))
            && exists key :: Keyed(language, text, key) && !language.isLine(key) && language.headerOf(key) == Some(h)
  {
    R.VisibleExactly(language.blank, text);
    forall key { KeyedExactly(language, text, key); }
  }

  // ----- citations -----

  /** The row is a whole line of a region that was read: it stands there between line ends or the region's ends. */
  ghost predicate RowPlaced(source: Source, ocr: Recognition, row: Row) {
    && row.page in source.pages && RegionsOf(ocr, row.page).Some? && row.region in RegionsOf(ocr, row.page).value
    && PartAt(row.region.text, '\n', row.text, row.offset)
  }

  lemma {:induction false} UpToPlaced(page: Page, region: Region, n: nat)
    requires n <= |Split(region.text, '\n')|
    ensures forall row :: row in RowsUpTo(page, region, Split(region.text, '\n'), n) ==>
              row.page == page && row.region == region && PartAt(region.text, '\n', row.text, row.offset)
  {
    if n > 0 {
      UpToPlaced(page, region, n - 1);
      SplitAt(region.text, '\n', n - 1);
    }
  }

  lemma {:induction false} RegionsPlaced(page: Page, regions: seq<Region>)
    ensures forall row :: row in RowsOf(page, regions) ==>
              row.page == page && row.region in regions && PartAt(row.region.text, '\n', row.text, row.offset)
    decreases |regions|
  {
    if regions != [] {
      var n := |regions| - 1;
      RegionsPlaced(page, regions[..n]);
      UpToPlaced(page, regions[n], |Split(regions[n].text, '\n')|);
    }
  }

  lemma {:induction false} PagesPlaced(source: Source, ocr: Recognition, n: nat)
    requires n <= |source.pages|
    ensures forall row :: row in RowsOfPages(ocr, source.pages[..n]) ==> RowPlaced(source, ocr, row)
  {
    if n > 0 {
      assert source.pages[..n][..n - 1] == source.pages[..n - 1];
      PagesPlaced(source, ocr, n - 1);
      var page := source.pages[n - 1];
      if RegionsOf(ocr, page).Some? {
        RegionsPlaced(page, RegionsOf(ocr, page).value);
      }
    }
  }

  /** A text within a part of what follows a prefix of a row. */
  lemma PlacedIn(text: string, row: string, offset: nat, n: nat, part: string, at: nat, t: string, k: nat)
    requires At(text, row, offset) && n <= |row| && At(row[n..], part, at) && At(part, t, k) && t != ""
    ensures At(text, t, offset + n + at + k)
  {
    AtInside(row[n..], part, at, t, k);
    DroppedIn(text, row, offset, n, t, at + k);
  }

  /** A cell of a line row is cited where the region holds it. */
  lemma CellCited(language: Language, source: Source, row: Row, name: Cell, i: nat)
    requires IndexOf(row.text, ':') < |row.text| && At(row.region.text, row.text, row.offset)
    requires i < |CellsOf(row.text)| && Visible(language, CellsOf(row.text)[i])
    ensures CitedFrom(source, row.page, row.region, CellField(language, source, row, name, i))
  {
    var cells := CellsOf(row.text);
    PieceCited(language.blank, source, row, IndexOf(row.text, ':') + 1, cells, i, Worth(name, Trim(language.blank, cells[i])));
  }

  lemma {:induction false} PieceCited(blank: Blank, source: Source, row: Row, n: nat, cells: seq<string>, i: nat, v: Value)
    requires At(row.region.text, row.text, row.offset) && n <= |row.text| && cells == Split(row.text[n..], '|') && i < |cells|
    requires Trim(blank, cells[i]) != ""
    ensures CitedFrom(source, row.page, row.region,
                      Extracted(source, row.page, row.region, Trim(blank, cells[i]), row.offset + n + Start(cells, i) + Leading(blank, cells[i])).(value := v))
  {
    CellPlaced(blank, row.region.text, row.text, row.offset, n, cells, i);
    ExtractedCited(source, row.page, row.region, Trim(blank, cells[i]), row.offset + n + Start(cells, i) + Leading(blank, cells[i]), v);
  }

  lemma ExtractedCited(source: Source, page: Page, region: Region, raw: string, start: nat, v: Value)
    requires At(region.text, raw, start)
    ensures CitedFrom(source, page, region, Extracted(source, page, region, raw, start).(value := v))
  {
  }

  lemma {:induction false} CellPlaced(blank: Blank, text: string, row: string, offset: nat, n: nat, cells: seq<string>, i: nat)
    requires At(text, row, offset) && n <= |row| && cells == Split(row[n..], '|') && i < |cells|
    ensures Trim(blank, cells[i]) != "" ==> At(text, Trim(blank, cells[i]), offset + n + Start(cells, i) + Leading(blank, cells[i]))
  {
    SplitPart(row[n..], '|', i);
    TrimmedIn(blank, text, row, offset, n, cells[i], Start(cells, i));
  }

  lemma TrimmedIn(blank: Blank, text: string, row: string, offset: nat, n: nat, part: string, at: nat)
    requires At(text, row, offset) && n <= |row| && At(row[n..], part, at)
    ensures Trim(blank, part) != "" ==> At(text, Trim(blank, part), offset + n + at + Leading(blank, part))
  {
    TrimAt(blank, part);
    if Trim(blank, part) != "" {
      PlacedIn(text, row, offset, n, part, at, Trim(blank, part), Leading(blank, part));
    }
  }

  lemma ContentPlaced(blank: Blank, text: string, row: string, offset: nat, n: nat)
    requires At(text, row, offset) && n <= |row|
    ensures At(text, Trim(blank, row[n..]), offset + n + if Trim(blank, row[n..]) == "" then 0 else Leading(blank, row[n..]))
  {
    TrimAt(blank, row[n..]);
    if Trim(blank, row[n..]) == "" {
      assert text[offset + n..offset + n] == "";
    } else {
      DroppedIn(text, row, offset, n, Trim(blank, row[n..]), Leading(blank, row[n..]));
    }
  }

  /** What a header row says is cited where the region holds it. */
  lemma HeaderCited(language: Language, source: Source, row: Row)
    requires IndexOf(row.text, ':') < |row.text| && At(row.region.text, row.text, row.offset)
    ensures CitedFrom(source, row.page, row.region, HeaderField(language, source, row))
  {
    ContentCited(language.blank, source, row, IndexOf(row.text, ':') + 1);
  }

  lemma ContentCited(blank: Blank, source: Source, row: Row, n: nat)
    requires At(row.region.text, row.text, row.offset) && n <= |row.text|
    ensures var raw := Trim(blank, row.text[n..]);
            CitedFrom(source, row.page, row.region,
                      Extracted(source, row.page, row.region, raw, row.offset + n + if raw == "" then 0 else Leading(blank, row.text[n..])))
  {
    var raw := Trim(blank, row.text[n..]);
    ContentPlaced(blank, row.region.text, row.text, row.offset, n);
    ExtractedCited(source, row.page, row.region, raw, row.offset + n + if raw == "" then 0 else Leading(blank, row.text[n..]), Text(raw));
  }

  lemma {:induction false} LinesCited(language: Language, source: Source, ocr: Recognition, rows: seq<Row>, lines: seq<Line>, i: nat, cell: Cell)
    requires LinesRead(language, source, rows, lines) && forall row :: row in rows ==> RowPlaced(source, ocr, row)
    requires i < |lines| && cell in lines[i]
    ensures Cited(source, ocr, lines[i][cell])
    decreases |rows|
  {
    var n := |rows| - 1;
    var row := rows[n];
    if KindOf(language, row.text) == AsLine && i == |lines| - 1 {
      assert row in rows;
      CellListed(cell);
      var k :| 0 <= k < |CELLS| && CELLS[k] == cell;
      CellCited(language, source, row, cell, k);
    } else {
      var rest := if KindOf(language, row.text) == AsLine then lines[..|lines| - 1] else lines;
      assert rest[i] == lines[i] && forall r :: r in rows[..n] ==> r in rows;
      LinesCited(language, source, ocr, rows[..n], rest, i, cell);
    }
  }

  lemma {:induction false} UnderCited(language: Language, source: Source, ocr: Recognition, h: Header, rows: seq<Row>)
    requires forall row :: row in rows ==> RowPlaced(source, ocr, row)
    ensures forall f :: f in StatedUnder(language, source, h, rows) ==> Cited(source, ocr, f)
    decreases |rows|
  {
    if rows != [] {
      var n := |rows| - 1;
      assert rows[n] in rows && forall r :: r in rows[..n] ==> r in rows;
      UnderCited(language, source, ocr, h, rows[..n]);
      if KindOf(language, rows[n].text) == AsHeader(h) {
        HeaderCited(language, source, rows[n]);
      }
    }
  }

  lemma HeaderListed(h: Header)
    ensures h in HEADERS
  {
    assert HEADERS[0] == MerchantName && HEADERS[1] == Document && HEADERS[2] == Invoice && HEADERS[3] == Date && HEADERS[4] == Currency;
    assert HEADERS[5] == Discount && HEADERS[6] == Credit && HEADERS[7] == Net && HEADERS[8] == Vat && HEADERS[9] == Total;
  }

  lemma CellListed(cell: Cell)
    ensures cell in CELLS
  {
    assert CELLS[0] == Description && CELLS[1] == Quantity && CELLS[2] == Unit && CELLS[3] == UnitPrice && CELLS[4] == LineNet;
    assert CELLS[5] == LineVat && CELLS[6] == LineTotal;
  }

  /** Every field of a proposal is the text its citation cuts out of a region that was read. */
  lemma EverythingCited(language: Language, source: Source, ocr: Recognition, p: Proposal)
    requires ProposalRead(language, source, RowsOfPages(ocr, source.pages), p)
    ensures forall h :: h in p.fields ==> Cited(source, ocr, p.fields[h])
    ensures forall i, cell :: 0 <= i < |p.lines| && cell in p.lines[i] ==> Cited(source, ocr, p.lines[i][cell])
  {
    var rows := RowsOfPages(ocr, source.pages);
    PagesPlaced(source, ocr, |source.pages|);
    assert source.pages[..|source.pages|] == source.pages;
    forall h | h in p.fields
      ensures Cited(source, ocr, p.fields[h])
    {
      UnderCited(language, source, ocr, h, rows);
      var found := StatedUnder(language, source, h, rows);
      HeaderListed(h);
      assert found[0] in found;
      CitedAlike(source, ocr, found[0], p.fields[h]);
    }
    forall i, cell | 0 <= i < |p.lines| && cell in p.lines[i]
      ensures Cited(source, ocr, p.lines[i][cell])
    {
      LinesCited(language, source, ocr, rows, p.lines, i, cell);
    }
  }

  lemma CitedAlike(source: Source, ocr: Recognition, f: Field, g: Field)
    requires Cited(source, ocr, f) && g.raw == f.raw && g.citation == f.citation && g.recognized == f.recognized
    ensures Cited(source, ocr, g)
  {
    var page, region :| page in source.pages && RegionsOf(ocr, page).Some? && region in RegionsOf(ocr, page).value && CitedFrom(source, page, region, f);
    assert CitedFrom(source, page, region, g);
  }

  // ----- no issues -----

  /** The row is blank, a header row, or a line row of exactly seven cells. */
  predicate RowFits(language: Language, text: string) {
    match KindOf(language, text)
    case Empty => true
    case AsHeader(_) => true
    case AsLine => |CellsOf(text)| == 7
    case Unknown => false
  }

  /** A page that was read has a region with something visible in it. */
  predicate PageReadable(language: Language, ocr: Recognition, page: Page) {
    RegionsOf(ocr, page).Some? && exists region :: region in RegionsOf(ocr, page).value && Visible(language, region.text)
  }

  ghost predicate CellClean(language: Language, text: string, name: Cell, i: nat)
    requires IndexOf(text, ':') < |text|
  {
    forall x :: !CellDeserves(language, text, name, i, x)
  }

  ghost predicate RowClean(language: Language, text: string) {
    forall x :: !RowDeserves(language, text, x)
  }

  ghost predicate PageClean(language: Language, ocr: Recognition, page: Page) {
    forall x :: !PageDeserves(language, ocr, page, x)
  }

  ghost predicate HeaderClean(language: Language, h: Header, found: seq<Field>) {
    forall x :: !HeaderDeserves(language, h, found, x)
  }

  /** What a cell's text is worth is sound exactly when it is usable. */
  lemma WorthExactly(name: Cell, f: Field)
    requires f.raw != "" && f.value == Worth(name, f.raw)
    ensures CellSound(name, f) <==> f.value != Null
  {
  }

  lemma CellExactly(language: Language, source: Source, row: Row, name: Cell, i: nat, line: Line)
    requires IndexOf(row.text, ':') < |row.text| && CellRead(language, source, row, name, i, Entry(line, name))
    ensures (name in line && CellSound(name, line[name])) <==> CellClean(language, row.text, name, i)
  {
    if name in line {
      WorthExactly(name, line[name]);
      if line[name].value == Null {
        assert CellDeserves(language, row.text, name, i, if name == Quantity then InvalidQuantity else InvalidAmount);
      }
    } else {
      assert CellDeserves(language, row.text, name, i, MissingCell(name));
    }
  }

  lemma LineExactly(language: Language, source: Source, row: Row, line: Line)
    requires KindOf(language, row.text) == AsLine && LineRead(language, source, row, line)
    ensures RowClean(language, row.text) <==> RowFits(language, row.text) && Complete(line)
  {
    forall i | 0 <= i < |CELLS|
      ensures (CELLS[i] in line && CellSound(CELLS[i], line[CELLS[i]])) <==> CellClean(language, row.text, CELLS[i], i)
    {
      CellExactly(language, source, row, CELLS[i], i, line);
    }
    CellsClean(language, row.text, line);
  }

  lemma CellsClean(language: Language, text: string, line: Line)
    requires KindOf(language, text) == AsLine
    requires forall i :: 0 <= i < |CELLS| ==>
               ((CELLS[i] in line && CellSound(CELLS[i], line[CELLS[i]])) <==> CellClean(language, text, CELLS[i], i))
    ensures RowClean(language, text) <==> RowFits(language, text) && Complete(line)
  {
    if RowClean(language, text) {
      assert !RowDeserves(language, text, InvalidLineStructure);
      forall i | 0 <= i < |CELLS|
        ensures CellClean(language, text, CELLS[i], i)
      {
        forall x
          ensures !CellDeserves(language, text, CELLS[i], i, x)
        {
          assert !RowDeserves(language, text, x);
        }
      }
    }
    if RowFits(language, text) && Complete(line) {
      forall i | 0 <= i < |CELLS|
        ensures CELLS[i] in line && CellSound(CELLS[i], line[CELLS[i]])
      {
        assert CELLS[i] in CELLS;
      }
    }
  }

  lemma {:induction false} RowsExactly(language: Language, source: Source, rows: seq<Row>, lines: seq<Line>)
    requires LinesRead(language, source, rows, lines)
    ensures (forall row :: row in rows ==> RowClean(language, row.text)) <==>
            (forall row :: row in rows ==> RowFits(language, row.text)) && AllComplete(lines)
    decreases |rows|
  {
    if rows != [] {
      var n := |rows| - 1;
      var row := rows[n];
      assert forall r :: r in rows <==> r in rows[..n] || r == row;
      if KindOf(language, row.text) == AsLine {
        RowsExactly(language, source, rows[..n], lines[..|lines| - 1]);
        LineExactly(language, source, row, lines[|lines| - 1]);
        CompleteMore(lines);
      } else {
        RowsExactly(language, source, rows[..n], lines);
        OtherExactly(language, row.text);
      }
    }
  }

  lemma CompleteMore(lines: seq<Line>)
    requires lines != []
    ensures AllComplete(lines) <==> AllComplete(lines[..|lines| - 1]) && Complete(lines[|lines| - 1])
  {
  }

  lemma OtherExactly(language: Language, text: string)
    requires KindOf(language, text) != AsLine
    ensures RowClean(language, text) <==> RowFits(language, text)
  {
    if RowClean(language, text) {
      assert !RowDeserves(language, text, UnrecognizedRow);
    }
  }

  lemma PageExactly(language: Language, ocr: Recognition, page: Page)
    ensures PageClean(language, ocr, page) <==> PageReadable(language, ocr, page)
  {
    if PageClean(language, ocr, page) {
      assert !PageDeserves(language, ocr, page, OcrUnavailable) && !PageDeserves(language, ocr, page, UnreadablePage);
    }
  }

  lemma HeaderExactly(language: Language, h: Header, found: seq<Field>, fields: map<Header, Field>)
    requires FieldRead(language, h, found, Stated(fields, h)) && forall f :: f in found ==> f.value == Text(f.raw)
    ensures HeaderClean(language, h, found) <==> h in fields && HeaderSound(language, h, fields[h])
  {
    if HeaderClean(language, h, found) {
      assert !HeaderDeserves(language, h, found, Ambiguous(h)) && !HeaderDeserves(language, h, found, Missing(h));
      assert !HeaderDeserves(language, h, found, InvalidAmount) && !HeaderDeserves(language, h, found, UnsupportedCurrency);
      assert !HeaderDeserves(language, h, found, InvalidDocumentType) && !HeaderDeserves(language, h, found, InvalidDate);
    }
  }

  ghost predicate NoIssue(language: Language, source: Source, ocr: Recognition, p: Proposal) {
    forall x :: !IssueDeserved(language, source, ocr, p, x)
  }

  ghost predicate AllClean(language: Language, source: Source, ocr: Recognition, rows: seq<Row>, p: Proposal) {
    && ManifestOk(source) && (forall page :: page in source.pages ==> PageClean(language, ocr, page))
    && (forall row :: row in rows ==> RowClean(language, row.text))
    && (forall h :: h in HEADERS ==> HeaderClean(language, h, StatedUnder(language, source, h, rows)))
    && (forall x :: !SumsDeserve(language, p.fields, p.lines, x))
  }

  lemma CleanThen(language: Language, source: Source, ocr: Recognition, rows: seq<Row>, p: Proposal, x: Issue)
    requires AllClean(language, source, ocr, rows, p) && rows == RowsOfPages(ocr, source.pages)
    ensures !IssueDeserved(language, source, ocr, p, x)
  {
  }

  lemma RowsGroup(language: Language, source: Source, ocr: Recognition, p: Proposal, row: Row)
    requires NoIssue(language, source, ocr, p) && row in RowsOfPages(ocr, source.pages)
    ensures RowClean(language, row.text)
  {
    forall x
      ensures !RowDeserves(language, row.text, x)
    {
      assert !IssueDeserved(language, source, ocr, p, x);
      assert !RowIssues(language)(row.text, x);
    }
  }

  lemma PagesGroup(language: Language, source: Source, ocr: Recognition, p: Proposal, page: Page)
    requires NoIssue(language, source, ocr, p) && page in source.pages
    ensures PageClean(language, ocr, page)
  {
    forall x
      ensures !PageDeserves(language, ocr, page, x)
    {
      assert !IssueDeserved(language, source, ocr, p, x);
    }
  }

  lemma {:induction false} HeadersGroup(language: Language, source: Source, ocr: Recognition, p: Proposal, h: Header)
    requires NoIssue(language, source, ocr, p) && h in HEADERS
    ensures HeaderClean(language, h, StatedUnder(language, source, h, RowsOfPages(ocr, source.pages)))
  {
    forall x
      ensures !HeaderDeserves(language, h, StatedUnder(language, source, h, RowsOfPages(ocr, source.pages)), x)
    {
      assert !IssueDeserved(language, source, ocr, p, x);
    }
  }

  lemma SumsGroup(language: Language, source: Source, ocr: Recognition, p: Proposal, x: Issue)
    requires NoIssue(language, source, ocr, p)
    ensures ManifestOk(source) && !SumsDeserve(language, p.fields, p.lines, x)
  {
    assert !IssueDeserved(language, source, ocr, p, x) && !IssueDeserved(language, source, ocr, p, PageManifestMismatch);
  }

  /** Nothing is deserved by any of the five groups. */
  lemma GroupsClean(language: Language, source: Source, ocr: Recognition, rows: seq<Row>, p: Proposal)
    requires rows == RowsOfPages(ocr, source.pages)
    ensures NoIssue(language, source, ocr, p) <==> AllClean(language, source, ocr, rows, p)
  {
    if NoIssue(language, source, ocr, p) {
      forall row | row in rows { RowsGroup(language, source, ocr, p, row); }
      forall page | page in source.pages { PagesGroup(language, source, ocr, p, page); }
      forall h | h in HEADERS { HeadersGroup(language, source, ocr, p, h); }
      SumsGroup(language, source, ocr, p, PageManifestMismatch);
      forall x { SumsGroup(language, source, ocr, p, x); }
    }
    if AllClean(language, source, ocr, rows, p) {
      forall x { CleanThen(language, source, ocr, rows, p, x); }
    }
  }

  lemma {:induction false} HeadersExactly(language: Language, source: Source, rows: seq<Row>, p: Proposal)
    requires ProposalRead(language, source, rows, p)
    ensures (forall h :: h in HEADERS ==> HeaderClean(language, h, StatedUnder(language, source, h, rows))) <==> HeadersSound(language, p.fields)
  {
    forall h | h in HEADERS
      ensures HeaderClean(language, h, StatedUnder(language, source, h, rows)) <==> h in p.fields && HeaderSound(language, h, p.fields[h])
    {
      StatedText(language, source, h, rows);
      HeaderExactly(language, h, StatedUnder(language, source, h, rows), p.fields);
    }
  }

  /**
   * No issue is listed exactly when the pages are those expected, all can be read, every row is blank, a
   * header or a line of seven cells, and the document is stated in full and adds up.
   */
  lemma NoIssuesExactly(language: Language, source: Source, ocr: Recognition, p: Proposal)
    requires ProposalRead(language, source, RowsOfPages(ocr, source.pages), p)
    ensures NoIssue(language, source, ocr, p) <==>
            && ManifestOk(source) && (forall page :: page in source.pages ==> PageReadable(language, ocr, page))
            && (forall row :: row in RowsOfPages(ocr, source.pages) ==> RowFits(language, row.text))
            && Reconciled(language, p)
  {
    var rows := RowsOfPages(ocr, source.pages);
    GroupsClean(language, source, ocr, rows, p);
    RowsExactly(language, source, rows, p.lines);
    HeadersExactly(language, source, rows, p);
    forall page { PageExactly(language, ocr, page); }
    if HeadersSound(language, p.fields) && AllComplete(p.lines) {
      ReconcileExactly(language, p);
    }
  }
}
