/**
 * The merchant document extractor (packages/ai/src/merchant-extraction.ts): fields cited from text
 * regions, and what a proposal without issues adds up to. Lower-casing, white space and the calendar
 * are abstract functions; a character is one code unit.
 */
module Merchant {
  import opened Prelude
  import opened Decimals
  import opened CaptureText

  const TEXT_BUDGET := 100_000
  const MICROS := 1_000_000

  // ----- data -----

  datatype Region = Region(id: string, text: string)
  datatype Page = Page(number: nat, digital: bool, regions: seq<Region>)
  datatype Source = Source(objectVersionId: string, contentHash: string, expectedPages: seq<nat>, pages: seq<Page>)

  /** What the recorded recognition of a page holds, if anything. */
  type Recognition = nat -> Option<seq<Region>>

  datatype Citation = Citation(objectVersionId: string, contentHash: string, page: nat, regionId: string, start: nat, end: nat)
  datatype Value = Null | Text(text: string) | Pence(pence: int)
  datatype Field = Field(value: Value, raw: string, citation: Citation, recognized: bool)

  datatype Header = MerchantName | Document | Invoice | Date | Currency | Discount | Credit | Net | Vat | Total
  const HEADERS := [MerchantName, Document, Invoice, Date, Currency, Discount, Credit, Net, Vat, Total]

  /** The seven cells of a line, in their order. */
  datatype Cell = Description | Quantity | Unit | UnitPrice | LineNet | LineVat | LineTotal
  const CELLS := [Description, Quantity, Unit, UnitPrice, LineNet, LineVat, LineTotal]
  type Line = map<Cell, Field>

  datatype Issue =
    | PageManifestMismatch | OcrUnavailable | UnreadablePage | UnrecognizedRow | InvalidLineStructure | MissingCell(cell: Cell)
    | InvalidQuantity | InvalidAmount | Ambiguous(header: Header) | Missing(header: Header) | UnsupportedCurrency | InvalidDocumentType
    | InvalidDate | MissingLines | DuplicateLine | LineNetMismatch | LineTotalMismatch | NetMismatch | VatMismatch | TotalMismatch

  datatype Proposal = Proposal(issues: seq<Issue>, fields: map<Header, Field>, lines: seq<Line>)

  /** The functions of the language's own libraries, and the names a row may start with. */
  datatype Language = Language(blank: Blank, lower: string -> string, collapse: string -> string, validDate: string -> bool,
                               headerOf: string -> Option<Header>, isLine: string -> bool)

  function Noted(issues: seq<Issue>, issue: Issue): (r: seq<Issue>)
    ensures forall x :: x in r <==> x in issues || x == issue
  {
    if issue in issues then issues else issues + [issue]
  }

  // ----- literals -----

  predicate TwoDigits(s: string) {
    |s| == 2 && AllDigits(s)
  }

  /** Pounds with two decimals, in pence. */
  function Amount(raw: string): Option<int> {
    var k := IndexOf(raw, '.');
    if k == |raw| || !Canonical(raw[..k]) || k > 11 || !TwoDigits(raw[k + 1..]) then None
    else
      var pence := DigitsValue(raw[..k]) * 100 + DigitsValue(raw[k + 1..]);
      if pence <= MAX_MONEY_PENCE then Some(pence) else None
  }

  function PadTo(s: string, n: nat): (r: string)
    ensures AllDigits(s) ==> AllDigits(r)
    decreases if |s| < n then n - |s| else 0
  {
    if |s| >= n then s else PadTo(s + "0", n)
  }

  /** A decimal quantity in millionths. */
  function QuantityMicros(raw: string): Option<int> {
    var k := IndexOf(raw, '.');
    var fraction := if k < |raw| then raw[k + 1..] else "";
    if !Canonical(raw[..k]) || k > 14 || !AllDigits(fraction) || |fraction| > 6 || (k < |raw| && fraction == "") then None
    else Some(DigitsValue(raw[..k]) * MICROS + DigitsValue(PadTo(fraction, 6)))
  }

  // ----- citations -----

  /** The regions a page is read from. */
  function RegionsOf(ocr: Recognition, page: Page): Option<seq<Region>> {
    if page.digital then Some(page.regions) else ocr(page.number)
  }

  /** The field's raw text is what its citation cuts out of the region. */
  predicate CitedFrom(source: Source, page: Page, region: Region, f: Field) {
    && f.citation == Citation(source.objectVersionId, source.contentHash, page.number, region.id, f.citation.start, f.citation.start + |f.raw|)
    && At(region.text, f.raw, f.citation.start) && f.recognized == !page.digital
  }

  ghost predicate Cited(source: Source, ocr: Recognition, f: Field) {
    exists page, region ::
      page in source.pages && RegionsOf(ocr, page).Some? && region in RegionsOf(ocr, page).value && CitedFrom(source, page, region, f)
  }

  // ----- a line -----

  predicate CellSound(cell: Cell, f: Field) {
    match cell
    case Description => f.raw != ""
    case Unit => f.raw != ""
    case Quantity => f.value == Text(f.raw) && QuantityMicros(f.raw).Some? && QuantityMicros(f.raw).value > 0
    case _ => f.value.Pence? && Amount(f.raw) == Some(f.value.pence)
  }

  /** A line with all its cells stated and readable. */
  predicate Complete(line: Line) {
    NamedSound(CELLS, line)
  }

  predicate NamedSound(names: seq<Cell>, line: Line) {
    forall name :: name in names ==> name in line && CellSound(name, line[name])
  }

  function PenceOf(line: Line, cell: Cell): int {
    if cell in line && line[cell].value.Pence? then line[cell].value.pence else 0
  }

  function MicrosOf(line: Line): int {
    if Quantity in line && QuantityMicros(line[Quantity].raw).Some? then QuantityMicros(line[Quantity].raw).value else 0
  }

  datatype Part = NullPart | NumberPart(n: int) | TextPart(s: string)

  /** What tells two lines apart: numbers by value, texts by their collapsed lower-case form. */
  function PartOf(language: Language, line: Line, cell: Cell): Part {
    if cell !in line then NullPart
    else
      var f := line[cell];
      if cell == Quantity && f.value.Text? && QuantityMicros(f.raw).Some? then NumberPart(QuantityMicros(f.raw).value)
      else if f.value.Pence? then NumberPart(f.value.pence)
      else TextPart(language.collapse(language.lower(Trim(language.blank, f.raw))))
  }

  function IdentityOf(language: Language, line: Line): seq<Part> {
    [PartOf(language, line, Description), PartOf(language, line, Quantity), PartOf(language, line, Unit), PartOf(language, line, UnitPrice),
     PartOf(language, line, LineNet), PartOf(language, line, LineVat), PartOf(language, line, LineTotal)]
  }

  function PenceIn(cell: Cell): Line -> int {
    (line: Line) => PenceOf(line, cell)
  }

  /** A line multiplies out exactly and its net and VAT make its total. */
  predicate LineAddsUp(line: Line) {
    && MicrosOf(line) * PenceOf(line, UnitPrice) == PenceOf(line, LineNet) * MICROS
    && PenceOf(line, LineNet) + PenceOf(line, LineVat) == PenceOf(line, LineTotal)
  }

  predicate IsMoney(h: Header) {
    h == Discount || h == Credit || h == Net || h == Vat || h == Total
  }

  function HeaderPence(fields: map<Header, Field>, h: Header): int {
    if h in fields && fields[h].value.Pence? then fields[h].value.pence else 0
  }

  predicate HeaderSound(language: Language, h: Header, f: Field) {
    && f.raw != ""
    && (IsMoney(h) ==> f.value.Pence? && Amount(f.raw) == Some(f.value.pence))
    && (h == Currency ==> f.raw == "GBP") && (h == Document ==> f.raw == "invoice" || f.raw == "credit")
    && (h == Date ==> language.validDate(f.raw))
  }

  function Identifier(language: Language): Line -> seq<Part> {
    (line: Line) => IdentityOf(language, line)
  }

  predicate HeadersSound(language: Language, fields: map<Header, Field>) {
    forall h :: h in HEADERS ==> h in fields && HeaderSound(language, h, fields[h])
  }

  predicate AllComplete(lines: seq<Line>) {
    forall i :: 0 <= i < |lines| ==> Complete(lines[i])
  }

  /** Every line adds up and none repeats another. */
  ghost predicate LinesSound(identify: Line -> seq<Part>, lines: seq<Line>) {
    && (forall i :: 0 <= i < |lines| ==> LineAddsUp(lines[i]))
    && (forall i, j :: 0 <= i < j < |lines| ==> identify(lines[i]) != identify(lines[j]))
  }

  predicate TotalsAgree(fields: map<Header, Field>, lineNet: int, lineTax: int) {
    && lineNet - HeaderPence(fields, Discount) - HeaderPence(fields, Credit) == HeaderPence(fields, Net)
    && lineTax == HeaderPence(fields, Vat)
    && HeaderPence(fields, Net) + HeaderPence(fields, Vat) == HeaderPence(fields, Total)
  }

  /** A document that adds up: every field stated, every line complete and exact, and the totals agree. */
  ghost predicate Reconciled(language: Language, proposal: Proposal) {
    && HeadersSound(language, proposal.fields) && proposal.lines != [] && AllComplete(proposal.lines)
    && LinesSound(Identifier(language), proposal.lines)
    && TotalsAgree(proposal.fields, SumBy(proposal.lines, PenceIn(LineNet)), SumBy(proposal.lines, PenceIn(LineVat)))
  }

  /** In a reconciled document the line totals come to the document total plus discount and credit. */
  lemma LineTotalsAddUp(language: Language, proposal: Proposal)
    requires Reconciled(language, proposal)
    ensures SumBy(proposal.lines, PenceIn(LineTotal))
         == HeaderPence(proposal.fields, Total) + HeaderPence(proposal.fields, Discount) + HeaderPence(proposal.fields, Credit)
  {
    TotalsSum(proposal.lines);
  }

  lemma {:induction false} TotalsSum(lines: seq<Line>)
    requires forall i :: 0 <= i < |lines| ==> LineAddsUp(lines[i])
    ensures SumBy(lines, PenceIn(LineTotal)) == SumBy(lines, PenceIn(LineNet)) + SumBy(lines, PenceIn(LineVat))
  {
    if lines != [] {
      TotalsSum(lines[1..]);
    }
  }

  // ----- rows -----

  /** A row of a region, and where in the region it starts. */
  datatype Row = Row(page: Page, region: Region, text: string, offset: nat)

  /** The first parts of a region as rows. */
  function RowsUpTo(page: Page, region: Region, parts: seq<string>, n: nat): seq<Row>
    requires n <= |parts|
  {
    if n == 0 then [] else RowsUpTo(page, region, parts, n - 1) + [Row(page, region, parts[n - 1], Start(parts, n - 1))]
  }

  function RowsIn(page: Page, region: Region): seq<Row> {
    var parts := Split(region.text, '\n');
    RowsUpTo(page, region, parts, |parts|)
  }

  function RowsOf(page: Page, regions: seq<Region>): seq<Row> {
    if regions == [] then [] else RowsOf(page, regions[..|regions| - 1]) + RowsIn(page, regions[|regions| - 1])
  }

  /** All rows in the order of their pages and regions. */
  function RowsOfPages(ocr: Recognition, pages: seq<Page>): seq<Row> {
    if pages == [] then []
    else
      var last := pages[|pages| - 1];
      RowsOfPages(ocr, pages[..|pages| - 1]) + if RegionsOf(ocr, last).Some? then RowsOf(last, RegionsOf(ocr, last).value) else []
  }

  predicate Visible(language: Language, s: string) {
    Trim(language.blank, s) != ""
  }

  /** What a row is taken for, by what stands before its first colon. */
  datatype Kind = Empty | Unknown | AsLine | AsHeader(header: Header)

  function KindOf(language: Language, text: string): (kind: Kind)
    ensures kind.AsLine? || kind.AsHeader? ==> IndexOf(text, ':') < |text|
  {
    var colon := IndexOf(text, ':');
    if !Visible(language, text) then Empty
    else if colon == |text| then Unknown
    else
      var key := language.lower(Trim(language.blank, text[..colon]));
      if language.isLine(key) then AsLine else if language.headerOf(key).Some? then AsHeader(language.headerOf(key).value) else Unknown
  }

  /** Raw text cut from a region, cited where it starts. */
  function Extracted(source: Source, page: Page, region: Region, raw: string, start: nat): Field {
    Field(Text(raw), raw, Citation(source.objectVersionId, source.contentHash, page.number, region.id, start, start + |raw|), !page.digital)
  }

  /** The cells of a line row: what follows its first colon, between bars. */
  function CellsOf(text: string): seq<string>
    requires IndexOf(text, ':') < |text|
  {
    Split(text[IndexOf(text, ':') + 1..], '|')
  }

  /** What the text of a cell is worth: itself, an amount in pence, or nothing that can be used. */
  function Worth(name: Cell, raw: string): Value {
    match name
    case Description => Text(raw)
    case Unit => Text(raw)
    case Quantity => if QuantityMicros(raw).Some? && QuantityMicros(raw).value > 0 then Text(raw) else Null
    case _ => if Amount(raw).Some? then Pence(Amount(raw).value) else Null
  }

  function Entry(line: Line, name: Cell): Option<Field> {
    if name in line then Some(line[name]) else None
  }

  /** A cell is the trimmed text between its bars, cited where it stands in the region. */
  function CellField(language: Language, source: Source, row: Row, name: Cell, i: nat): Field
    requires IndexOf(row.text, ':') < |row.text| && i < |CellsOf(row.text)|
  {
    var cells := CellsOf(row.text);
    var raw, place := Trim(language.blank, cells[i]), row.offset + (IndexOf(row.text, ':') + 1) + Start(cells, i) + Leading(language.blank, cells[i]);
    Extracted(source, row.page, row.region, raw, place).(value := Worth(name, raw))
  }

  /** The cell is that of its column, or nothing when the row has none or it is blank. */
  predicate CellRead(language: Language, source: Source, row: Row, name: Cell, i: nat, field: Option<Field>)
    requires IndexOf(row.text, ':') < |row.text|
  {
    field == if i < |CellsOf(row.text)| && Visible(language, CellsOf(row.text)[i]) then Some(CellField(language, source, row, name, i)) else None
  }

  /** The first cells of a line are those of its row. */
  predicate CellsRead(language: Language, source: Source, row: Row, names: seq<Cell>, n: nat, line: Line)
    requires IndexOf(row.text, ':') < |row.text| && n <= |names|
  {
    forall i :: 0 <= i < n ==> CellRead(language, source, row, names[i], i, Entry(line, names[i]))
  }

  lemma CellsReadMore(language: Language, source: Source, row: Row, names: seq<Cell>, n: nat, line: Line, field: Option<Field>)
    requires IndexOf(row.text, ':') < |row.text| && n < |names| && Distinct(names) && names[n] !in line
    requires CellsRead(language, source, row, names, n, line) && CellRead(language, source, row, names[n], n, field)
    ensures CellsRead(language, source, row, names, n + 1, if field.Some? then line[names[n] := field.value] else line)
  {
    var more := if field.Some? then line[names[n] := field.value] else line;
    forall i | 0 <= i < n
      ensures Entry(more, names[i]) == Entry(line, names[i])
    {
      assert names[i] != names[n];
    }
  }

  /** A line holds the seven cells of its row. */
  predicate LineRead(language: Language, source: Source, row: Row, line: Line)
    requires IndexOf(row.text, ':') < |row.text|
  {
    CellsRead(language, source, row, CELLS, |CELLS|, line)
  }

  /** The lines read are those of the line rows, in their order. */
  ghost predicate LinesRead(language: Language, source: Source, rows: seq<Row>, lines: seq<Line>) {
    if rows == [] then lines == []
    else
      var n := |rows| - 1;
      if KindOf(language, rows[n].text) == AsLine
      then lines != [] && LineRead(language, source, rows[n], lines[|lines| - 1]) && LinesRead(language, source, rows[..n], lines[..|lines| - 1])
      else LinesRead(language, source, rows[..n], lines)
  }

  /** What a header row says: the trimmed text after its colon, cited where it stands. */
  function HeaderField(language: Language, source: Source, row: Row): Field
    requires IndexOf(row.text, ':') < |row.text|
  {
    var n := IndexOf(row.text, ':') + 1;
    var raw := Trim(language.blank, row.text[n..]);
    Extracted(source, row.page, row.region, raw, row.offset + n + if raw == "" then 0 else Leading(language.blank, row.text[n..]))
  }

  /** Everything stated under a header, in order. */
  function StatedUnder(language: Language, source: Source, h: Header, rows: seq<Row>): seq<Field> {
    if rows == [] then []
    else
      var n := |rows| - 1;
      StatedUnder(language, source, h, rows[..n])
      + if KindOf(language, rows[n].text) == AsHeader(h) then [HeaderField(language, source, rows[n])] else []
  }

  // ----- what is noted of pages and rows -----

  predicate PageDeserves(language: Language, ocr: Recognition, page: Page, issue: Issue) {
    match RegionsOf(ocr, page)
    case None => issue == OcrUnavailable
    case Some(regions) => issue == UnreadablePage && forall region :: region in regions ==> !Visible(language, region.text)
  }

  predicate CellDeserves(language: Language, text: string, name: Cell, i: nat, issue: Issue)
    requires IndexOf(text, ':') < |text|
  {
    var cells := CellsOf(text);
    if i >= |cells| || !Visible(language, cells[i]) then issue == MissingCell(name)
    else issue == (if name == Quantity then InvalidQuantity else InvalidAmount) && Worth(name, Trim(language.blank, cells[i])) == Null
  }

  ghost predicate CellsDeserve(language: Language, text: string, names: seq<Cell>, n: nat, issue: Issue)
    requires IndexOf(text, ':') < |text| && n <= |names|
  {
    exists i :: 0 <= i < n && CellDeserves(language, text, names[i], i, issue)
  }

  lemma {:induction false} CellsDeserveMore(language: Language, text: string, names: seq<Cell>, n: nat)
    requires IndexOf(text, ':') < |text| && n < |names|
    ensures forall x :: CellsDeserve(language, text, names, n + 1, x) <==>
              CellsDeserve(language, text, names, n, x) || CellDeserves(language, text, names[n], n, x)
  {
  }

  ghost predicate RowDeserves(language: Language, text: string, issue: Issue) {
    match KindOf(language, text)
    case Empty => false
    case Unknown => issue == UnrecognizedRow
    case AsHeader(_) => false
    case AsLine =>
      || (issue == InvalidLineStructure && |CellsOf(text)| != |CELLS|)
      || CellsDeserve(language, text, CELLS, |CELLS|, issue)
  }

  ghost function RowIssues(language: Language): (string, Issue) -> bool {
    (text: string, issue: Issue) => RowDeserves(language, text, issue)
  }

  ghost predicate RowsDeserve(language: Language, rows: seq<Row>, issue: Issue) {
    exists row :: row in rows && RowIssues(language)(row.text, issue)
  }

  /** What is noted is what was noted before and what the rows deserve. */
  ghost predicate Noting(language: Language, before: seq<Issue>, rows: seq<Row>, after: seq<Issue>) {
    forall x :: x in after <==> x in before || RowsDeserve(language, rows, x)
  }

  ghost predicate PagesDeserve(language: Language, ocr: Recognition, pages: seq<Page>, issue: Issue) {
    exists page :: page in pages && PageDeserves(language, ocr, page, issue)
  }

  // ----- reading rows -----

  /** What has been read so far. */
  datatype Draft = Draft(issues: seq<Issue>, headers: map<Header, seq<Field>>, lines: seq<Line>)

  function Found(headers: map<Header, seq<Field>>, h: Header): seq<Field> {
    if h in headers then headers[h] else []
  }

  ghost predicate HeadersRead(language: Language, source: Source, rows: seq<Row>, headers: map<Header, seq<Field>>) {
    forall h :: Found(headers, h) == StatedUnder(language, source, h, rows)
  }

  /** The draft holds what the rows say. */
  ghost predicate DraftRead(language: Language, source: Source, rows: seq<Row>, d: Draft) {
    LinesRead(language, source, rows, d.lines) && HeadersRead(language, source, rows, d.headers)
  }

  method ValidateCell(cell: Cell, field: Field, issues: seq<Issue>) returns (f: Field, noted: seq<Issue>)
    requires field.value == Text(field.raw)
    ensures f == field.(value := Worth(cell, field.raw))
    ensures forall x :: x in noted <==> x in issues || (f.value == Null && x == if cell == Quantity then InvalidQuantity else InvalidAmount)
  {
    f, noted := field, issues;
    if cell == Quantity {
      if QuantityMicros(field.raw).None? || QuantityMicros(field.raw).value == 0 {
        f := f.(value := Null);
        noted := Noted(noted, InvalidQuantity);
      }
    } else if cell != Description && cell != Unit {
      var amount := Amount(field.raw);
      if amount.Some? {
        f := f.(value := Pence(amount.value));
      } else {
        f := f.(value := Null);
        noted := Noted(noted, InvalidAmount);
      }
    }
  }

  /** Reads one cell of a line row, if the row has it. */
  method ReadCell(language: Language, source: Source, row: Row, cells: seq<string>, name: Cell, i: nat, cellOffset: nat, issues: seq<Issue>)
    returns (field: Option<Field>, noted: seq<Issue>)
    requires IndexOf(row.text, ':') < |row.text| && cells == CellsOf(row.text)
    requires i < |cells| ==> cellOffset == Start(cells, i)
    ensures CellRead(language, source, row, name, i, field)
    ensures forall x :: x in noted <==> x in issues || CellDeserves(language, row.text, name, i, x)
  {
    if i >= |cells| || Trim(language.blank, cells[i]) == "" { return None, Noted(issues, MissingCell(name)); }
    var trimmed := Trim(language.blank, cells[i]);
    var start := row.offset + IndexOf(row.text, ':') + 1 + cellOffset + Find(cells[i], trimmed, 0);
    FoundFirst(language.blank, cells[i]);
    var valid;
    valid, noted := ValidateCell(name, Extracted(source, row.page, row.region, trimmed, start), issues);
    return Some(valid), noted;
  }

  /** Reads the named cells of one line row, in order. */
  method ReadLine(language: Language, source: Source, row: Row, names: seq<Cell>, issues: seq<Issue>) returns (line: Line, noted: seq<Issue>)
    requires IndexOf(row.text, ':') < |row.text| && Distinct(names)
    ensures CellsRead(language, source, row, names, |names|, line)
    ensures forall x :: x in noted <==>
              || x in issues || (x == InvalidLineStructure && |CellsOf(row.text)| != |names|)
              || CellsDeserve(language, row.text, names, |names|, x)
  {
    line, noted := map[], issues;
    var cells := Split(row.text[IndexOf(row.text, ':') + 1..], '|');
    if |cells| != |names| { noted := Noted(noted, InvalidLineStructure); }
    ghost var first := noted;
    var cellOffset: nat := 0;
    for i := 0 to |names|
      invariant i < |cells| ==> cellOffset == Start(cells, i)
      invariant CellsRead(language, source, row, names, i, line) && forall name :: name in line ==> name in names[..i]
      invariant forall x :: x in noted <==> x in first || CellsDeserve(language, row.text, names, i, x)
    {
      var field;
      field, noted := ReadCell(language, source, row, cells, names[i], i, cellOffset, noted);
      assert names[..i + 1] == names[..i] + [names[i]] && names[i] !in names[..i];
      CellsReadMore(language, source, row, names, i, line, field);
      if field.Some? { line := line[names[i] := field.value]; }
      CellsDeserveMore(language, row.text, names, i);
      if i + 1 < |cells| {
        StartNext(cells, i);
      }
      cellOffset := cellOffset + if i < |cells| then |cells[i]| + 1 else 1;
    }
    assert names[..|names|] == names;
  }

  lemma {:induction false} UnderMore(language: Language, source: Source, rows: seq<Row>, row: Row, h: Header)
    ensures StatedUnder(language, source, h, rows + [row])
         == StatedUnder(language, source, h, rows) + if KindOf(language, row.text) == AsHeader(h) then [HeaderField(language, source, row)] else []
  {
    assert (rows + [row])[..|rows|] == rows;
  }

  lemma {:induction false} LinesMore(language: Language, source: Source, rows: seq<Row>, row: Row, lines: seq<Line>)
    requires LinesRead(language, source, rows, lines)
    ensures KindOf(language, row.text) != AsLine ==> LinesRead(language, source, rows + [row], lines)
    ensures forall line :: KindOf(language, row.text) == AsLine && LineRead(language, source, row, line) ==> LinesRead(language, source, rows + [row], lines + [line])
  {
    assert (rows + [row])[..|rows|] == rows;
    forall line: Line
      ensures (lines + [line])[..|lines|] == lines && (lines + [line])[|lines|] == line
    {
    }
  }

  lemma HeadersMore(language: Language, source: Source, rows: seq<Row>, row: Row, headers: map<Header, seq<Field>>)
    requires HeadersRead(language, source, rows, headers)
    ensures !KindOf(language, row.text).AsHeader? ==> HeadersRead(language, source, rows + [row], headers)
  {
    forall h { UnderMore(language, source, rows, row, h); }
  }

  lemma HeaderMore(language: Language, source: Source, rows: seq<Row>, row: Row, name: Header, headers: map<Header, seq<Field>>)
    requires HeadersRead(language, source, rows, headers) && KindOf(language, row.text) == AsHeader(name)
    ensures HeadersRead(language, source, rows + [row], headers[name := Found(headers, name) + [HeaderField(language, source, row)]])
  {
    forall h { UnderMore(language, source, rows, row, h); }
  }

  /** A header row adds its cited content to what has been found under the header. */
  method ReadHeaderRow(language: Language, source: Source, ghost rows: seq<Row>, row: Row, name: Header, headers: map<Header, seq<Field>>)
    returns (more: map<Header, seq<Field>>)
    requires KindOf(language, row.text) == AsHeader(name) && HeadersRead(language, source, rows, headers)
    ensures HeadersRead(language, source, rows + [row], more)
  {
    var colon := IndexOf(row.text, ':');
    var content := row.text[colon + 1..];
    var trimmed := Trim(language.blank, content);
    var start := row.offset + colon + 1 + if trimmed == "" then 0 else Find(content, trimmed, 0);
    FoundFirst(language.blank, content);
    var field := Extracted(source, row.page, row.region, trimmed, start);
    assert field == HeaderField(language, source, row);
    HeaderMore(language, source, rows, row, name, headers);
    var found := if name in headers then headers[name] else [];
    more := headers[name := found + [field]];
  }

  /** One row added to what has been read. */
  method ReadRow(language: Language, source: Source, ghost rows: seq<Row>, row: Row, draft: Draft) returns (d: Draft)
    requires DraftRead(language, source, rows, draft)
    ensures DraftRead(language, source, rows + [row], d)
    ensures Noting(language, draft.issues, [row], d.issues)
  {
    d := draft;
    RowDeservesAlone(language, row);
    LinesMore(language, source, rows, row, d.lines);
    HeadersMore(language, source, rows, row, d.headers);
    if Trim(language.blank, row.text) == "" { return; }
    var colon := IndexOf(row.text, ':');
    if colon == |row.text| { return d.(issues := Noted(d.issues, UnrecognizedRow)); }
    var key := language.lower(Trim(language.blank, row.text[..colon]));
    if language.isLine(key) {
      var line, issues := ReadLine(language, source, row, CELLS, draft.issues);
      d := d.(issues := issues, lines := d.lines + [line]);
    } else if language.headerOf(key).Some? {
      var headers := ReadHeaderRow(language, source, rows, row, language.headerOf(key).value, d.headers);
      d := d.(headers := headers);
    } else {
      d := d.(issues := Noted(d.issues, UnrecognizedRow));
    }
  }

  lemma {:induction false} FoundFirst(blank: Blank, s: string)
    ensures Trim(blank, s) != "" ==> Find(s, Trim(blank, s), 0) == Leading(blank, s)
  {
    assert s[0..] == s;
    if Trim(blank, s) != "" {
      FindTrimmed(blank, s, 0);
    }
  }

  /** All rows of a region, with a running offset. */
  method ReadRegion(language: Language, source: Source, ghost rows: seq<Row>, page: Page, region: Region, draft: Draft) returns (d: Draft)
    requires DraftRead(language, source, rows, draft)
    ensures DraftRead(language, source, rows + RowsIn(page, region), d)
    ensures Noting(language, draft.issues, RowsIn(page, region), d.issues)
  {
    d := draft;
    var parts := Split(region.text, '\n');
    var offset := 0;
    ghost var done: seq<Row> := [];
    assert rows + done == rows;
    for i := 0 to |parts|
      invariant i < |parts| ==> offset == Start(parts, i)
      invariant done == RowsUpTo(page, region, parts, i)
      invariant DraftRead(language, source, rows + done, d) && Noting(language, draft.issues, done, d.issues)
    {
      var row := Row(page, region, parts[i], offset);
      ghost var before := d.issues;
      d := ReadRow(language, source, rows + done, row, d);
      NotingMore(language, draft.issues, before, d.issues, done, [row]);
      assert rows + done + [row] == rows + (done + [row]);
      done := done + [row];
      if i + 1 < |parts| {
        StartNext(parts, i);
      }
      offset := offset + |parts[i]| + 1;
    }
  }

  lemma NotingMore(language: Language, first: seq<Issue>, before: seq<Issue>, after: seq<Issue>, done: seq<Row>, more: seq<Row>)
    requires Noting(language, first, done, before) && Noting(language, before, more, after)
    ensures Noting(language, first, done + more, after)
  {
    RowsDeserveMore(language, done, more);
  }

  lemma RowDeservesAlone(language: Language, row: Row)
    ensures forall x :: RowsDeserve(language, [row], x) <==> RowIssues(language)(row.text, x)
  {
    assert row in [row];
  }

  lemma RowsDeserveMore(language: Language, a: seq<Row>, b: seq<Row>)
    ensures forall x :: RowsDeserve(language, a + b, x) <==> RowsDeserve(language, a, x) || RowsDeserve(language, b, x)
  {
    assert forall row :: row in a + b <==> row in a || row in b;
  }

  function TextOf(regions: seq<Region>): nat {
    if regions == [] then 0 else TextOf(regions[..|regions| - 1]) + |regions[|regions| - 1].text|
  }

  function TextOfPages(ocr: Recognition, pages: seq<Page>): nat {
    if pages == [] then 0
    else
      var last := RegionsOf(ocr, pages[|pages| - 1]);
      TextOfPages(ocr, pages[..|pages| - 1]) + if last.Some? then TextOf(last.value) else 0
  }

  lemma {:induction false} TextGrows(regions: seq<Region>, n: nat)
    requires n <= |regions|
    ensures TextOf(regions[..n]) <= TextOf(regions)
    decreases |regions| - n
  {
    if n == |regions| {
      assert regions[..n] == regions;
    } else {
      assert regions[..n + 1][..n] == regions[..n];
      TextGrows(regions, n + 1);
    }
  }

  lemma {:induction false} PagesGrow(ocr: Recognition, pages: seq<Page>, n: nat)
    requires n <= |pages|
    ensures TextOfPages(ocr, pages[..n]) <= TextOfPages(ocr, pages)
    decreases |pages| - n
  {
    if n == |pages| {
      assert pages[..n] == pages;
    } else {
      assert pages[..n + 1][..n] == pages[..n];
      PagesGrow(ocr, pages, n + 1);
    }
  }

  lemma {:induction false} RegionsMore(page: Page, regions: seq<Region>, i: nat)
    requires i < |regions|
    ensures RowsOf(page, regions[..i + 1]) == RowsOf(page, regions[..i]) + RowsIn(page, regions[i])
    ensures TextOf(regions[..i + 1]) == TextOf(regions[..i]) + |regions[i].text| <= TextOf(regions)
  {
    assert regions[..i + 1][..i] == regions[..i];
    TextGrows(regions, i + 1);
  }

  /** All regions of one page, within the text budget. */
  method ReadRegions(language: Language, source: Source, ghost rows: seq<Row>, page: Page, regions: seq<Region>, draft: Draft, budget: int)
    returns (d: Draft, left: int)
    requires budget >= 0 && DraftRead(language, source, rows, draft)
    ensures left < 0 <==> budget < TextOf(regions)
    ensures left >= 0 ==> left == budget - TextOf(regions) && DraftRead(language, source, rows + RowsOf(page, regions), d)
    ensures left >= 0 ==> Noting(language, draft.issues, RowsOf(page, regions), d.issues)
  {
    d, left := draft, budget;
    ghost var done: seq<Row>, all := [], rows;
    assert rows + done == rows;
    for i := 0 to |regions|
      invariant left == budget - TextOf(regions[..i]) && left >= 0
      invariant done == RowsOf(page, regions[..i]) && all == rows + done
      invariant DraftRead(language, source, all, d) && Noting(language, draft.issues, done, d.issues)
    {
      RegionsMore(page, regions, i);
      left := left - |regions[i].text|;
      if left < 0 { return; }
      ghost var before, more := d.issues, RowsIn(page, regions[i]);
      d := ReadRegion(language, source, all, page, regions[i], d);
      NotingMore(language, draft.issues, before, d.issues, done, more);
      done, all := done + more, all + more;
    }
    assert regions[..|regions|] == regions;
  }

  /** What the pages and rows read so far deserve. */
  ghost predicate Deserved(language: Language, ocr: Recognition, first: seq<Issue>, pages: seq<Page>, rows: seq<Row>, issue: Issue) {
    issue in first || PagesDeserve(language, ocr, pages, issue) || RowsDeserve(language, rows, issue)
  }

  /** One page added to what has been read; the budget left is negative if its text exceeds it. */
  method ReadPage(language: Language, source: Source, ghost rows: seq<Row>, ocr: Recognition, page: Page, draft: Draft, budget: int)
    returns (d: Draft, left: int)
    requires budget >= 0 && DraftRead(language, source, rows, draft)
    ensures left == budget - TextOfPages(ocr, [page]) || (left < 0 && budget < TextOfPages(ocr, [page]))
    ensures left >= 0 ==> DraftRead(language, source, rows + RowsOfPages(ocr, [page]), d)
    ensures left >= 0 ==> forall x :: x in d.issues <==>
              x in draft.issues || PageDeserves(language, ocr, page, x) || RowsDeserve(language, RowsOfPages(ocr, [page]), x)
  {
    d, left := draft, budget;
    assert [page][..0] == [];
    var regions := if page.digital then Some(page.regions) else ocr(page.number);
    if regions.None? {
      assert rows + [] == rows;
      d := d.(issues := Noted(d.issues, OcrUnavailable));
    } else {
      assert RowsOfPages(ocr, [page]) == RowsOf(page, regions.value);
      if forall region :: region in regions.value ==> Trim(language.blank, region.text) == "" {
        d := d.(issues := Noted(d.issues, UnreadablePage));
      }
      d, left := ReadRegions(language, source, rows, page, regions.value, d, budget);
    }
  }

  /** All pages in order; None when their text exceeds the budget. */
  method ReadPages(language: Language, source: Source, ocr: Recognition, issues: seq<Issue>) returns (r: Option<Draft>)
    ensures r.None? <==> TextOfPages(ocr, source.pages) > TEXT_BUDGET
    ensures r.Some? ==> DraftRead(language, source, RowsOfPages(ocr, source.pages), r.value)
    ensures r.Some? ==> forall x :: x in r.value.issues <==> Deserved(language, ocr, issues, source.pages, RowsOfPages(ocr, source.pages), x)
  {
    var d, budget: int := Draft(issues, map[], []), TEXT_BUDGET;
    ghost var rows: seq<Row> := [];
    for i := 0 to |source.pages|
      invariant budget == TEXT_BUDGET - TextOfPages(ocr, source.pages[..i]) && budget >= 0
      invariant rows == RowsOfPages(ocr, source.pages[..i]) && DraftRead(language, source, rows, d)
      invariant forall x :: x in d.issues <==> Deserved(language, ocr, issues, source.pages[..i], rows, x)
    {
      PagesMore(ocr, source.pages, i);
      PagesGrow(ocr, source.pages, i + 1);
      DeservedMore(language, ocr, issues, source.pages, i, rows);
      d, budget := ReadPage(language, source, rows, ocr, source.pages[i], d, budget);
      if budget < 0 { return None; }
      rows := rows + RowsOfPages(ocr, [source.pages[i]]);
    }
    assert source.pages[..|source.pages|] == source.pages;
    return Some(d);
  }

  lemma PagesMore(ocr: Recognition, pages: seq<Page>, i: nat)
    requires i < |pages|
    ensures TextOfPages(ocr, pages[..i + 1]) == TextOfPages(ocr, pages[..i]) + TextOfPages(ocr, [pages[i]])
    ensures RowsOfPages(ocr, pages[..i + 1]) == RowsOfPages(ocr, pages[..i]) + RowsOfPages(ocr, [pages[i]])
  {
    assert pages[..i + 1][..i] == pages[..i] && [pages[i]][..0] == [];
  }

  lemma DeservedMore(language: Language, ocr: Recognition, first: seq<Issue>, pages: seq<Page>, i: nat, rows: seq<Row>)
    requires i < |pages|
    ensures forall x :: Deserved(language, ocr, first, pages[..i + 1], rows + RowsOfPages(ocr, [pages[i]]), x) <==>
              || Deserved(language, ocr, first, pages[..i], rows, x)
              || PageDeserves(language, ocr, pages[i], x) || RowsDeserve(language, RowsOfPages(ocr, [pages[i]]), x)
  {
    RowsDeserveMore(language, rows, RowsOfPages(ocr, [pages[i]]));
    assert forall page :: page in pages[..i + 1] <==> page in pages[..i] || page == pages[i];
  }

  // ----- the document's own fields -----

  function HeaderWorth(language: Language, h: Header, raw: string): Value {
    if IsMoney(h) then if Amount(raw).Some? then Pence(Amount(raw).value) else Null
    else if h == Date && !language.validDate(raw) then Null else Text(raw)
  }

  function Stated(fields: map<Header, Field>, h: Header): Option<Field> {
    if h in fields then Some(fields[h]) else None
  }

  /** A header counts only when it is stated once and not blank. */
  predicate FieldRead(language: Language, h: Header, found: seq<Field>, field: Option<Field>) {
    field == if |found| == 1 && found[0].raw != "" then Some(found[0].(value := HeaderWorth(language, h, found[0].raw))) else None
  }

  predicate HeaderDeserves(language: Language, h: Header, found: seq<Field>, issue: Issue) {
    if |found| > 1 then issue == Ambiguous(h)
    else if found == [] || found[0].raw == "" then issue == Missing(h)
    else StatedDeserves(language, h, found[0].raw, issue)
  }

  predicate StatedDeserves(language: Language, h: Header, raw: string, issue: Issue) {
    || (issue == InvalidAmount && IsMoney(h) && Amount(raw).None?)
    || (issue == UnsupportedCurrency && h == Currency && raw != "GBP")
    || (issue == InvalidDocumentType && h == Document && raw != "invoice" && raw != "credit")
    || (issue == InvalidDate && h == Date && !language.validDate(raw))
  }

  /** A header stated once: its value read where it is money, and noted when it is not acceptable. */
  method ReadHeader(language: Language, h: Header, field: Field, issues: seq<Issue>) returns (f: Field, noted: seq<Issue>)
    requires field.value == Text(field.raw)
    ensures f == field.(value := HeaderWorth(language, h, field.raw))
    ensures forall x :: x in noted <==> x in issues || StatedDeserves(language, h, field.raw, x)
  {
    f, noted := field, issues;
    if IsMoney(h) {
      var amount := Amount(f.raw);
      f := f.(value := if amount.Some? then Pence(amount.value) else Null);
      if amount.None? { noted := Noted(noted, InvalidAmount); }
    }
    if h == Currency && f.raw != "GBP" { noted := Noted(noted, UnsupportedCurrency); }
    if h == Document && f.raw != "invoice" && f.raw != "credit" { noted := Noted(noted, InvalidDocumentType); }
    if h == Date && !language.validDate(f.raw) {
      f := f.(value := Null);
      noted := Noted(noted, InvalidDate);
    }
  }

  method ReadHeaders(language: Language, names: seq<Header>, d: Draft) returns (fields: map<Header, Field>, noted: seq<Issue>)
    requires Distinct(names) && forall h, f :: f in Found(d.headers, h) ==> f.value == Text(f.raw)
    ensures forall h :: h in names ==> FieldRead(language, h, Found(d.headers, h), Stated(fields, h))
    ensures forall x :: x in noted <==> x in d.issues || exists h :: h in names && HeaderDeserves(language, h, Found(d.headers, h), x)
  {
    fields, noted := map[], d.issues;
    for i := 0 to |names|
      invariant forall h :: h in names[..i] ==> FieldRead(language, h, Found(d.headers, h), Stated(fields, h))
      invariant forall h :: h in fields ==> h in names[..i]
      invariant forall x :: x in noted <==> x in d.issues || exists h :: h in names[..i] && HeaderDeserves(language, h, Found(d.headers, h), x)
    {
      var h := names[i];
      assert names[..i + 1] == names[..i] + [h] && h !in names[..i];
      var found := if h in d.headers then d.headers[h] else [];
      assert found == Found(d.headers, h);
      if |found| != 1 || found[0].raw == "" {
        noted := Noted(noted, if |found| > 1 then Ambiguous(h) else Missing(h));
      } else {
        assert found[0] in Found(d.headers, h);
        var f, more := ReadHeader(language, h, found[0], noted);
        fields, noted := fields[h := f], more;
      }
    }
    assert names[..|names|] == names;
  }

  // ----- reconciliation -----

  function ValueOf(line: Line, cell: Cell): Option<int> {
    if cell in line && line[cell].value.Pence? then Some(line[cell].value.pence) else None
  }

  /** The total of a cell over the lines, if every line states it. */
  function TotalOf(lines: seq<Line>, cell: Cell): Option<int> {
    if forall i :: 0 <= i < |lines| ==> ValueOf(lines[i], cell).Some? then Some(SumBy(lines, PenceIn(cell))) else None
  }

  method SumLines(lines: seq<Line>, cell: Cell) returns (total: Option<int>)
    ensures total == TotalOf(lines, cell)
  {
    var n := 0;
    for i := 0 to |lines|
      invariant forall j :: 0 <= j < i ==> ValueOf(lines[j], cell).Some?
      invariant n == SumBy(lines[..i], PenceIn(cell))
    {
      var v := ValueOf(lines[i], cell);
      if v.None? { return None; }
      SumByNext(lines, i, PenceIn(cell));
      n := n + v.value;
    }
    assert lines[..|lines|] == lines;
    return Some(n);
  }

  predicate LineDeserves(line: Line, issue: Issue) {
    var net, tax, total, rate := ValueOf(line, LineNet), ValueOf(line, LineVat), ValueOf(line, LineTotal), ValueOf(line, UnitPrice);
    || (issue == LineNetMismatch && Quantity in line && line[Quantity].value.Text? && net.Some? && rate.Some?
        && MicrosOf(line) * rate.value != net.value * MICROS)
    || (issue == LineTotalMismatch && net.Some? && tax.Some? && total.Some? && net.value + tax.value != total.value)
  }

  ghost predicate LinesDeserve(identify: Line -> seq<Part>, lines: seq<Line>, n: nat, issue: Issue)
    requires n <= |lines|
  {
    || (exists i :: 0 <= i < n && LineDeserves(lines[i], issue))
    || (issue == DuplicateLine && exists i, j :: 0 <= j < i < n && identify(lines[j]) == identify(lines[i]))
  }

  method CheckLine(line: Line, issues: seq<Issue>) returns (noted: seq<Issue>)
    ensures forall x :: x in noted <==> x in issues || LineDeserves(line, x)
  {
    noted := issues;
    var net, tax, total, rate := ValueOf(line, LineNet), ValueOf(line, LineVat), ValueOf(line, LineTotal), ValueOf(line, UnitPrice);
    if Quantity in line && line[Quantity].value.Text? && net.Some? && rate.Some?
      && MicrosOf(line) * rate.value != net.value * MICROS { noted := Noted(noted, LineNetMismatch); }
    if net.Some? && tax.Some? && total.Some? && net.value + tax.value != total.value { noted := Noted(noted, LineTotalMismatch); }
  }

  lemma LinesDeserveMore(identify: Line -> seq<Part>, lines: seq<Line>, n: nat, x: Issue)
    requires n < |lines|
    ensures LinesDeserve(identify, lines, n + 1, x) <==>
            || LinesDeserve(identify, lines, n, x) || LineDeserves(lines[n], x)
            || (x == DuplicateLine && exists j :: 0 <= j < n && identify(lines[j]) == identify(lines[n]))
  {
  }

  method CheckLines(identify: Line -> seq<Part>, lines: seq<Line>, issues: seq<Issue>) returns (noted: seq<Issue>)
    ensures forall x :: x in noted <==> x in issues || LinesDeserve(identify, lines, |lines|, x)
  {
    noted := issues;
    var seen: set<seq<Part>> := {};
    for i := 0 to |lines|
      invariant forall x :: x in seen <==> exists j :: 0 <= j < i && identify(lines[j]) == x
      invariant forall x :: x in noted <==> x in issues || LinesDeserve(identify, lines, i, x)
    {
      var identity := identify(lines[i]);
      if identity in seen { noted := Noted(noted, DuplicateLine); }
      seen := seen + {identity};
      noted := CheckLine(lines[i], noted);
      forall x
        ensures x in noted <==> x in issues || LinesDeserve(identify, lines, i + 1, x)
      {
        LinesDeserveMore(identify, lines, i, x);
      }
    }
  }

  function HeaderValue(fields: map<Header, Field>, h: Header): Option<int> {
    if h in fields && fields[h].value.Pence? then Some(fields[h].value.pence) else None
  }

  predicate TotalsDeserve(fields: map<Header, Field>, lineNet: Option<int>, lineTax: Option<int>, issue: Issue) {
    var net, tax, total := HeaderValue(fields, Net), HeaderValue(fields, Vat), HeaderValue(fields, Total);
    var discount, credit := HeaderValue(fields, Discount), HeaderValue(fields, Credit);
    || (issue == NetMismatch && lineNet.Some? && net.Some? && discount.Some? && credit.Some?
        && lineNet.value - discount.value - credit.value != net.value)
    || (issue == VatMismatch && lineTax.Some? && tax.Some? && lineTax.value != tax.value)
    || (issue == TotalMismatch && net.Some? && tax.Some? && total.Some? && net.value + tax.value != total.value)
  }

  method CheckTotals(fields: map<Header, Field>, lineNet: Option<int>, lineTax: Option<int>, issues: seq<Issue>) returns (noted: seq<Issue>)
    ensures forall x :: x in noted <==> x in issues || TotalsDeserve(fields, lineNet, lineTax, x)
  {
    noted := issues;
    var net, tax, total := HeaderValue(fields, Net), HeaderValue(fields, Vat), HeaderValue(fields, Total);
    var discount, credit := HeaderValue(fields, Discount), HeaderValue(fields, Credit);
    if lineNet.Some? && net.Some? && discount.Some? && credit.Some? && lineNet.value - discount.value - credit.value != net.value {
      noted := Noted(noted, NetMismatch);
    }
    if lineTax.Some? && tax.Some? && lineTax.value != tax.value { noted := Noted(noted, VatMismatch); }
    if net.Some? && tax.Some? && total.Some? && net.value + tax.value != total.value { noted := Noted(noted, TotalMismatch); }
  }

  /** Whatever does not come out between the lines, the document's fields and their sums. */
  ghost predicate SumsDeserve(language: Language, fields: map<Header, Field>, lines: seq<Line>, issue: Issue) {
    || (issue == MissingLines && lines == []) || LinesDeserve(Identifier(language), lines, |lines|, issue)
    || TotalsDeserve(fields, TotalOf(lines, LineNet), TotalOf(lines, LineVat), issue)
  }

  /** Notes exactly the sums that do not come out. */
  method Reconcile(language: Language, fields: map<Header, Field>, lines: seq<Line>, issues: seq<Issue>) returns (noted: seq<Issue>)
    ensures forall x :: x in noted <==> x in issues || SumsDeserve(language, fields, lines, x)
  {
    noted := if lines == [] then Noted(issues, MissingLines) else issues;
    noted := CheckLines(Identifier(language), lines, noted);
    var lineNet := SumLines(lines, LineNet);
    var lineTax := SumLines(lines, LineVat);
    noted := CheckTotals(fields, lineNet, lineTax, noted);
  }

  lemma CellStated(line: Line, cell: Cell)
    requires Complete(line)
    ensures cell in line && CellSound(cell, line[cell])
  {
    assert cell in CELLS;
  }

  lemma LineExactly(line: Line)
    requires Complete(line)
    ensures LineAddsUp(line) <==> forall x :: !LineDeserves(line, x)
  {
    CellStated(line, Quantity);
    CellStated(line, UnitPrice);
    CellStated(line, LineNet);
    CellStated(line, LineVat);
    CellStated(line, LineTotal);
    var net, tax, total, rate := PenceOf(line, LineNet), PenceOf(line, LineVat), PenceOf(line, LineTotal), PenceOf(line, UnitPrice);
    assert ValueOf(line, LineNet) == Some(net) && ValueOf(line, LineVat) == Some(tax) && ValueOf(line, LineTotal) == Some(total);
    assert ValueOf(line, UnitPrice) == Some(rate) && line[Quantity].value.Text?;
    LineDiffers(line, net, tax, total, rate);
  }

  lemma LineDiffers(line: Line, net: int, tax: int, total: int, rate: int)
    requires Quantity in line && line[Quantity].value.Text? && ValueOf(line, LineNet) == Some(net) && ValueOf(line, LineVat) == Some(tax)
    requires ValueOf(line, LineTotal) == Some(total) && ValueOf(line, UnitPrice) == Some(rate)
    ensures MicrosOf(line) * rate == net * MICROS && net + tax == total <==> forall x :: !LineDeserves(line, x)
  {
    if forall x :: !LineDeserves(line, x) {
      assert !LineDeserves(line, LineNetMismatch) && !LineDeserves(line, LineTotalMismatch);
    }
  }

  lemma LinesExactly(identify: Line -> seq<Part>, lines: seq<Line>)
    requires AllComplete(lines)
    ensures LinesSound(identify, lines) <==> forall x :: !LinesDeserve(identify, lines, |lines|, x)
  {
    forall i | 0 <= i < |lines|
      ensures LineAddsUp(lines[i]) <==> forall x :: !LineDeserves(lines[i], x)
    {
      LineExactly(lines[i]);
    }
    if forall x :: !LinesDeserve(identify, lines, |lines|, x) {
      assert !LinesDeserve(identify, lines, |lines|, DuplicateLine);
      forall i, x | 0 <= i < |lines|
        ensures !LineDeserves(lines[i], x)
      {
        assert !LinesDeserve(identify, lines, |lines|, x);
      }
    }
  }

  lemma MoneyStated(language: Language, fields: map<Header, Field>, h: Header)
    requires HeadersSound(language, fields) && IsMoney(h)
    ensures HeaderValue(fields, h) == Some(HeaderPence(fields, h))
  {
    assert h in HEADERS;
  }

  lemma TotalsExactly(fields: map<Header, Field>, lineNet: int, lineTax: int)
    requires forall h :: IsMoney(h) ==> HeaderValue(fields, h) == Some(HeaderPence(fields, h))
    ensures TotalsAgree(fields, lineNet, lineTax) <==> forall x :: !TotalsDeserve(fields, Some(lineNet), Some(lineTax), x)
  {
    assert IsMoney(Net) && IsMoney(Vat) && IsMoney(Total) && IsMoney(Discount) && IsMoney(Credit);
    if forall x :: !TotalsDeserve(fields, Some(lineNet), Some(lineTax), x) {
      assert !TotalsDeserve(fields, Some(lineNet), Some(lineTax), NetMismatch);
      assert !TotalsDeserve(fields, Some(lineNet), Some(lineTax), VatMismatch);
      assert !TotalsDeserve(fields, Some(lineNet), Some(lineTax), TotalMismatch);
    }
  }

  lemma {:induction false} TotalsStated(lines: seq<Line>)
    requires AllComplete(lines)
    ensures TotalOf(lines, LineNet) == Some(SumBy(lines, PenceIn(LineNet))) && TotalOf(lines, LineVat) == Some(SumBy(lines, PenceIn(LineVat)))
  {
    assert LineNet in CELLS && LineVat in CELLS;
    forall i | 0 <= i < |lines|
      ensures ValueOf(lines[i], LineNet).Some? && ValueOf(lines[i], LineVat).Some?
    {
      assert Complete(lines[i]);
    }
  }

  lemma SumsClean(language: Language, fields: map<Header, Field>, lines: seq<Line>)
    ensures (forall x :: !SumsDeserve(language, fields, lines, x)) <==>
            && lines != [] && (forall x :: !LinesDeserve(Identifier(language), lines, |lines|, x))
            && forall x :: !TotalsDeserve(fields, TotalOf(lines, LineNet), TotalOf(lines, LineVat), x)
  {
    if forall x :: !SumsDeserve(language, fields, lines, x) {
      assert !SumsDeserve(language, fields, lines, MissingLines);
      forall x
        ensures !LinesDeserve(Identifier(language), lines, |lines|, x)
        ensures !TotalsDeserve(fields, TotalOf(lines, LineNet), TotalOf(lines, LineVat), x)
      {
        assert !SumsDeserve(language, fields, lines, x);
      }
    }
  }

  /** With every field stated and every line complete, no sum is noted exactly when the document adds up. */
  lemma ReconcileExactly(language: Language, p: Proposal)
    requires HeadersSound(language, p.fields) && AllComplete(p.lines)
    ensures Reconciled(language, p) <==> forall x :: !SumsDeserve(language, p.fields, p.lines, x)
  {
    SumsClean(language, p.fields, p.lines);
    LinesExactly(Identifier(language), p.lines);
    TotalsStated(p.lines);
    forall h | IsMoney(h) { MoneyStated(language, p.fields, h); }
    TotalsExactly(p.fields, SumBy(p.lines, PenceIn(LineNet)), SumBy(p.lines, PenceIn(LineVat)));
  }

  // ----- the extractor -----

  ghost predicate ManifestOk(source: Source) {
    && Distinct(Map(source.pages, (p: Page) => p.number)) && |source.pages| == |source.expectedPages|
    && forall n :: n in source.expectedPages ==> exists p :: p in source.pages && p.number == n
  }

  method CheckManifest(source: Source) returns (ok: bool)
    ensures ok == ManifestOk(source)
  {
    var numbers := Map(source.pages, (p: Page) => p.number);
    if !AllDifferent(numbers) || |numbers| != |source.expectedPages| { return false; }
    for i := 0 to |source.expectedPages|
      invariant forall j :: 0 <= j < i ==> source.expectedPages[j] in numbers
    {
      if source.expectedPages[i] !in numbers {
        assert forall k :: 0 <= k < |numbers| ==> numbers[k] == source.pages[k].number;
        assert source.expectedPages[i] in source.expectedPages;
        return false;
      }
    }
    forall n | n in source.expectedPages
      ensures exists p :: p in source.pages && p.number == n
    {
      var k :| 0 <= k < |numbers| && numbers[k] == n;
      assert source.pages[k] in source.pages;
    }
    return true;
  }

  /** The manifest, the pages and rows, the headers or the sums deserve the issue. */
  ghost predicate IssueDeserved(language: Language, source: Source, ocr: Recognition, p: Proposal, issue: Issue) {
    || (issue == PageManifestMismatch && !ManifestOk(source))
    || PagesDeserve(language, ocr, source.pages, issue) || RowsDeserve(language, RowsOfPages(ocr, source.pages), issue)
    || (exists h :: h in HEADERS && HeaderDeserves(language, h, StatedUnder(language, source, h, RowsOfPages(ocr, source.pages)), issue))
    || SumsDeserve(language, p.fields, p.lines, issue)
  }

  /** The proposal holds the lines of the line rows and the headers that are stated once. */
  ghost predicate ProposalRead(language: Language, source: Source, rows: seq<Row>, p: Proposal) {
    && LinesRead(language, source, rows, p.lines)
    && forall h :: h in HEADERS ==> FieldRead(language, h, StatedUnder(language, source, h, rows), Stated(p.fields, h))
  }

  lemma {:induction false} StatedText(language: Language, source: Source, h: Header, rows: seq<Row>)
    ensures forall f :: f in StatedUnder(language, source, h, rows) ==> f.value == Text(f.raw)
    decreases |rows|
  {
    if rows != [] {
      StatedText(language, source, h, rows[..|rows| - 1]);
    }
  }

  /** Extracts a proposal: everything the rows say, and exactly the issues deserved. */
  method ExtractMerchantDocument(language: Language, source: Source, ocr: Recognition) returns (r: Option<Proposal>)
    ensures r.None? <==> TextOfPages(ocr, source.pages) > TEXT_BUDGET
    ensures r.Some? ==> ProposalRead(language, source, RowsOfPages(ocr, source.pages), r.value)
    ensures r.Some? ==> forall x :: x in r.value.issues <==> IssueDeserved(language, source, ocr, r.value, x)
  {
    var issues: seq<Issue> := [];
    var listed := CheckManifest(source);
    if !listed { issues := Noted(issues, PageManifestMismatch); }
    var read := ReadPages(language, source, ocr, issues);
    if read.None? { return None; }
    var draft := read.value;
    forall h { StatedText(language, source, h, RowsOfPages(ocr, source.pages)); }
    var fields, noted := ReadHeaders(language, HEADERS, draft);
    noted := Reconcile(language, fields, draft.lines, noted);
    return Some(Proposal(noted, fields, draft.lines));
  }
}
