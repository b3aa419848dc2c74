/**
 * The structured fixture parser (packages/ai/src/capture-fixture-parser.ts): a job record proposal
 * whose extracted fields cite the text they were cut from. Character classes are abstract predicates
 * and a character is one code unit.
 */
module CaptureParser {
  import opened Prelude
  import opened Decimals
  import opened CaptureText

  const MAX_PENCE := 1_000_000_000_000
  const MAX_SOURCE := 50_000
  const MAX_ITEMS := 100
  const MAX_TITLE := 200
  const MAX_DESCRIPTION := 500
  const LABEL := 160

  /** The texts of the explanations and questions. */
  datatype Wording = Wording(
    oneItem: string, quantityOpen: string, workItem: string, unitOpen: string,
    rateOpen: string, rateUnstated: string, quantityUnstated: string, unitUnstated: string,
    noTitle: string, suggestion: string, ambiguity: string, untitled: string,
    materials: string, askDisposal: string, askItems: string, askTitle: string,
    askNote: string, askDescription: string, shortened: string, askRate: string,
    askQuantity: string, askUnit: string)

  const ENGLISH := Wording(
    oneItem := "One item per supplied ITEM line; confirm before quoting",
    quantityOpen := "Quantity needs confirmation",
    workItem := "Supplied work item; confirm before quoting",
    unitOpen := "Unit needs confirmation",
    rateOpen := "Rate needs confirmation; never guessed",
    rateUnstated := "Rate not stated; never invented",
    quantityUnstated := "Quantity not stated in structured fixture grammar",
    unitUnstated := "Unit not stated in structured fixture grammar",
    noTitle := "No job title was stated",
    suggestion := "Suggestion for human review only",
    ambiguity := "A human must resolve the source ambiguity",
    untitled := "Work described in your words",
    materials := "Review materials required",
    askDisposal := "Confirm disposal and waste allowance",
    askItems := "Please turn these words into work items",
    askTitle := "Confirm which stated job title applies",
    askNote := "Confirm the work items; the source note is longer than one description and was shortened",
    askDescription := "Confirm the description for ",
    shortened := "; it is longer than one description and was shortened",
    askRate := "Confirm rate for ",
    askQuantity := "Confirm quantity for ",
    askUnit := "Confirm unit for ")

  /** White space, and the letters and digits, and the further characters, a unit may use, and the wording. */
  datatype Classes = Classes(blank: Blank, unitFirst: char -> bool, unitRest: char -> bool, wording: Wording)

  datatype Span = Span(sourceId: string, start: nat, end: nat)
  datatype Provenance = Extracted(span: Span) | Inferred(note: string) | Defaulted(note: string) | HumanSupplied(note: string)
  datatype Field<T> = Field(value: T, provenance: Provenance)
  datatype Line = Line(description: Field<string>, quantity: Field<Option<string>>, unit: Field<Option<string>>,
                       unitPrice: Field<Option<int>>)
  datatype Proposal = Proposal(title: Field<string>, lines: seq<Line>, materials: seq<Field<string>>, questions: seq<Field<string>>)
  datatype ParseError = InvalidFixtureSource | FixtureStructureRequired

  datatype Cell = Cell(value: string, start: nat)
  datatype SourceLine = SourceLine(raw: string, start: nat)


  // ----- cutting -----

  function Lines(text: string): (lines: seq<SourceLine>)
    ensures |lines| == |Split(text, '\n')|
    ensures forall i :: 0 <= i < |lines| ==> lines[i] == SourceLine(Split(text, '\n')[i], Start(Split(text, '\n'), i))
  {
    var parts := Split(text, '\n');
    seq(|parts|, i requires 0 <= i < |parts| => SourceLine(parts[i], Start(parts, i)))
  }

  function Drop(s: string, k: nat): string {
    if k <= |s| then s[k..] else ""
  }

  function Take(s: string, k: nat): string {
    if k <= |s| then s[..k] else s
  }

  /** The trimmed cells of an item, each with the offset of its text in the source. */
  function Cells(blank: Blank, raw: string, start: nat): (cells: seq<Cell>)
    ensures |cells| == |Split(Drop(raw, 5), '|')|
    ensures forall i :: 0 <= i < |cells| ==>
              var parts := Split(Drop(raw, 5), '|');
              cells[i] == Cell(Trim(blank, parts[i]), start + 5 + Start(parts, i) + Leading(blank, parts[i]))
  {
    var parts := Split(Drop(raw, 5), '|');
    seq(|parts|, i requires 0 <= i < |parts| => Cell(Trim(blank, parts[i]), start + 5 + Start(parts, i) + Leading(blank, parts[i])))
  }

  /** The one cell stated under a prefix, without the prefix. */
  function Explicit(blank: Blank, candidates: seq<Cell>, prefix: string): Option<Cell> {
    if |candidates| != 1 then None
    else
      var cell := candidates[0];
      var content := Drop(cell.value, |prefix|);
      Some(Cell(Trim(blank, content), cell.start + |prefix| + Leading(blank, content)))
  }

  // ----- literals -----

  function PadEnd2(s: string): string {
    if |s| == 0 then "00" else if |s| == 1 then s + "0" else s
  }

  /** A bounded pound literal, in pence. */
  function ExactRate(raw: string): Option<int> {
    if raw == "" || raw[0] != '£' then None
    else
      var body := raw[1..];
      var k := IndexOf(body, '.');
      var whole, fraction := body[..k], Drop(body, k + 1);
      if !Canonical(whole) || |whole| > 11 || (k < |body| && !(1 <= |fraction| <= 2)) || !AllDigits(fraction) then None
      else
        assert AllDigits(PadEnd2(fraction));
        var value := DigitsValue(whole) * 100 + DigitsValue(PadEnd2(fraction));
        if value <= MAX_PENCE then Some(value) else None
  }

  predicate ValidQuantity(s: string) {
    var k := IndexOf(s, '.');
    var fraction := Drop(s, k + 1);
    && Canonical(s[..k]) && k <= 9 && AllDigits(fraction) && (k < |s| ==> 1 <= |fraction| <= 6)
    && DigitsValue(s[..k] + fraction) > 0
  }

  predicate ValidUnit(classes: Classes, s: string) {
    1 <= |s| <= 40 && classes.unitFirst(s[0]) && forall i :: 1 <= i < |s| ==> classes.unitRest(s[i])
  }

  // ----- one item -----

  function ExtractedAt(sourceId: string, start: nat, length: nat): Provenance {
    Extracted(Span(sourceId, start, start + length))
  }

  function Question(classes: Classes, value: string): Field<string> {
    Field(value, Inferred(classes.wording.ambiguity))
  }

  function IsRate(): Cell -> bool {
    (c: Cell) => "£" <= c.value || "RATE:" <= c.value
  }

  function HasPrefix(prefix: string): Cell -> bool {
    (c: Cell) => prefix <= c.value
  }

  function RateCell(blank: Blank, rates: seq<Cell>): Option<Cell> {
    if |rates| != 1 then None
    else if "RATE:" <= rates[0].value then Explicit(blank, rates, "RATE:") else Some(rates[0])
  }

  function RateField(classes: Classes, sourceId: string, rates: seq<Cell>): Field<Option<int>> {
    var rate := RateCell(classes.blank, rates);
    var value := if rate.Some? then ExactRate(rate.value.value) else None;
    Field(value, if value.Some? then ExtractedAt(sourceId, rate.value.start, |rate.value.value|)
                 else Defaulted(if rates != [] then classes.wording.rateOpen else classes.wording.rateUnstated))
  }

  /** A stated text field: extracted when the statement is valid, otherwise left for confirmation. */
  function StatedField(sourceId: string, stated: Option<Cell>, valid: bool, note: string): Field<Option<string>>
    requires valid ==> stated.Some?
  {
    if valid then Field(Some(stated.value.value), ExtractedAt(sourceId, stated.value.start, |stated.value.value|))
    else Field(None, Defaulted(note))
  }

  function QuantityField(classes: Classes, sourceId: string, cells: seq<Cell>): Field<Option<string>> {
    if cells == [] then Field(Some("1"), Defaulted(classes.wording.oneItem))
    else
      var stated := Explicit(classes.blank, cells, "QTY:");
      StatedField(sourceId, stated, stated.Some? && ValidQuantity(stated.value.value), classes.wording.quantityOpen)
  }

  function UnitField(classes: Classes, sourceId: string, cells: seq<Cell>): Field<Option<string>> {
    if cells == [] then Field(Some("item"), Defaulted(classes.wording.workItem))
    else
      var stated := Explicit(classes.blank, cells, "UNIT:");
      StatedField(sourceId, stated, stated.Some? && ValidUnit(classes, stated.value.value), classes.wording.unitOpen)
  }

  /** The line an item's cells state: its description, then whatever quantity, unit and rate is among the rest. */
  function LineOf(classes: Classes, sourceId: string, cells: seq<Cell>): Line
    requires cells != []
  {
    var kept := Take(cells[0].value, MAX_DESCRIPTION);
    var attributes := cells[1..];
    Line(Field(kept, ExtractedAt(sourceId, cells[0].start, |kept|)),
         QuantityField(classes, sourceId, Filter(attributes, HasPrefix("QTY:"))),
         UnitField(classes, sourceId, Filter(attributes, HasPrefix("UNIT:"))),
         RateField(classes, sourceId, Filter(attributes, IsRate())))
  }

  function ItemLine(classes: Classes, sourceId: string, line: SourceLine): Line {
    LineOf(classes, sourceId, Cells(classes.blank, line.raw, line.start))
  }

  /** What is asked about one item: everything stated that could not be used. */
  function ItemQuestions(classes: Classes, sourceId: string, line: SourceLine): (questions: seq<Field<string>>)
    ensures forall q :: q in questions ==> q.provenance == Inferred(classes.wording.ambiguity)
  {
    var cells := Cells(classes.blank, line.raw, line.start);
    var item := ItemLine(classes, sourceId, line);
    var name := Take(item.description.value, LABEL);
    var attributes := cells[1..];
    (if |item.description.value| < |cells[0].value|
     then [Question(classes, classes.wording.askDescription + name + classes.wording.shortened)] else [])
    + (if Filter(attributes, IsRate()) != [] && item.unitPrice.value.None? then [Question(classes, classes.wording.askRate + name)] else [])
    + (if Filter(attributes, HasPrefix("QTY:")) != [] && item.quantity.value.None? then [Question(classes, classes.wording.askQuantity + name)] else [])
    + (if Filter(attributes, HasPrefix("UNIT:")) != [] && item.unit.value.None? then [Question(classes, classes.wording.askUnit + name)] else [])
  }

  predicate Described(blank: Blank, line: SourceLine) {
    Cells(blank, line.raw, line.start)[0].value != ""
  }

  type ParsedItem = (Line, seq<Field<string>>)

  /** Reads one item: its line and what is asked about it, or None without a description. */
  function ItemParser(classes: Classes, sourceId: string): SourceLine -> Option<ParsedItem> {
    (line: SourceLine) =>
      if Described(classes.blank, line) then Some((ItemLine(classes, sourceId, line), ItemQuestions(classes, sourceId, line))) else None
  }

  function LinesOf(parsed: seq<ParsedItem>): (lines: seq<Line>)
    ensures |lines| == |parsed| && forall i :: 0 <= i < |lines| ==> lines[i] == parsed[i].0
  {
    Map(parsed, (p: ParsedItem) => p.0)
  }

  /** What is asked about the items, in their order. */
  function Raised(parsed: seq<ParsedItem>): seq<Field<string>> {
    if parsed == [] then [] else Raised(parsed[..|parsed| - 1]) + parsed[|parsed| - 1].1
  }

  // ----- the whole text -----

  function IsItem(): SourceLine -> bool {
    (line: SourceLine) => "ITEM:" <= line.raw
  }

  function SkipTabs(s: string): string {
    if s != "" && (s[0] == ' ' || s[0] == '\t') then SkipTabs(s[1..]) else s
  }

  function IsTitle(blank: Blank): SourceLine -> bool {
    (line: SourceLine) => "JOB:" <= line.raw && SkipTabs(Drop(line.raw, 4)) != "" && !blank(SkipTabs(Drop(line.raw, 4))[0])
  }

  /** The whole text as one unquantified line. */
  function NoteLine(classes: Classes, sourceId: string, text: string): Line {
    var kept := Take(Trim(classes.blank, text), MAX_DESCRIPTION);
    Line(Field(kept, ExtractedAt(sourceId, Find(text, Trim(classes.blank, text), 0), |kept|)),
         Field(None, Defaulted(classes.wording.quantityUnstated)),
         Field(None, Defaulted(classes.wording.unitUnstated)),
         Field(None, Defaulted(classes.wording.rateUnstated)))
  }

  function TitleValue(blank: Blank, line: SourceLine): string {
    Trim(blank, Drop(line.raw, 4))
  }

  function TitleField(classes: Classes, sourceId: string, titles: seq<SourceLine>): Field<string> {
    if titles == [] || TitleValue(classes.blank, titles[0]) == "" then Field(classes.wording.untitled, Defaulted(classes.wording.noTitle))
    else
      var raw := titles[0].raw;
      var value := TitleValue(classes.blank, titles[0]);
      Field(value, ExtractedAt(sourceId, titles[0].start + Find(raw, value, if |raw| < 4 then |raw| else 4), |value|))
  }

  function FirstQuestions(classes: Classes, text: string, items: seq<SourceLine>, titles: seq<SourceLine>): (questions: seq<Field<string>>)
    ensures questions != [] && forall q :: q in questions ==> q.provenance == Inferred(classes.wording.ambiguity)
  {
    [Question(classes, if items != [] then classes.wording.askDisposal else classes.wording.askItems)]
    + (if |titles| > 1 then [Question(classes, classes.wording.askTitle)] else [])
    + (if items == [] && |Trim(classes.blank, text)| > MAX_DESCRIPTION
       then [Question(classes, classes.wording.askNote)] else [])
  }

  function Parse(classes: Classes, sourceId: string, text: string): Result<Proposal, ParseError> {
    var blank := classes.blank;
    if sourceId == "" || |sourceId| > 128 || Trim(blank, text) == "" || |text| > MAX_SOURCE then Err(InvalidFixtureSource)
    else
      var items := Filter(Lines(text), IsItem());
      var titles := Filter(Lines(text), IsTitle(blank));
      if |items| > MAX_ITEMS || (titles != [] && |TitleValue(blank, titles[0])| > MAX_TITLE) then Err(FixtureStructureRequired)
      else
        var parsed := MapAll(items, ItemParser(classes, sourceId));
        if parsed.None? then Err(FixtureStructureRequired)
        else Ok(Proposal(
          TitleField(classes, sourceId, titles),
          if items == [] then [NoteLine(classes, sourceId, text)] else LinesOf(parsed.value),
          [Field(classes.wording.materials, Inferred(classes.wording.suggestion))],
          FirstQuestions(classes, text, items, titles) + Raised(parsed.value)))
  }

  // ----- the parser, step by step -----

  method CutLines(text: string) returns (lines: seq<SourceLine>)
    ensures lines == Lines(text)
  {
    var parts := Split(text, '\n');
    var offset := 0;
    lines := [];
    for i := 0 to |parts|
      invariant |lines| == i && forall j :: 0 <= j < i ==> lines[j] == Lines(text)[j]
      invariant i < |parts| ==> offset == Start(parts, i)
    {
      lines := lines + [SourceLine(parts[i], offset)];
      offset := offset + |parts[i]| + 1;
      if i + 1 < |parts| {
        StartNext(parts, i);
      }
    }
  }

  method CutCells(blank: Blank, raw: string, start: nat) returns (cells: seq<Cell>)
    ensures cells == Cells(blank, raw, start)
  {
    var parts := Split(Drop(raw, 5), '|');
    var offset := 5;
    cells := [];
    for i := 0 to |parts|
      invariant |cells| == i && forall j :: 0 <= j < i ==> cells[j] == Cells(blank, raw, start)[j]
      invariant i < |parts| ==> offset == 5 + Start(parts, i)
    {
      cells := cells + [Cell(Trim(blank, parts[i]), start + offset + Leading(blank, parts[i]))];
      offset := offset + |parts[i]| + 1;
      if i + 1 < |parts| {
        StartNext(parts, i);
      }
    }
  }

  method SelectLines(lines: seq<SourceLine>, wanted: SourceLine -> bool) returns (selected: seq<SourceLine>)
    ensures selected == Filter(lines, wanted)
  {
    selected := [];
    for i := 0 to |lines|
      invariant selected == Filter(lines[..i], wanted)
    {
      assert lines[..i + 1] == lines[..i] + [lines[i]] && [lines[i]][1..] == [];
      FilterAppend(lines[..i], [lines[i]], wanted);
      if wanted(lines[i]) { selected := selected + [lines[i]]; }
    }
    assert lines[..|lines|] == lines;
  }

  lemma {:induction false} RaisedMore(parsed: seq<ParsedItem>, p: ParsedItem)
    ensures Raised(parsed + [p]) == Raised(parsed) + p.1
  {
    assert (parsed + [p])[..|parsed|] == parsed;
  }

  lemma AppendAgain<T>(a: seq<T>, b: seq<T>, c: seq<T>)
    ensures a + b + c == a + (b + c)
  {
  }

  /** A failure at an item fails the whole. */
  lemma {:induction false} FailsAt<T, U>(s: seq<T>, f: T -> Option<U>, i: nat)
    requires i < |s| && f(s[i]).None?
    ensures MapAll(s, f).None?
  {
    MapAllAt(s, f);
  }

  /** Reads the items in order with one reader, collecting what each asks behind the questions so far. */
  method ParseItems(items: seq<SourceLine>, parse: SourceLine -> Option<ParsedItem>, asked: seq<Field<string>>)
    returns (lines: Option<seq<Line>>, questions: seq<Field<string>>)
    ensures lines == (if MapAll(items, parse).Some? then Some(LinesOf(MapAll(items, parse).value)) else None)
    ensures lines.Some? ==> questions == asked + Raised(MapAll(items, parse).value)
  {
    var done: seq<Line> := [];
    ghost var parsed: seq<ParsedItem> := [];
    questions := asked;
    for i := 0 to |items|
      invariant MapAll(items[..i], parse) == Some(parsed)
      invariant done == LinesOf(parsed) && questions == asked + Raised(parsed)
    {
      var item := parse(items[i]);
      if item.None? {
        FailsAt(items, parse, i);
        return None, questions;
      }
      assert items[..i + 1] == items[..i] + [items[i]];
      MapAllAppend(items[..i], [items[i]], parse);
      MapAllOne(items[i], parse);
      RaisedMore(parsed, item.value);
      AppendAgain(asked, Raised(parsed), item.value.1);
      done := done + [item.value.0];
      questions := questions + item.value.1;
      parsed := parsed + [item.value];
    }
    assert items[..|items|] == items;
    return Some(done), questions;
  }

  method ParseCaptureFixture(classes: Classes, sourceId: string, text: string) returns (r: Result<Proposal, ParseError>)
    ensures r == Parse(classes, sourceId, text)
  {
    if sourceId == "" || |sourceId| > 128 || Trim(classes.blank, text) == "" || |text| > MAX_SOURCE { return Err(InvalidFixtureSource); }
    var sourceLines := CutLines(text);
    var items := SelectLines(sourceLines, IsItem());
    if |items| > MAX_ITEMS { return Err(FixtureStructureRequired); }
    var titles := SelectLines(sourceLines, IsTitle(classes.blank));
    if titles != [] && |TitleValue(classes.blank, titles[0])| > MAX_TITLE { return Err(FixtureStructureRequired); }
    var lines, questions := ParseItems(items, ItemParser(classes, sourceId), FirstQuestions(classes, text, items, titles));
    if lines.None? { return Err(FixtureStructureRequired); }
    return Ok(Proposal(TitleField(classes, sourceId, titles),
                       if items == [] then [NoteLine(classes, sourceId, text)] else lines.value,
                       [Field(classes.wording.materials, Inferred(classes.wording.suggestion))],
                       questions));
  }
}
