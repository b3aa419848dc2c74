/** Whatever the fixture parser accepts, the independent checker finds grounded. */
module CaptureProofs {
  import opened Prelude
  import opened Decimals
  import opened CaptureText
  import opened CaptureParser
  import opened CaptureEvaluation

  predicate Visible(classes: Classes, note: string) {
    Trim(classes.blank, note) != ""
  }

  /** The explanations are not blank. */
  predicate ClassesOk(classes: Classes) {
    && Visible(classes, classes.wording.oneItem) && Visible(classes, classes.wording.quantityOpen) && Visible(classes, classes.wording.quantityUnstated)
    && Visible(classes, classes.wording.workItem) && Visible(classes, classes.wording.unitOpen) && Visible(classes, classes.wording.unitUnstated)
    && Visible(classes, classes.wording.rateOpen) && Visible(classes, classes.wording.rateUnstated)
    && Visible(classes, classes.wording.noTitle) && Visible(classes, classes.wording.suggestion) && Visible(classes, classes.wording.ambiguity)
  }

  lemma EndsVisible(blank: Blank, note: string)
    requires note != "" && !blank(note[|note| - 1])
    ensures Trim(blank, note) != ""
  {
    TrimStartLength(blank, note);
    var kept := TrimStart(blank, note);
    assert kept == note[|note| - |kept|..];
    assert kept != "" && kept[|kept| - 1] == note[|note| - 1];
  }

  predicate EndsSmall(note: string) {
    note != "" && 'a' <= note[|note| - 1] <= 'z'
  }

  lemma StatedEnds()
    ensures EndsSmall(ENGLISH.oneItem) && EndsSmall(ENGLISH.workItem) && EndsSmall(ENGLISH.noTitle) && EndsSmall(ENGLISH.suggestion)
  {
  }

  lemma OpenEnds()
    ensures EndsSmall(ENGLISH.quantityOpen) && EndsSmall(ENGLISH.unitOpen) && EndsSmall(ENGLISH.rateOpen) && EndsSmall(ENGLISH.ambiguity)
  {
  }

  lemma UnstatedEnds()
    ensures EndsSmall(ENGLISH.quantityUnstated) && EndsSmall(ENGLISH.unitUnstated) && EndsSmall(ENGLISH.rateUnstated)
  {
  }

  lemma WordedOk(classes: Classes)
    requires forall c :: 'a' <= c <= 'z' ==> !classes.blank(c)
    requires var w := classes.wording;
             && EndsSmall(w.oneItem) && EndsSmall(w.workItem) && EndsSmall(w.noTitle) && EndsSmall(w.suggestion)
             && EndsSmall(w.quantityOpen) && EndsSmall(w.unitOpen) && EndsSmall(w.rateOpen) && EndsSmall(w.ambiguity)
             && EndsSmall(w.quantityUnstated) && EndsSmall(w.unitUnstated) && EndsSmall(w.rateUnstated)
    ensures ClassesOk(classes)
  {
    forall note | EndsSmall(note)
      ensures Visible(classes, note)
    {
      EndsVisible(classes.blank, note);
    }
  }

  /** The explanations as they are worded are not blank, if no small letter is. */
  lemma EnglishOk(classes: Classes)
    requires classes.wording == ENGLISH && forall c :: 'a' <= c <= 'z' ==> !classes.blank(c)
    ensures ClassesOk(classes)
  {
    StatedEnds();
    OpenEnds();
    UnstatedEnds();
    WordedOk(classes);
  }

  // ----- literals -----

  lemma {:induction false} IndexFound(s: string, c: char)
    ensures c !in s ==> IndexOf(s, c) == |s|
  {
  }

  lemma {:induction false} SplitTwo(s: string, c: char)
    ensures IndexOf(s, c) == |s| ==> Split(s, c) == [s]
    ensures IndexOf(s, c) < |s| && c !in s[IndexOf(s, c) + 1..] ==> Split(s, c) == [s[..IndexOf(s, c)], s[IndexOf(s, c) + 1..]]
  {
    var k := IndexOf(s, c);
    if k < |s| {
      var rest := s[k + 1..];
      assert rest + "" == rest;
      IndexFound(rest, c);
    }
  }

  /** A rate the parser accepts is the same pence to the checker. */
  lemma RateIsReference(s: string)
    ensures ExactRate(s).Some? ==> ReferencePence(s) == ExactRate(s) && 0 <= ExactRate(s).value <= MAX_PRICE && s != ""
  {
    if ExactRate(s).Some? {
      SplitTwo(s[1..], '.');
      var body := s[1..];
      var k := IndexOf(body, '.');
      assert Drop(body, k + 1) == "" || Drop(body, k + 1) == body[k + 1..];
      assert body[..|body|] == body;
    }
  }

  lemma {:induction false} LeadingDigit(s: string)
    requires s != "" && AllDigits(s) && s[0] != '0'
    ensures DigitsValue(s) >= Pow10(|s| - 1)
  {
    if |s| > 1 {
      LeadingDigit(s[..|s| - 1]);
    } else {
      assert s[..0] == "" && s[0] in s;
    }
  }

  lemma {:induction false} Pow10Grows(a: nat, b: nat)
    requires a <= b
    ensures Pow10(a) <= Pow10(b)
  {
    if a < b {
      Pow10Grows(a, b - 1);
    }
  }

  lemma {:induction false} TooLong(whole: string)
    requires Canonical(whole) && |whole| > 11
    ensures DigitsValue(whole) * 100 > MAX_PENCE
  {
    LeadingDigit(whole);
    Pow10Grows(11, |whole| - 1);
    assert Pow10(11) == 100_000_000_000 by {
      assert Pow10(5) == 100_000;
      assert Pow10(8) == 100_000_000;
    }
  }

  lemma {:induction false} SplitShape(s: string, c: char)
    ensures var k := IndexOf(s, c);
            if k == |s| then Split(s, c) == [s]
            else Split(s, c)[0] == s[..k] && (|Split(s, c)| == 2 ==> Split(s, c)[1] == s[k + 1..])
  {
    var k := IndexOf(s, c);
    if k < |s| {
      var rest := s[k + 1..];
      assert IndexOf(rest, c) < |rest| ==> |Split(rest, c)| >= 2;
    }
  }

  /** The parser's rates are exactly the checker's, less those written with superfluous leading zeros. */
  lemma RatesAgree(s: string, v: int)
    ensures ExactRate(s) == Some(v) <==> ReferencePence(s) == Some(v) && s != "" && Canonical(s[1..][..IndexOf(s[1..], '.')])
  {
    RateIsReference(s);
    if s != "" && Canonical(s[1..][..IndexOf(s[1..], '.')]) && ReferencePence(s) == Some(v) {
      var body := s[1..];
      var k := IndexOf(body, '.');
      SplitShape(body, '.');
      assert body[..|body|] == body;
      if |body[..k]| > 11 {
        TooLong(body[..k]);
      }
    }
  }

  // ----- cells -----

  /** A cell's text is in the source, inside its line. */
  predicate CellIn(text: string, line: SourceLine, c: Cell) {
    && line.start <= c.start && c.start + |c.value| <= line.start + |line.raw| && At(text, c.value, c.start)
  }

  lemma LineAt(text: string, line: SourceLine)
    requires line in Lines(text)
    ensures PartAt(text, '\n', line.raw, line.start)
  {
    var i :| 0 <= i < |Lines(text)| && Lines(text)[i] == line;
    SplitAt(text, '\n', i);
  }

  /** The cell cut from a part of an item's body. */
  lemma CellOfPart(blank: Blank, text: string, line: SourceLine, part: string, at: nat)
    requires At(text, line.raw, line.start) && |line.raw| >= 5 && At(line.raw[5..], part, at)
    ensures CellIn(text, line, Cell(Trim(blank, part), line.start + 5 + at + Leading(blank, part)))
  {
    TrimmedIn(blank, line.raw[5..], part, at);
    DroppedIn(text, line.raw, line.start, 5, Trim(blank, part), at + Leading(blank, part));
  }

  lemma CellsIn(blank: Blank, text: string, line: SourceLine, j: nat)
    requires PartAt(text, '\n', line.raw, line.start) && "ITEM:" <= line.raw && j < |Cells(blank, line.raw, line.start)|
    ensures CellIn(text, line, Cells(blank, line.raw, line.start)[j])
    ensures Cells(blank, line.raw, line.start)[j].start >= line.start + 5
  {
    var parts := Split(line.raw[5..], '|');
    assert Cells(blank, line.raw, line.start)[j] == Cell(Trim(blank, parts[j]), line.start + 5 + Start(parts, j) + Leading(blank, parts[j]));
    BodyCellsIn(blank, text, line, line.raw[5..], parts, j);
  }

  lemma {:induction false} BodyCellsIn(blank: Blank, text: string, line: SourceLine, body: string, parts: seq<string>, j: nat)
    requires At(text, line.raw, line.start) && |line.raw| >= 5 && body == line.raw[5..] && parts == Split(body, '|') && j < |parts|
    ensures CellIn(text, line, Cell(Trim(blank, parts[j]), line.start + 5 + Start(parts, j) + Leading(blank, parts[j])))
  {
    SplitPart(body, '|', j);
    CellOfPart(blank, text, line, parts[j], Start(parts, j));
  }

  lemma ExplicitIn(blank: Blank, text: string, line: SourceLine, cells: seq<Cell>, prefix: string)
    requires |cells| == 1 && CellIn(text, line, cells[0]) && prefix <= cells[0].value
    ensures CellIn(text, line, Explicit(blank, cells, prefix).value)
  {
    var content := cells[0].value[|prefix|..];
    TrimAt(blank, content);
    DroppedIn(text, cells[0].value, cells[0].start, |prefix|, Trim(blank, content), Leading(blank, content));
  }

  // ----- lines of the source -----

  lemma {:induction false} LastNewlineAt(s: string, from: int, start: nat)
    requires start - 1 <= from < |s|
    requires forall j :: start <= j <= from ==> s[j] != '\n'
    requires start > 0 ==> s[start - 1] == '\n'
    ensures LastNewline(s, from) == start - 1
    decreases from
  {
    if from >= start {
      LastNewlineAt(s, from - 1, start);
    }
  }

  /** The checker finds the bounds of the line a description is on. */
  lemma LineBounds(text: string, line: SourceLine, at: nat)
    requires PartAt(text, '\n', line.raw, line.start) && line.start < at < line.start + |line.raw|
    ensures LineStart(text, at) == line.start && LineEnd(text, at) == line.start + |line.raw|
  {
    var end := line.start + |line.raw|;
    forall j | line.start <= j < end
      ensures text[j] != '\n'
    {
      assert text[j] == text[line.start..end][j - line.start] && line.raw[j - line.start] in line.raw;
    }
    LastNewlineAt(text, at - 1, line.start);
    var rest := text[at..];
    assert forall j :: 0 <= j < end - at ==> rest[j] == text[at + j];
    assert end < |text| ==> rest[end - at] == '\n';
  }

  /** A cited cell on the description's line satisfies the checker. */
  lemma CitedOnLine(text: string, sourceId: string, line: SourceLine, description: Provenance, c: Cell)
    requires PartAt(text, '\n', line.raw, line.start) && CellIn(text, line, c) && c.value != ""
    requires description.Extracted? && line.start < description.span.start < line.start + |line.raw|
    ensures var p := ExtractedAt(sourceId, c.start, |c.value|);
            SpanOk(text, sourceId, p.span) && CitesExactly(text, p, c.value) && Within(text, description, p.span)
  {
    LineBounds(text, line, description.span.start);
  }

  // ----- fields of an item -----

  lemma {:induction false} ValidQuantityNonempty(s: string)
    ensures ValidQuantity(s) ==> s != ""
  {
  }

  lemma QuantityGrounded(classes: Classes, text: string, sourceId: string, line: SourceLine, description: Provenance, cells: seq<Cell>)
    requires PartAt(text, '\n', line.raw, line.start) && forall c :: c in cells ==> CellIn(text, line, c) && "QTY:" <= c.value
    requires description.Extracted? && line.start < description.span.start < line.start + |line.raw|
    ensures var f := QuantityField(classes, sourceId, cells);
            StatedOk(text, description, f) && (f.provenance.Extracted? ==> SpanOk(text, sourceId, f.provenance.span))
  {
    if |cells| == 1 {
      assert cells[0] in cells;
      ExplicitIn(classes.blank, text, line, cells, "QTY:");
      var stated := Explicit(classes.blank, cells, "QTY:").value;
      ValidQuantityNonempty(stated.value);
      if stated.value != "" {
        CitedOnLine(text, sourceId, line, description, stated);
      }
    }
  }

  lemma UnitGrounded(classes: Classes, text: string, sourceId: string, line: SourceLine, description: Provenance, cells: seq<Cell>)
    requires PartAt(text, '\n', line.raw, line.start) && forall c :: c in cells ==> CellIn(text, line, c) && "UNIT:" <= c.value
    requires description.Extracted? && line.start < description.span.start < line.start + |line.raw|
    ensures var f := UnitField(classes, sourceId, cells);
            StatedOk(text, description, f) && (f.provenance.Extracted? ==> SpanOk(text, sourceId, f.provenance.span))
  {
    if |cells| == 1 {
      assert cells[0] in cells;
      ExplicitIn(classes.blank, text, line, cells, "UNIT:");
      var stated := Explicit(classes.blank, cells, "UNIT:").value;
      if stated.value != "" {
        CitedOnLine(text, sourceId, line, description, stated);
      }
    }
  }

  lemma RateGrounded(classes: Classes, text: string, sourceId: string, line: SourceLine, description: Provenance, cells: seq<Cell>)
    requires PartAt(text, '\n', line.raw, line.start) && forall c :: c in cells ==> CellIn(text, line, c) && IsRate()(c)
    requires description.Extracted? && line.start < description.span.start < line.start + |line.raw|
    ensures var f := RateField(classes, sourceId, cells);
            && PriceSupported(text, sourceId, description, f) && (f.value.None? ==> !f.provenance.Extracted?)
            && (f.provenance.Extracted? ==> SpanOk(text, sourceId, f.provenance.span))
  {
    var rate := RateCell(classes.blank, cells);
    if rate.Some? {
      assert cells[0] in cells;
      if "RATE:" <= cells[0].value {
        ExplicitIn(classes.blank, text, line, cells, "RATE:");
      }
      RateIsReference(rate.value.value);
      if ExactRate(rate.value.value).Some? {
        CitedOnLine(text, sourceId, line, description, rate.value);
      }
    }
  }

  predicate LineFactsOk(blank: Blank, text: string, sourceId: string, line: Line) {
    && FactOk(blank, text, sourceId, line.description.provenance) && FactOk(blank, text, sourceId, line.quantity.provenance)
    && FactOk(blank, text, sourceId, line.unit.provenance) && FactOk(blank, text, sourceId, line.unitPrice.provenance)
  }

  lemma DescriptionGrounded(text: string, sourceId: string, line: SourceLine, c: Cell)
    requires PartAt(text, '\n', line.raw, line.start) && CellIn(text, line, c) && c.value != "" && c.start >= line.start + 5
    ensures var kept := Take(c.value, MAX_DESCRIPTION);
            var p := ExtractedAt(sourceId, c.start, |kept|);
            && SpanOk(text, sourceId, p.span) && CitesExactly(text, p, kept)
            && line.start < p.span.start < line.start + |line.raw|
  {
    var kept := Take(c.value, MAX_DESCRIPTION);
    assert At(c.value, kept, 0);
    AtInside(text, c.value, c.start, kept, 0);
  }

  lemma LineOfGrounded(classes: Classes, text: string, sourceId: string, line: SourceLine, cells: seq<Cell>)
    requires ClassesOk(classes) && PartAt(text, '\n', line.raw, line.start)
    requires cells != [] && cells[0].value != "" && cells[0].start >= line.start + 5 && forall c :: c in cells ==> CellIn(text, line, c)
    ensures LineOk(text, sourceId, LineOf(classes, sourceId, cells))
    ensures LineFactsOk(classes.blank, text, sourceId, LineOf(classes, sourceId, cells))
  {
    var description := LineOf(classes, sourceId, cells).description.provenance;
    assert cells[0] in cells && forall c :: c in cells[1..] ==> c in cells;
    DescriptionGrounded(text, sourceId, line, cells[0]);
    QuantityGrounded(classes, text, sourceId, line, description, Filter(cells[1..], HasPrefix("QTY:")));
    UnitGrounded(classes, text, sourceId, line, description, Filter(cells[1..], HasPrefix("UNIT:")));
    RateGrounded(classes, text, sourceId, line, description, Filter(cells[1..], IsRate()));
  }

  lemma ItemGrounded(classes: Classes, text: string, sourceId: string, line: SourceLine)
    requires ClassesOk(classes) && line in Lines(text) && IsItem()(line) && Described(classes.blank, line)
    ensures LineOk(text, sourceId, ItemLine(classes, sourceId, line))
    ensures LineFactsOk(classes.blank, text, sourceId, ItemLine(classes, sourceId, line))
    ensures ItemLine(classes, sourceId, line).description.provenance.Extracted?
  {
    var cells := Cells(classes.blank, line.raw, line.start);
    LineAt(text, line);
    forall j | 0 <= j < |cells|
      ensures CellIn(text, line, cells[j]) && cells[j].start >= line.start + 5
    {
      CellsIn(classes.blank, text, line, j);
    }
    LineOfGrounded(classes, text, sourceId, line, cells);
  }

  // ----- the other fields -----

  lemma NoteGrounded(classes: Classes, text: string, sourceId: string)
    requires ClassesOk(classes) && Trim(classes.blank, text) != ""
    ensures LineOk(text, sourceId, NoteLine(classes, sourceId, text))
    ensures LineFactsOk(classes.blank, text, sourceId, NoteLine(classes, sourceId, text))
  {
    var t := Trim(classes.blank, text);
    var kept := Take(t, MAX_DESCRIPTION);
    FoundTrimmed(classes.blank, text, 0);
    assert text[0..] == text && At(t, kept, 0);
    AtInside(text, t, Find(text, t, 0), kept, 0);
  }

  lemma TitleGrounded(classes: Classes, text: string, sourceId: string, titles: seq<SourceLine>)
    requires ClassesOk(classes) && forall line :: line in titles ==> line in Lines(text) && IsTitle(classes.blank)(line)
    ensures var f := TitleField(classes, sourceId, titles);
            FactOk(classes.blank, text, sourceId, f.provenance)
            && (f.provenance.Extracted? ==> CitesExactly(text, f.provenance, f.value))
  {
    if titles != [] && TitleValue(classes.blank, titles[0]) != "" {
      assert titles[0] in titles;
      LineAt(text, titles[0]);
      var raw, value := titles[0].raw, TitleValue(classes.blank, titles[0]);
      FoundTrimmed(classes.blank, raw, 4);
      AtInside(text, raw, titles[0].start, value, Find(raw, value, 4));
    }
  }

  lemma {:induction false} LineFactsIn(blank: Blank, text: string, sourceId: string, lines: seq<Line>)
    requires forall i :: 0 <= i < |lines| ==> LineFactsOk(blank, text, sourceId, lines[i])
    ensures forall p :: p in LineFacts(lines) ==> FactOk(blank, text, sourceId, p)
  {
    if lines != [] {
      LineFactsIn(blank, text, sourceId, lines[1..]);
    }
  }

  lemma {:induction false} CountAppend(a: seq<Provenance>, b: seq<Provenance>)
    ensures CountExtracted(a + b) == CountExtracted(a) + CountExtracted(b)
    decreases |b|
  {
    if b == [] {
      assert a + b == a;
    } else {
      assert (a + b)[..|a + b| - 1] == a + b[..|b| - 1];
      assert (a + b)[|a + b| - 1] == b[|b| - 1];
      CountAppend(a, b[..|b| - 1]);
    }
  }

  lemma {:induction false} LinesCited(lines: seq<Line>)
    requires forall i :: 0 <= i < |lines| ==> lines[i].description.provenance.Extracted?
    ensures CountExtracted(LineFacts(lines)) >= |lines|
  {
    if lines != [] {
      var l := lines[0];
      var four := [l.description.provenance, l.quantity.provenance, l.unit.provenance, l.unitPrice.provenance];
      LinesCited(lines[1..]);
      CountAppend(four, LineFacts(lines[1..]));
      CountAppend([l.description.provenance], [l.quantity.provenance, l.unit.provenance, l.unitPrice.provenance]);
      assert four == [l.description.provenance] + [l.quantity.provenance, l.unit.provenance, l.unitPrice.provenance];
      assert [l.description.provenance][..0] == [];
    }
  }

  lemma {:induction false} AllRaised(parsed: seq<ParsedItem>, p: Provenance)
    requires forall i, q :: 0 <= i < |parsed| && q in parsed[i].1 ==> q.provenance == p
    ensures forall q :: q in Raised(parsed) ==> q.provenance == p
    decreases |parsed|
  {
    if parsed != [] {
      AllRaised(parsed[..|parsed| - 1], p);
    }
  }

  /** What an accepted text parsed to, item by item. */
  lemma ParsedItems(classes: Classes, sourceId: string, text: string) returns (items: seq<SourceLine>, parsed: seq<ParsedItem>)
    requires Parse(classes, sourceId, text).Ok?
    ensures items == Filter(Lines(text), IsItem()) && |parsed| == |items|
    ensures MapAll(items, ItemParser(classes, sourceId)) == Some(parsed)
    ensures forall i :: 0 <= i < |items| ==> ItemParser(classes, sourceId)(items[i]) == Some(parsed[i])
  {
    items := Filter(Lines(text), IsItem());
    MapAllAt(items, ItemParser(classes, sourceId));
    parsed := MapAll(items, ItemParser(classes, sourceId)).value;
  }

  /** Fields that are grounded one by one make a grounded proposal. */
  lemma ProposalGrounded(blank: Blank, text: string, sourceId: string, output: Proposal)
    requires FactOk(blank, text, sourceId, output.title.provenance)
    requires output.title.provenance.Extracted? ==> CitesExactly(text, output.title.provenance, output.title.value)
    requires forall i :: 0 <= i < |output.lines| ==>
               LineOk(text, sourceId, output.lines[i]) && LineFactsOk(blank, text, sourceId, output.lines[i])
    requires forall f :: f in output.materials ==> FactOk(blank, text, sourceId, f.provenance)
    requires forall f :: f in output.questions ==> FactOk(blank, text, sourceId, f.provenance)
    ensures Grounded(blank, text, sourceId, output)
    ensures CountExtracted(Facts(output)) >= |output.lines|
  {
    LineFactsIn(blank, text, sourceId, output.lines);
    LinesCited(output.lines);
    var materials := Map(output.materials, (f: Field<string>) => f.provenance);
    var questions := Map(output.questions, (f: Field<string>) => f.provenance);
    CountAppend([output.title.provenance], LineFacts(output.lines));
    CountAppend([output.title.provenance] + LineFacts(output.lines), materials);
    CountAppend([output.title.provenance] + LineFacts(output.lines) + materials, questions);
    forall p | p in Facts(output)
      ensures FactOk(blank, text, sourceId, p)
    {
      if p in materials {
        var k :| 0 <= k < |materials| && materials[k] == p;
        assert output.materials[k] in output.materials;
      } else if p in questions {
        var k :| 0 <= k < |questions| && questions[k] == p;
        assert output.questions[k] in output.questions;
      }
    }
  }

  lemma ParsedLinesGrounded(classes: Classes, sourceId: string, text: string, i: nat)
    requires ClassesOk(classes) && Parse(classes, sourceId, text).Ok? && i < |Parse(classes, sourceId, text).value.lines|
    ensures var line := Parse(classes, sourceId, text).value.lines[i];
            LineOk(text, sourceId, line) && LineFactsOk(classes.blank, text, sourceId, line)
  {
    var items, parsed := ParsedItems(classes, sourceId, text);
    if items == [] {
      NoteGrounded(classes, text, sourceId);
    } else {
      assert items[i] in items;
      ItemGrounded(classes, text, sourceId, items[i]);
    }
  }

  lemma QuestionsInferred(classes: Classes, sourceId: string, text: string)
    requires Parse(classes, sourceId, text).Ok?
    ensures forall q :: q in Parse(classes, sourceId, text).value.questions ==> q.provenance == Inferred(classes.wording.ambiguity)
  {
    var items, parsed := ParsedItems(classes, sourceId, text);
    AllRaised(parsed, Inferred(classes.wording.ambiguity));
  }

  /** The parser meets its checker: every accepted source gives a proposal that is grounded in it and cites it for every line. */
  lemma ParserMeetsChecker(classes: Classes, sourceId: string, text: string)
    requires ClassesOk(classes) && Parse(classes, sourceId, text).Ok?
    ensures Grounded(classes.blank, text, sourceId, Parse(classes, sourceId, text).value)
    ensures CountExtracted(Facts(Parse(classes, sourceId, text).value)) >= |Parse(classes, sourceId, text).value.lines| >= 1
  {
    var output := Parse(classes, sourceId, text).value;
    TitleGrounded(classes, text, sourceId, Filter(Lines(text), IsTitle(classes.blank)));
    forall i | 0 <= i < |output.lines|
      ensures LineOk(text, sourceId, output.lines[i]) && LineFactsOk(classes.blank, text, sourceId, output.lines[i])
    {
      ParsedLinesGrounded(classes, sourceId, text, i);
    }
    QuestionsInferred(classes, sourceId, text);
    ProposalGrounded(classes.blank, text, sourceId, output);
  }

  /** Parsing a source and evaluating the outcome: whatever the label says, every citation is valid and nothing is ungrounded. */
  method EvaluateParsed(classes: Classes, normal: string -> string, source: Source, expectation: Expectation, sourceId: string)
    returns (r: Result<Evaluation, ParseError>)
    requires ClassesOk(classes)
    ensures r.Err? <==> Parse(classes, sourceId, source.text).Err?
    ensures r.Ok? ==>
              && r.value.validCitations == r.value.totalCitations >= |Parse(classes, sourceId, source.text).value.lines| >= 1
              && r.value.unsupportedMoney == 0 && NoneAboutGrounding(r.value.errors)
  {
    var parsed := ParseCaptureFixture(classes, sourceId, source.text);
    if parsed.Err? { return Err(parsed.error); }
    ParserMeetsChecker(classes, sourceId, source.text);
    GroundedCounts(classes.blank, source.text, sourceId, parsed.value);
    var evaluation, chosen := EvaluateCapture(classes.blank, normal, source, expectation, parsed.value, sourceId);
    return Ok(evaluation);
  }

  // ----- the contract schema -----

  predicate FieldSized(f: Field<string>, most: nat) {
    1 <= |f.value| <= most
  }

  predicate LineContractOk(line: Line) {
    && FieldSized(line.description, 500)
    && (line.quantity.value.Some? ==> ContractQuantity(line.quantity.value.value))
    && (line.unit.value.Some? ==> 1 <= |line.unit.value.value| <= 40)
    && (line.unitPrice.value.Some? ==> line.unitPrice.value.value >= 0)
  }

  /** What the job record contract demands of a proposal's title and lines. */
  ghost predicate ContractOk(output: Proposal) {
    FieldSized(output.title, 200) && output.lines != [] && forall i :: 0 <= i < |output.lines| ==> LineContractOk(output.lines[i])
  }

  /** Digits without superfluous leading zeros, and a fraction of at least one digit if there is a point. */
  predicate ContractQuantity(s: string) {
    var k := IndexOf(s, '.');
    Canonical(s[..k]) && (k < |s| ==> Drop(s, k + 1) != "" && AllDigits(Drop(s, k + 1)))
  }

  lemma QuantityContract(classes: Classes, sourceId: string, cells: seq<Cell>)
    ensures var f := QuantityField(classes, sourceId, cells); f.value.Some? ==> ContractQuantity(f.value.value)
  {
    assert "1"[..1] == "1" && "1"[0] == '1';
  }

  lemma UnitContract(classes: Classes, sourceId: string, cells: seq<Cell>)
    ensures var f := UnitField(classes, sourceId, cells); f.value.Some? ==> 1 <= |f.value.value| <= 40
  {
  }

  lemma RateContract(classes: Classes, sourceId: string, cells: seq<Cell>)
    ensures var f := RateField(classes, sourceId, cells); f.value.Some? ==> f.value.value >= 0
  {
  }

  lemma LineContract(classes: Classes, sourceId: string, cells: seq<Cell>)
    requires cells != [] && cells[0].value != ""
    ensures LineContractOk(LineOf(classes, sourceId, cells))
  {
    QuantityContract(classes, sourceId, Filter(cells[1..], HasPrefix("QTY:")));
    UnitContract(classes, sourceId, Filter(cells[1..], HasPrefix("UNIT:")));
    RateContract(classes, sourceId, Filter(cells[1..], IsRate()));
  }

  lemma ParsedLinesContract(classes: Classes, sourceId: string, text: string, i: nat)
    requires Parse(classes, sourceId, text).Ok? && i < |Parse(classes, sourceId, text).value.lines|
    ensures LineContractOk(Parse(classes, sourceId, text).value.lines[i])
  {
    var items, parsed := ParsedItems(classes, sourceId, text);
    if items != [] {
      LineContract(classes, sourceId, Cells(classes.blank, items[i].raw, items[i].start));
    }
  }

  /** An accepted source gives a proposal whose title and lines the job record contract accepts. */
  lemma ParserMeetsContract(classes: Classes, sourceId: string, text: string)
    requires Parse(classes, sourceId, text).Ok? && 1 <= |classes.wording.untitled| <= 200
    ensures ContractOk(Parse(classes, sourceId, text).value)
  {
    var output := Parse(classes, sourceId, text).value;
    forall i | 0 <= i < |output.lines|
      ensures LineContractOk(output.lines[i])
    {
      ParsedLinesContract(classes, sourceId, text, i);
    }
  }
}
