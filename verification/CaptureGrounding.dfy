/**
 * What the checker's demands come to in the characters of the source: a grounded line says exactly what
 * its citations say, and all it cites stands on the line its description begins on. Of the expected
 * lines, no two are matched with one proposed line or one place in the source.
 */
module CaptureGrounding {
  import opened Prelude
  import opened Decimals
  import opened CaptureText
  import opened CaptureEvaluation
  import opened CaptureProofs
  import P = CaptureParser
  import R = CaptureReading

  // ----- pound literals -----

  /** A pound sign, some digits and at most two decimals, in sixteen characters, as pence. */
  predicate PenceOf(s: string, whole: string, fraction: string, pence: int) {
    && s == "£" + (if fraction == "" then whole else whole + "." + fraction)
    && |s| <= 16 && whole != "" && AllDigits(whole) && AllDigits(fraction) && |fraction| <= 2
    && pence == 100 * DigitsValue(whole) + (if |fraction| == 1 then 10 * DigitsValue(fraction) else DigitsValue(fraction))
    && pence <= 1_000_000_000_000
  }

  lemma {:induction false} SplitPoint(body: string, whole: string, fraction: string)
    requires body == (if fraction == "" then whole else whole + "." + fraction) && AllDigits(whole) && AllDigits(fraction)
    ensures Split(body, '.') == if fraction == "" then [whole] else [whole, fraction]
  {
    R.PointAt(body, whole, fraction);
    SplitTwo(body, '.');
    if fraction != "" {
      assert body[|whole| + 1..] == fraction;
      assert '.' !in fraction;
    }
  }

  lemma PenceRead(s: string, whole: string, fraction: string, pence: int)
    requires PenceOf(s, whole, fraction, pence)
    ensures ReferencePence(s) == Some(pence)
  {
    var parts := Split(s[1..], '.');
    assert s[1..] == if fraction == "" then whole else whole + "." + fraction;
    SplitPoint(s[1..], whole, fraction);
    R.PaddedValue(fraction);
    assert parts[0] == whole && (fraction == "" ==> |parts| == 1);
  }

  /** The checker reads a text as pence exactly if it is a pound literal of that many. */
  lemma ReferenceExactly(s: string, pence: int)
    ensures ReferencePence(s) == Some(pence) <==> exists whole, fraction :: PenceOf(s, whole, fraction, pence)
  {
    if ReferencePence(s) == Some(pence) {
      var body := s[1..];
      var k := IndexOf(body, '.');
      SplitShape(body, '.');
      var whole, fraction := body[..k], if k < |body| then body[k + 1..] else "";
      assert body[..|body|] == body;
      R.PaddedValue(fraction);
      assert body == if fraction == "" then whole else whole + "." + fraction;
      assert s == "£" + body;
      assert PenceOf(s, whole, fraction, pence);
    }
    if whole, fraction :| PenceOf(s, whole, fraction, pence) {
      PenceRead(s, whole, fraction, pence);
    }
  }

  // ----- lines of the source -----

  /** No line ends between the two places, the later one left out. */
  predicate OneLine(text: string, a: nat, b: nat) {
    forall j :: a <= j < b && j < |text| ==> text[j] != '\n'
  }

  /** The citation stands on the line the place is in. */
  predicate OnLineOf(text: string, at: nat, span: P.Span) {
    OneLine(text, if span.start < at then span.start else at, if span.end > at then span.end else at)
  }

  lemma LineBegins(text: string, at: nat, a: nat)
    requires at < |text|
    ensures a <= at && LineStart(text, at) <= a ==> OneLine(text, a, at)
    ensures a <= at && LineStart(text, at) > a && a < at ==> !OneLine(text, a, at)
  {
    if a < at && LineStart(text, at) > a {
      var n := LineStart(text, at) - 1;
      assert text[n] == '\n' && a <= n < at;
    }
  }

  lemma LineEnds(text: string, at: nat, b: nat)
    requires at < |text| && b <= |text|
    ensures LineEnd(text, at) >= b ==> OneLine(text, at, b)
    ensures LineEnd(text, at) < b ==> !OneLine(text, at, b)
  {
    var k := IndexOf(text[at..], '\n');
    if at + k < b {
      assert text[at + k] == '\n';
    } else {
      forall j | at <= j < b
        ensures text[j] != '\n'
      {
        assert text[j] == text[at..][j - at];
      }
    }
  }

  /** A citation is within the bounds of the description's line exactly if no line ends between the two. */
  lemma WithinExactly(text: string, description: P.Provenance, span: P.Span)
    requires description.Extracted? && description.span.start < |text| && span.start < span.end <= |text|
    ensures Within(text, description, span) <==> OnLineOf(text, description.span.start, span)
  {
    var at := description.span.start;
    LineBegins(text, at, span.start);
    LineEnds(text, at, span.end);
    if at == 0 && text[0] == '\n' {
      assert !OneLine(text, 0, span.end);
    }
  }

  // ----- grounded proposals -----

  predicate Explained(blank: Blank, note: string) {
    exists i :: 0 <= i < |note| && !blank(note[i])
  }

  lemma ExplainedExactly(blank: Blank, note: string)
    ensures Explained(blank, note) <==> Trim(blank, note) != ""
  {
    TrimAt(blank, note);
    if Trim(blank, note) != "" {
      assert note[Leading(blank, note)] == Trim(blank, note)[0];
    }
  }

  /** A fact cites a piece of this source, or says why it is there. */
  predicate Justified(blank: Blank, text: string, sourceId: string, p: P.Provenance) {
    if p.Extracted? then p.span.sourceId == sourceId && p.span.start < p.span.end <= |text|
    else Explained(blank, p.note)
  }

  lemma JustifiedExactly(blank: Blank, text: string, sourceId: string, p: P.Provenance)
    ensures FactOk(blank, text, sourceId, p) <==> Justified(blank, text, sourceId, p)
  {
    if !p.Extracted? {
      ExplainedExactly(blank, p.note);
    }
  }

  /** The fact is the very text it cites. */
  predicate Quotes(text: string, span: P.Span, value: string) {
    span.start <= span.end <= |text| && text[span.start..span.end] == value
  }

  /**
   * A line says what its citations say: its description is quoted, a cited quantity or unit is quoted from
   * the same line, and a price is the pence of the literal cited for it on that line.
   */
  ghost predicate LineSays(text: string, line: P.Line) {
    && line.description.provenance.Extracted?
    && var d := line.description.provenance.span;
       && Quotes(text, d, line.description.value)
       && (line.quantity.provenance.Extracted? ==>
             line.quantity.value.Some? && Quotes(text, line.quantity.provenance.span, line.quantity.value.value)
             && OnLineOf(text, d.start, line.quantity.provenance.span))
       && (line.unit.provenance.Extracted? ==>
             line.unit.value.Some? && Quotes(text, line.unit.provenance.span, line.unit.value.value)
             && OnLineOf(text, d.start, line.unit.provenance.span))
       && (line.unitPrice.provenance.Extracted? <==> line.unitPrice.value.Some?)
       && (line.unitPrice.value.Some? ==> PriceSays(text, d.start, line.unitPrice.provenance.span, line.unitPrice.value.value))
  }

  ghost predicate PriceSays(text: string, at: nat, span: P.Span, pence: int) {
    && span.start <= span.end <= |text| && OnLineOf(text, at, span)
    && exists whole, fraction :: PenceOf(text[span.start..span.end], whole, fraction, pence)
  }

  ghost predicate LineJustified(blank: Blank, text: string, sourceId: string, line: P.Line) {
    && Justified(blank, text, sourceId, line.description.provenance) && Justified(blank, text, sourceId, line.quantity.provenance)
    && Justified(blank, text, sourceId, line.unit.provenance) && Justified(blank, text, sourceId, line.unitPrice.provenance)
  }

  lemma StatedExactly(text: string, description: P.Provenance, f: P.Field<Option<string>>)
    requires description.Extracted? && description.span.start < |text|
    requires f.provenance.Extracted? ==> f.provenance.span.start < f.provenance.span.end <= |text|
    ensures StatedOk(text, description, f) <==>
            (f.provenance.Extracted? ==>
               && f.value.Some? && Quotes(text, f.provenance.span, f.value.value)
               && OnLineOf(text, description.span.start, f.provenance.span))
  {
    if f.provenance.Extracted? {
      WithinExactly(text, description, f.provenance.span);
    }
  }

  lemma PriceExactly(text: string, sourceId: string, description: P.Provenance, f: P.Field<Option<int>>)
    requires description.Extracted? && description.span.start < |text|
    requires f.provenance.Extracted? ==> f.provenance.span.sourceId == sourceId && f.provenance.span.start < f.provenance.span.end <= |text|
    ensures PriceSupported(text, sourceId, description, f) <==>
            (f.value.Some? ==> f.provenance.Extracted? && PriceSays(text, description.span.start, f.provenance.span, f.value.value))
  {
    if f.value.Some? && f.provenance.Extracted? {
      var span := f.provenance.span;
      WithinExactly(text, description, span);
      ReferenceExactly(text[span.start..span.end], f.value.value);
    }
  }

  lemma LineExactly(blank: Blank, text: string, sourceId: string, line: P.Line)
    requires LineJustified(blank, text, sourceId, line)
    ensures LineOk(text, sourceId, line) <==> LineSays(text, line)
  {
    var d := line.description.provenance;
    if d.Extracted? {
      StatedExactly(text, d, line.quantity);
      StatedExactly(text, d, line.unit);
      PriceExactly(text, sourceId, d, line.unitPrice);
    }
  }

  /** Every fact of the proposal is justified: its title, the four of each line, its materials and its questions. */
  ghost predicate AllJustified(blank: Blank, text: string, sourceId: string, output: P.Proposal) {
    && Justified(blank, text, sourceId, output.title.provenance)
    && (forall line :: line in output.lines ==> LineJustified(blank, text, sourceId, line))
    && (forall f :: f in output.materials ==> Justified(blank, text, sourceId, f.provenance))
    && (forall f :: f in output.questions ==> Justified(blank, text, sourceId, f.provenance))
  }

  lemma {:induction false} LineFactsExactly(lines: seq<P.Line>, p: P.Provenance)
    ensures p in LineFacts(lines) <==> exists line :: line in lines && FactOf(line, p)
  {
    if lines != [] {
      LineFactsExactly(lines[1..], p);
      assert lines == [lines[0]] + lines[1..];
      assert FactOf(lines[0], p) <==> p in [lines[0].description.provenance, lines[0].quantity.provenance, lines[0].unit.provenance, lines[0].unitPrice.provenance];
    }
  }

  predicate FactOf(line: P.Line, p: P.Provenance) {
    p == line.description.provenance || p == line.quantity.provenance || p == line.unit.provenance || p == line.unitPrice.provenance
  }

  lemma FactsExactly(output: P.Proposal, p: P.Provenance)
    ensures p in Facts(output) <==>
            || p == output.title.provenance || (exists line :: line in output.lines && FactOf(line, p))
            || (exists f :: f in output.materials && f.provenance == p) || (exists f :: f in output.questions && f.provenance == p)
  {
    LineFactsExactly(output.lines, p);
    InMap(output.materials, p);
    InMap(output.questions, p);
  }

  lemma InMap(fields: seq<P.Field<string>>, p: P.Provenance)
    ensures p in Map(fields, (f: P.Field<string>) => f.provenance) <==> exists f :: f in fields && f.provenance == p
  {
    var facts := Map(fields, (f: P.Field<string>) => f.provenance);
    if f :| f in fields && f.provenance == p {
      var i :| 0 <= i < |fields| && fields[i] == f;
      assert facts[i] == p;
    }
    if p in facts {
      var i :| 0 <= i < |facts| && facts[i] == p;
      assert fields[i] in fields;
    }
  }

  lemma AllJustifiedExactly(blank: Blank, text: string, sourceId: string, output: P.Proposal)
    ensures (forall p :: p in Facts(output) ==> FactOk(blank, text, sourceId, p)) <==> AllJustified(blank, text, sourceId, output)
  {
    forall p
      ensures FactOk(blank, text, sourceId, p) <==> Justified(blank, text, sourceId, p)
    {
      JustifiedExactly(blank, text, sourceId, p);
    }
    if forall p :: p in Facts(output) ==> FactOk(blank, text, sourceId, p) {
      FromFacts(blank, text, sourceId, output);
    }
    if AllJustified(blank, text, sourceId, output) {
      forall p | p in Facts(output)
        ensures Justified(blank, text, sourceId, p)
      {
        FactsExactly(output, p);
      }
    }
  }

  lemma FromFacts(blank: Blank, text: string, sourceId: string, output: P.Proposal)
    requires forall p :: p in Facts(output) ==> Justified(blank, text, sourceId, p)
    ensures AllJustified(blank, text, sourceId, output)
  {
    FactsExactly(output, output.title.provenance);
    forall line | line in output.lines
      ensures LineJustified(blank, text, sourceId, line)
    {
      FactsExactly(output, line.description.provenance);
      FactsExactly(output, line.quantity.provenance);
      FactsExactly(output, line.unit.provenance);
      FactsExactly(output, line.unitPrice.provenance);
    }
    forall f | f in output.materials
      ensures Justified(blank, text, sourceId, f.provenance)
    {
      FactsExactly(output, f.provenance);
    }
    forall f | f in output.questions
      ensures Justified(blank, text, sourceId, f.provenance)
    {
      FactsExactly(output, f.provenance);
    }
  }

  /** The checker finds a proposal grounded exactly if every fact is justified and its title and lines say what they cite. */
  lemma GroundedExactly(blank: Blank, text: string, sourceId: string, output: P.Proposal)
    ensures Grounded(blank, text, sourceId, output) <==>
            && AllJustified(blank, text, sourceId, output)
            && (output.title.provenance.Extracted? ==> Quotes(text, output.title.provenance.span, output.title.value))
            && forall line :: line in output.lines ==> LineSays(text, line)
  {
    AllJustifiedExactly(blank, text, sourceId, output);
    if AllJustified(blank, text, sourceId, output) {
      forall line | line in output.lines
        ensures LineOk(text, sourceId, line) <==> LineSays(text, line)
      {
        LineExactly(blank, text, sourceId, line);
      }
    }
  }

  // ----- expected lines -----

  /** Two expected lines are matched with two proposed lines, cited from two places of the source. */
  lemma {:induction false} ChosenApart(normal: string -> string, text: string, sourceId: string, expected: seq<ExpectedLine>, lines: seq<P.Line>,
                                       chosen: seq<Option<nat>>, j: nat, k: nat)
    requires Chosen(normal, text, sourceId, expected, lines, chosen) && j < k < |chosen| && chosen[j].Some? && chosen[k].Some?
    ensures chosen[j] != chosen[k] && chosen[j].value < |lines| && chosen[k].value < |lines|
    ensures Occurrence(text, sourceId, lines[chosen[j].value]) != Occurrence(text, sourceId, lines[chosen[k].value])
    decreases |chosen|
  {
    var n := |chosen| - 1;
    ChosenIs(normal, text, sourceId, expected, lines, chosen, j);
    if k < n {
      ChosenApart(normal, text, sourceId, expected[..n], lines, chosen[..n], j, k);
    } else {
      assert chosen[..n][j] == chosen[j];
    }
  }

  /** A matched line is cited from the source and has the expected description; an unmatched one had no free line left. */
  lemma {:induction false} ChosenIs(normal: string -> string, text: string, sourceId: string, expected: seq<ExpectedLine>, lines: seq<P.Line>,
                                    chosen: seq<Option<nat>>, k: nat)
    requires Chosen(normal, text, sourceId, expected, lines, chosen) && k < |chosen|
    ensures ChosenAt(normal, text, sourceId, expected[k], lines, chosen[..k], chosen[k])
    decreases |chosen|
  {
    var n := |chosen| - 1;
    if k < n {
      ChosenIs(normal, text, sourceId, expected[..n], lines, chosen[..n], k);
      assert chosen[..n][..k] == chosen[..k];
    }
  }
}
