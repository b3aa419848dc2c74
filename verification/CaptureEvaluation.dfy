/**
 * The independent checker of job record proposals (packages/ai/src/capture-evaluation.ts). It sees a
 * source, a label and a proposal, and never the parser. Text normalisation is an abstract function.
 */
module CaptureEvaluation {
  import opened Prelude
  import opened Decimals
  import opened CaptureText
  import P = CaptureParser

  const RECALL_PERCENT := 95
  const MAX_PRICE := 1_000_000_000_000

  datatype Source = Source(id: string, text: string)
  datatype ExpectedLine = ExpectedLine(description: string, intents: seq<string>, price: Option<int>, quantity: Option<string>, unit: Option<string>)
  datatype Expectation = Expectation(id: string, lines: seq<ExpectedLine>, requiredQuestions: seq<string>, title: string)

  datatype FieldName = UnitPrice | Quantity | Unit
  datatype Complaint =
    | MissingExplanation | InvalidSpan | IdentityMismatch | TitleDiffers | TitleNotCited | InvalidIntents
    | MissingScope(expected: nat) | FieldDiffers(expected: nat, name: FieldName)
    | UnsupportedScope(line: nat) | DescriptionNotCited(line: nat) | Ungrounded(line: nat, name: FieldName)
    | UnsupportedMoney(line: nat) | UnknownRateCited(line: nat) | MissingQuestion(required: string) | NoQuestions

  /** Complaints about the proposal and its source alone, whatever the label says. */
  predicate AboutGrounding(c: Complaint) {
    || c.MissingExplanation? || c.InvalidSpan? || c.TitleNotCited? || c.DescriptionNotCited? || c.Ungrounded? || c.UnsupportedMoney?
    || c.UnknownRateCited?
  }

  datatype Evaluation = Evaluation(passed: bool, matchedIntents: nat, totalIntents: nat, validCitations: nat, totalCitations: nat,
                                   unsupportedMoney: nat, ambiguityPassed: nat, ambiguityTotal: nat, errors: seq<Complaint>)

  // ----- reading the source -----

  function Slice(s: string, a: nat, b: nat): string {
    var lo, hi := if a <= |s| then a else |s|, if b <= |s| then b else |s|;
    if lo <= hi then s[lo..hi] else ""
  }

  /** A pound literal in pence, read without the parser. */
  function ReferencePence(s: string): Option<int> {
    if s == "" || s[0] != '£' || |s| > 16 then None
    else
      var parts := Split(s[1..], '.');
      if parts[0] == "" || !AllDigits(parts[0]) || |parts| > 2 then None
      else if |parts| == 2 && (!AllDigits(parts[1]) || !(1 <= |parts[1]| <= 2)) then None
      else
        var minor := P.PadEnd2(if |parts| == 2 then parts[1] else "");
        var value := DigitsValue(parts[0]) * 100 + DigitsValue(minor);
        if value <= MAX_PRICE then Some(value) else None
  }

  /** The index of the last newline at or before a position, or -1. */
  function LastNewline(s: string, from: int): (k: int)
    requires from < |s|
    ensures -1 <= k && k <= (if from < -1 then -1 else from) && (k >= 0 ==> s[k] == '\n')
    ensures forall j :: k < j <= from && 0 <= j ==> s[j] != '\n'
    decreases from + 1
  {
    if from < 0 then -1 else if s[from] == '\n' then from else LastNewline(s, from - 1)
  }

  /** The bounds of the source line a position is in. A search from before the text starts at its first character. */
  function LineStart(s: string, at: nat): int {
    if s == "" then 0
    else
      var from := if at == 0 then 0 else at - 1;
      LastNewline(s, if from < |s| then from else |s| - 1) + 1
  }

  function LineEnd(s: string, at: nat): nat {
    if at <= |s| then at + IndexOf(s[at..], '\n') else |s|
  }

  // ----- grounding -----

  function Facts(output: P.Proposal): seq<P.Provenance> {
    [output.title.provenance] + LineFacts(output.lines)
    + Map(output.materials, (f: P.Field<string>) => f.provenance) + Map(output.questions, (f: P.Field<string>) => f.provenance)
  }

  function LineFacts(lines: seq<P.Line>): seq<P.Provenance> {
    if lines == [] then []
    else [lines[0].description.provenance, lines[0].quantity.provenance, lines[0].unit.provenance, lines[0].unitPrice.provenance]
         + LineFacts(lines[1..])
  }

  predicate SpanOk(text: string, sourceId: string, span: P.Span) {
    span.sourceId == sourceId && span.start < span.end <= |text|
  }

  /** An extracted fact has a valid span, and any other fact explains itself. */
  predicate FactOk(blank: Blank, text: string, sourceId: string, p: P.Provenance) {
    match p
    case Extracted(span) => SpanOk(text, sourceId, span)
    case Inferred(note) => Trim(blank, note) != ""
    case Defaulted(note) => Trim(blank, note) != ""
    case HumanSupplied(note) => Trim(blank, note) != ""
  }

  predicate CitesExactly(text: string, p: P.Provenance, value: string) {
    p.Extracted? && Slice(text, p.span.start, p.span.end) == value
  }

  predicate Within(text: string, description: P.Provenance, span: P.Span) {
    var at := if description.Extracted? then description.span.start else 0;
    var first, last := if description.Extracted? then LineStart(text, at) else -1, LineEnd(text, at);
    first <= span.start && span.end <= last
  }

  /** A stated quantity or unit is its cited text, on the line of the description. */
  predicate StatedOk(text: string, description: P.Provenance, f: P.Field<Option<string>>) {
    f.provenance.Extracted? ==>
      f.value.Some? && CitesExactly(text, f.provenance, f.value.value) && Within(text, description, f.provenance.span)
  }

  /** A price is the pence of its cited text, on the line of the description. */
  predicate PriceSupported(text: string, sourceId: string, description: P.Provenance, f: P.Field<Option<int>>) {
    f.value.Some? ==>
      && 0 <= f.value.value <= MAX_PRICE && f.provenance.Extracted? && f.provenance.span.sourceId == sourceId
      && Within(text, description, f.provenance.span)
      && ReferencePence(Slice(text, f.provenance.span.start, f.provenance.span.end)) == f.value
  }

  predicate LineOk(text: string, sourceId: string, line: P.Line) {
    var description := line.description.provenance;
    && CitesExactly(text, description, line.description.value)
    && StatedOk(text, description, line.quantity) && StatedOk(text, description, line.unit)
    && PriceSupported(text, sourceId, description, line.unitPrice)
    && (line.unitPrice.value.None? ==> !line.unitPrice.provenance.Extracted?)
  }

  /** Everything the checker demands of a proposal and its source, apart from the label. */
  ghost predicate Grounded(blank: Blank, text: string, sourceId: string, output: P.Proposal) {
    && (forall p :: p in Facts(output) ==> FactOk(blank, text, sourceId, p))
    && (output.title.provenance.Extracted? ==> CitesExactly(text, output.title.provenance, output.title.value))
    && (forall line :: line in output.lines ==> LineOk(text, sourceId, line))
  }

  function Cites(): P.Provenance -> bool {
    (p: P.Provenance) => p.Extracted?
  }

  function CountExtracted(facts: seq<P.Provenance>): nat {
    CountIf(facts, Cites())
  }

  function CitesValidly(text: string, sourceId: string): P.Provenance -> bool {
    (p: P.Provenance) => p.Extracted? && SpanOk(text, sourceId, p.span)
  }

  function Unsupported(text: string, sourceId: string): P.Line -> bool {
    (line: P.Line) => !PriceSupported(text, sourceId, line.description.provenance, line.unitPrice)
  }

  ghost predicate NoneAboutGrounding(errors: seq<Complaint>) {
    forall c :: c in errors ==> !AboutGrounding(c)
  }

  // ----- the checker -----

  ghost predicate FactsDeserve(blank: Blank, text: string, sourceId: string, facts: seq<P.Provenance>, c: Complaint) {
    || (c == InvalidSpan && exists p :: p in facts && p.Extracted? && !FactOk(blank, text, sourceId, p))
    || (c == MissingExplanation && exists p :: p in facts && !p.Extracted? && !FactOk(blank, text, sourceId, p))
  }

  lemma FactsDeserveMore(blank: Blank, text: string, sourceId: string, facts: seq<P.Provenance>, p: P.Provenance, c: Complaint)
    ensures FactsDeserve(blank, text, sourceId, facts + [p], c) <==>
            || FactsDeserve(blank, text, sourceId, facts, c)
            || (!FactOk(blank, text, sourceId, p) && c == if p.Extracted? then InvalidSpan else MissingExplanation)
  {
    assert forall q :: q in facts + [p] <==> q in facts || q == p;
  }

  /** Every fact of the proposal: its citations are counted, and what is wrong with it is noted. */
  method Visit(blank: Blank, text: string, sourceId: string, facts: seq<P.Provenance>)
    returns (valid: nat, total: nat, errors: seq<Complaint>)
    ensures valid == CountIf(facts, CitesValidly(text, sourceId)) && total == CountIf(facts, Cites())
    ensures forall c :: c in errors <==> FactsDeserve(blank, text, sourceId, facts, c)
  {
    valid, total, errors := 0, 0, [];
    ghost var done: seq<P.Provenance> := [];
    for i := 0 to |facts|
      invariant done == facts[..i]
      invariant valid == CountIf(done, CitesValidly(text, sourceId)) && total == CountIf(done, Cites())
      invariant forall c :: c in errors <==> FactsDeserve(blank, text, sourceId, done, c)
    {
      var p := facts[i];
      CountIfMore(done, p, CitesValidly(text, sourceId));
      CountIfMore(done, p, Cites());
      forall c { FactsDeserveMore(blank, text, sourceId, done, p, c); }
      if p.Extracted? {
        total := total + 1;
        if p.span.sourceId == sourceId && p.span.start < p.span.end <= |text| { valid := valid + 1; }
        else { errors := errors + [InvalidSpan]; }
      } else if Trim(blank, p.note) == "" {
        errors := errors + [MissingExplanation];
      }
      done := done + [p];
    }
    assert done == facts;
  }

  method CheckStated(text: string, description: P.Provenance, f: P.Field<Option<string>>, line: nat, name: FieldName)
    returns (errors: seq<Complaint>)
    ensures errors == if StatedOk(text, description, f) then [] else [Ungrounded(line, name)]
  {
    errors := [];
    if f.provenance.Extracted? {
      var span := f.provenance.span;
      if f.value.None? || Slice(text, span.start, span.end) != f.value.value || !Within(text, description, span) {
        errors := [Ungrounded(line, name)];
      }
    }
  }

  predicate LineDeserves(text: string, sourceId: string, line: P.Line, index: nat, c: Complaint) {
    var description := line.description.provenance;
    || (c == DescriptionNotCited(index) && !CitesExactly(text, description, line.description.value))
    || (c == Ungrounded(index, Quantity) && !StatedOk(text, description, line.quantity))
    || (c == Ungrounded(index, Unit) && !StatedOk(text, description, line.unit))
    || (c == UnsupportedMoney(index) && !PriceSupported(text, sourceId, description, line.unitPrice))
    || (c == UnknownRateCited(index) && line.unitPrice.value.None? && line.unitPrice.provenance.Extracted?)
  }

  /** One proposed line against its source. */
  method CheckLine(text: string, sourceId: string, line: P.Line, index: nat) returns (unsupported: bool, errors: seq<Complaint>)
    ensures forall c :: c in errors <==> LineDeserves(text, sourceId, line, index, c)
    ensures unsupported == !PriceSupported(text, sourceId, line.description.provenance, line.unitPrice)
  {
    errors, unsupported := [], false;
    var description := line.description.provenance;
    if !description.Extracted? || Slice(text, description.span.start, description.span.end) != line.description.value {
      errors := errors + [DescriptionNotCited(index)];
    }
    var quantity := CheckStated(text, description, line.quantity, index, Quantity);
    var unit := CheckStated(text, description, line.unit, index, Unit);
    errors := errors + quantity + unit;
    var price := line.unitPrice;
    if price.value.Some? {
      if price.value.value < 0 || price.value.value > MAX_PRICE || !price.provenance.Extracted? || price.provenance.span.sourceId != sourceId
        || !Within(text, description, price.provenance.span)
        || ReferencePence(Slice(text, price.provenance.span.start, price.provenance.span.end)) != price.value {
        unsupported := true;
        errors := errors + [UnsupportedMoney(index)];
      }
    } else if price.provenance.Extracted? {
      errors := errors + [UnknownRateCited(index)];
    }
  }

  ghost predicate LinesDeserve(text: string, sourceId: string, lines: seq<P.Line>, n: nat, chosen: seq<Option<nat>>, c: Complaint)
    requires n <= |lines|
  {
    exists i :: 0 <= i < n && (LineDeserves(text, sourceId, lines[i], i, c) || (c == UnsupportedScope(i) && Some(i) !in chosen))
  }

  lemma LinesDeserveMore(text: string, sourceId: string, lines: seq<P.Line>, n: nat, chosen: seq<Option<nat>>, c: Complaint)
    requires n < |lines|
    ensures LinesDeserve(text, sourceId, lines, n + 1, chosen, c) <==>
            || LinesDeserve(text, sourceId, lines, n, chosen, c)
            || LineDeserves(text, sourceId, lines[n], n, c) || (c == UnsupportedScope(n) && Some(n) !in chosen)
  {
  }

  method CheckLines(text: string, sourceId: string, lines: seq<P.Line>, consumed: set<nat>, ghost chosen: seq<Option<nat>>)
    returns (unsupported: nat, errors: seq<Complaint>)
    requires forall i :: i in consumed <==> Some(i) in chosen
    ensures unsupported == CountIf(lines, Unsupported(text, sourceId))
    ensures forall c :: c in errors <==> LinesDeserve(text, sourceId, lines, |lines|, chosen, c)
  {
    unsupported, errors := 0, [];
    ghost var done: seq<P.Line> := [];
    for i := 0 to |lines|
      invariant done == lines[..i] && unsupported == CountIf(done, Unsupported(text, sourceId))
      invariant forall c :: c in errors <==> LinesDeserve(text, sourceId, lines, i, chosen, c)
    {
      if i !in consumed { errors := errors + [UnsupportedScope(i)]; }
      var wrong, found := CheckLine(text, sourceId, lines[i], i);
      if wrong { unsupported := unsupported + 1; }
      errors := errors + found;
      CountIfMore(done, lines[i], Unsupported(text, sourceId));
      forall c
        ensures c in errors <==> LinesDeserve(text, sourceId, lines, i + 1, chosen, c)
      {
        LinesDeserveMore(text, sourceId, lines, i, chosen, c);
      }
      done := done + [lines[i]];
    }
    assert done == lines;
  }

  // ----- matching the label -----

  /** The occurrence a line's description cites exactly, if it does. */
  function Occurrence(text: string, sourceId: string, line: P.Line): Option<(nat, nat)> {
    var p := line.description.provenance;
    if p.Extracted? && SpanOk(text, sourceId, p.span) && text[p.span.start..p.span.end] == line.description.value
    then Some((p.span.start, p.span.end)) else None
  }

  /** The proposed line an expected line is matched with: same description, cited, and neither taken before. */
  predicate Candidate(normal: string -> string, text: string, sourceId: string, expected: ExpectedLine, lines: seq<P.Line>,
                      consumed: set<nat>, occurrences: set<(nat, nat)>, i: nat)
    requires i < |lines|
  {
    && i !in consumed && Occurrence(text, sourceId, lines[i]).Some?
    && Occurrence(text, sourceId, lines[i]).value !in occurrences
    && normal(lines[i].description.value) == normal(expected.description)
  }

  predicate SameField(name: FieldName, e: ExpectedLine, line: P.Line) {
    match name
    case UnitPrice => line.unitPrice.value == e.price
    case Quantity => line.quantity.value == e.quantity
    case Unit => line.unit.value == e.unit
  }

  /** The proposed line is free for an expected line: not chosen before, and citing an occurrence of its own. */
  ghost predicate Free(normal: string -> string, text: string, sourceId: string, e: ExpectedLine, lines: seq<P.Line>, before: seq<Option<nat>>, i: nat)
    requires i < |lines|
  {
    && Some(i) !in before && Occurrence(text, sourceId, lines[i]).Some? && normal(lines[i].description.value) == normal(e.description)
    && forall m :: m in before && m.Some? && m.value < |lines| ==>
         Occurrence(text, sourceId, lines[m.value]) != Occurrence(text, sourceId, lines[i])
  }

  /** Each expected line in turn gets the first proposed line that is free for it. */
  ghost predicate Chosen(normal: string -> string, text: string, sourceId: string, expected: seq<ExpectedLine>, lines: seq<P.Line>, chosen: seq<Option<nat>>) {
    && |chosen| == |expected|
    && (chosen != [] ==>
          var n := |chosen| - 1;
          && Chosen(normal, text, sourceId, expected[..n], lines, chosen[..n])
          && ChosenAt(normal, text, sourceId, expected[n], lines, chosen[..n], chosen[n]))
  }

  ghost predicate ChosenAt(normal: string -> string, text: string, sourceId: string, e: ExpectedLine, lines: seq<P.Line>, before: seq<Option<nat>>, c: Option<nat>) {
    match c
    case None => forall i :: 0 <= i < |lines| ==> !Free(normal, text, sourceId, e, lines, before, i)
    case Some(n) =>
      && n < |lines| && Free(normal, text, sourceId, e, lines, before, n)
      && forall i :: 0 <= i < n ==> !Free(normal, text, sourceId, e, lines, before, i)
  }

  /** The sum of what the expected lines that were found are worth. */
  function Tally(expected: seq<ExpectedLine>, chosen: seq<Option<nat>>, worth: (ExpectedLine, nat) -> nat): nat
    requires |chosen| == |expected|
  {
    if expected == [] then 0
    else
      var n := |expected| - 1;
      Tally(expected[..n], chosen[..n], worth) + if chosen[n].Some? then worth(expected[n], chosen[n].value) else 0
  }

  lemma {:induction false} TallyMore(expected: seq<ExpectedLine>, e: ExpectedLine, chosen: seq<Option<nat>>, c: Option<nat>, worth: (ExpectedLine, nat) -> nat)
    requires |chosen| == |expected|
    ensures Tally(expected + [e], chosen + [c], worth) == Tally(expected, chosen, worth) + if c.Some? then worth(e, c.value) else 0
  {
    assert (expected + [e])[..|expected|] == expected && (chosen + [c])[..|chosen|] == chosen;
  }

  function ItsIntents(): (ExpectedLine, nat) -> nat {
    (e: ExpectedLine, i: nat) => |e.intents|
  }

  /** The fields the label leaves open, and those of them that the proposed line leaves open too. */
  function ItsOpen(): (ExpectedLine, nat) -> nat {
    (e: ExpectedLine, i: nat) => (if e.price.None? then 1 else 0) + (if e.quantity.None? then 1 else 0) + if e.unit.None? then 1 else 0
  }

  function OpenKept(e: ExpectedLine, line: P.Line): nat {
    (if e.price.None? && line.unitPrice.value.None? then 1 else 0) + (if e.quantity.None? && line.quantity.value.None? then 1 else 0)
    + if e.unit.None? && line.unit.value.None? then 1 else 0
  }

  function ItsOpenKept(lines: seq<P.Line>): (ExpectedLine, nat) -> nat {
    (e: ExpectedLine, i: nat) => if i < |lines| then OpenKept(e, lines[i]) else 0
  }

  method FindLine(normal: string -> string, text: string, sourceId: string, expected: ExpectedLine, lines: seq<P.Line>,
                  consumed: set<nat>, occurrences: set<(nat, nat)>) returns (index: nat)
    ensures index <= |lines|
    ensures index < |lines| ==> Candidate(normal, text, sourceId, expected, lines, consumed, occurrences, index)
    ensures forall i :: 0 <= i < index ==> !Candidate(normal, text, sourceId, expected, lines, consumed, occurrences, i)
  {
    index := 0;
    while index < |lines| && !Candidate(normal, text, sourceId, expected, lines, consumed, occurrences, index)
      invariant index <= |lines|
      invariant forall i :: 0 <= i < index ==> !Candidate(normal, text, sourceId, expected, lines, consumed, occurrences, i)
    {
      index := index + 1;
    }
  }

  function Intents(lines: seq<ExpectedLine>): seq<string> {
    if lines == [] then [] else Intents(lines[..|lines| - 1]) + lines[|lines| - 1].intents
  }

  /** The three stated fields of a matched line; an expected unknown is an ambiguity to be left open. */
  method CompareFields(e: ExpectedLine, line: P.Line, k: nat) returns (passed: nat, total: nat, errors: seq<Complaint>)
    ensures forall c :: c in errors <==> c.FieldDiffers? && c.expected == k && !SameField(c.name, e, line)
    ensures passed == OpenKept(e, line) && total == ItsOpen()(e, 0)
  {
    passed, total, errors := 0, 0, [];
    if e.price.None? { total := total + 1; if line.unitPrice.value.None? { passed := passed + 1; } }
    if line.unitPrice.value != e.price { errors := errors + [FieldDiffers(k, UnitPrice)]; }
    if e.quantity.None? { total := total + 1; if line.quantity.value.None? { passed := passed + 1; } }
    if line.quantity.value != e.quantity { errors := errors + [FieldDiffers(k, Quantity)]; }
    if e.unit.None? { total := total + 1; if line.unit.value.None? { passed := passed + 1; } }
    if line.unit.value != e.unit { errors := errors + [FieldDiffers(k, Unit)]; }
    forall c: Complaint | c.FieldDiffers? && c.expected == k && !SameField(c.name, e, line)
      ensures c in errors
    {
      assert c == FieldDiffers(k, c.name);
      match c.name
      case UnitPrice =>
      case Quantity =>
      case Unit =>
    }
  }

  lemma {:induction false} ChosenMore(normal: string -> string, text: string, sourceId: string, expected: seq<ExpectedLine>, e: ExpectedLine, lines: seq<P.Line>,
                   chosen: seq<Option<nat>>, c: Option<nat>)
    requires Chosen(normal, text, sourceId, expected, lines, chosen) && ChosenAt(normal, text, sourceId, e, lines, chosen, c)
    ensures Chosen(normal, text, sourceId, expected + [e], lines, chosen + [c])
  {
    assert (expected + [e])[..|expected|] == expected && (chosen + [c])[..|chosen|] == chosen;
  }

  /** What has been consumed is what has been chosen. */
  ghost predicate Tracks(text: string, sourceId: string, lines: seq<P.Line>, chosen: seq<Option<nat>>, consumed: set<nat>, occurrences: set<(nat, nat)>) {
    && (forall i :: i in consumed <==> Some(i) in chosen)
    && (forall m :: m in chosen && m.Some? ==> m.value < |lines| && Occurrence(text, sourceId, lines[m.value]).Some?)
    && (forall o :: o in occurrences <==> exists m :: m in chosen && m.Some? && m.value < |lines| && Occurrence(text, sourceId, lines[m.value]) == Some(o))
  }

  lemma TracksMore(text: string, sourceId: string, lines: seq<P.Line>, chosen: seq<Option<nat>>, consumed: set<nat>, occurrences: set<(nat, nat)>, n: nat)
    requires Tracks(text, sourceId, lines, chosen, consumed, occurrences) && n < |lines| && Occurrence(text, sourceId, lines[n]).Some?
    ensures Tracks(text, sourceId, lines, chosen + [Some(n)], consumed + {n}, occurrences + {Occurrence(text, sourceId, lines[n]).value})
  {
    var more := chosen + [Some(n)];
    assert forall m :: m in more <==> m in chosen || m == Some(n);
    forall o
      ensures o in occurrences + {Occurrence(text, sourceId, lines[n]).value} <==>
              exists m :: m in more && m.Some? && m.value < |lines| && Occurrence(text, sourceId, lines[m.value]) == Some(o)
    {
      if o == Occurrence(text, sourceId, lines[n]).value {
        assert Some(n) in more;
      }
      if o in occurrences {
        var m :| m in chosen && m.Some? && m.value < |lines| && Occurrence(text, sourceId, lines[m.value]) == Some(o);
        assert m in more;
      }
    }
  }

  lemma TracksNone(text: string, sourceId: string, lines: seq<P.Line>, chosen: seq<Option<nat>>, consumed: set<nat>, occurrences: set<(nat, nat)>)
    requires Tracks(text, sourceId, lines, chosen, consumed, occurrences)
    ensures Tracks(text, sourceId, lines, chosen + [None], consumed, occurrences)
  {
    assert forall m: Option<nat> :: m in chosen + [None] <==> m in chosen || m == None;
  }

  lemma FreeExactly(normal: string -> string, text: string, sourceId: string, e: ExpectedLine, lines: seq<P.Line>, chosen: seq<Option<nat>>,
                    consumed: set<nat>, occurrences: set<(nat, nat)>, i: nat)
    requires Tracks(text, sourceId, lines, chosen, consumed, occurrences) && i < |lines|
    ensures Candidate(normal, text, sourceId, e, lines, consumed, occurrences, i) <==> Free(normal, text, sourceId, e, lines, chosen, i)
  {
  }

  lemma FirstFree(normal: string -> string, text: string, sourceId: string, e: ExpectedLine, lines: seq<P.Line>, chosen: seq<Option<nat>>,
                  consumed: set<nat>, occurrences: set<(nat, nat)>, index: nat)
    requires Tracks(text, sourceId, lines, chosen, consumed, occurrences) && index <= |lines|
    requires index < |lines| ==> Candidate(normal, text, sourceId, e, lines, consumed, occurrences, index)
    requires forall i :: 0 <= i < index ==> !Candidate(normal, text, sourceId, e, lines, consumed, occurrences, i)
    ensures ChosenAt(normal, text, sourceId, e, lines, chosen, if index < |lines| then Some(index) else None)
  {
    forall i | 0 <= i < |lines|
      ensures Candidate(normal, text, sourceId, e, lines, consumed, occurrences, i) <==> Free(normal, text, sourceId, e, lines, chosen, i)
    {
      FreeExactly(normal, text, sourceId, e, lines, chosen, consumed, occurrences, i);
    }
  }

  predicate OneDeserves(e: ExpectedLine, k: nat, lines: seq<P.Line>, choice: Option<nat>, c: Complaint) {
    if choice.Some? && choice.value < |lines| then c.FieldDiffers? && c.expected == k && !SameField(c.name, e, lines[choice.value])
    else c == MissingScope(k)
  }

  ghost predicate MatchDeserves(expected: seq<ExpectedLine>, lines: seq<P.Line>, chosen: seq<Option<nat>>, c: Complaint)
    requires |chosen| == |expected|
  {
    exists k :: 0 <= k < |expected| && OneDeserves(expected[k], k, lines, chosen[k], c)
  }

  lemma MatchDeservesMore(expected: seq<ExpectedLine>, e: ExpectedLine, lines: seq<P.Line>, chosen: seq<Option<nat>>, choice: Option<nat>, c: Complaint)
    requires |chosen| == |expected|
    ensures MatchDeserves(expected + [e], lines, chosen + [choice], c) <==>
            MatchDeserves(expected, lines, chosen, c) || OneDeserves(e, |expected|, lines, choice, c)
  {
    if k :| 0 <= k < |expected| && OneDeserves(expected[k], k, lines, chosen[k], c) {
      assert (expected + [e])[k] == expected[k] && (chosen + [choice])[k] == chosen[k];
    }
    assert (expected + [e])[|expected|] == e && (chosen + [choice])[|expected|] == choice;
  }

  /** Gives one expected line the first proposed line that is free for it, and compares their fields. */
  method MatchOne(normal: string -> string, text: string, sourceId: string, e: ExpectedLine, k: nat, lines: seq<P.Line>,
                  consumed: set<nat>, occurrences: set<(nat, nat)>, ghost chosen: seq<Option<nat>>)
    returns (index: nat, passed: nat, total: nat, errors: seq<Complaint>, ghost c: Option<nat>)
    requires Tracks(text, sourceId, lines, chosen, consumed, occurrences)
    ensures index <= |lines| && (index < |lines| ==> Occurrence(text, sourceId, lines[index]).Some?)
    ensures c == if index < |lines| then Some(index) else None
    ensures ChosenAt(normal, text, sourceId, e, lines, chosen, c)
    ensures forall complaint :: complaint in errors <==> OneDeserves(e, k, lines, c, complaint)
    ensures passed == (if c.Some? then ItsOpenKept(lines)(e, c.value) else 0) && total == (if c.Some? then ItsOpen()(e, c.value) else 0)
  {
    index := FindLine(normal, text, sourceId, e, lines, consumed, occurrences);
    FirstFree(normal, text, sourceId, e, lines, chosen, consumed, occurrences, index);
    c := if index < |lines| then Some(index) else None;
    if index == |lines| {
      return index, 0, 0, [MissingScope(k)], c;
    }
    passed, total, errors := CompareFields(e, lines[index], k);
  }

  lemma TracksNext(text: string, sourceId: string, lines: seq<P.Line>, chosen: seq<Option<nat>>, consumed: set<nat>, occurrences: set<(nat, nat)>, index: nat)
    requires Tracks(text, sourceId, lines, chosen, consumed, occurrences) && index <= |lines|
    requires index < |lines| ==> Occurrence(text, sourceId, lines[index]).Some?
    ensures if index < |lines|
            then Tracks(text, sourceId, lines, chosen + [Some(index)], consumed + {index}, occurrences + {Occurrence(text, sourceId, lines[index]).value})
            else Tracks(text, sourceId, lines, chosen + [None], consumed, occurrences)
  {
    if index < |lines| {
      TracksMore(text, sourceId, lines, chosen, consumed, occurrences, index);
    } else {
      TracksNone(text, sourceId, lines, chosen, consumed, occurrences);
    }
  }

  /** What the first expected lines come to. */
  ghost predicate MatchedSoFar(normal: string -> string, text: string, sourceId: string, expected: seq<ExpectedLine>, lines: seq<P.Line>,
                               chosen: seq<Option<nat>>, matched: nat, passed: nat, total: nat) {
    && Chosen(normal, text, sourceId, expected, lines, chosen) && matched == Tally(expected, chosen, ItsIntents())
    && passed == Tally(expected, chosen, ItsOpenKept(lines)) && total == Tally(expected, chosen, ItsOpen())
  }

  lemma MatchedNext(normal: string -> string, text: string, sourceId: string, expected: seq<ExpectedLine>, e: ExpectedLine, lines: seq<P.Line>,
                    chosen: seq<Option<nat>>, c: Option<nat>, matched: nat, passed: nat, total: nat)
    requires MatchedSoFar(normal, text, sourceId, expected, lines, chosen, matched, passed, total)
    requires ChosenAt(normal, text, sourceId, e, lines, chosen, c)
    ensures c.Some? ==> MatchedSoFar(normal, text, sourceId, expected + [e], lines, chosen + [c], matched + |e.intents|,
                                     passed + ItsOpenKept(lines)(e, c.value), total + ItsOpen()(e, c.value))
    ensures c.None? ==> MatchedSoFar(normal, text, sourceId, expected + [e], lines, chosen + [c], matched, passed, total)
  {
    ChosenMore(normal, text, sourceId, expected, e, lines, chosen, c);
    TallyMore(expected, e, chosen, c, ItsIntents());
    TallyMore(expected, e, chosen, c, ItsOpenKept(lines));
    TallyMore(expected, e, chosen, c, ItsOpen());
  }

  /** Matches the next expected line with the first proposed line free for it. */
  method MatchNext(normal: string -> string, text: string, sourceId: string, ghost expected: seq<ExpectedLine>, e: ExpectedLine, k: nat,
                   lines: seq<P.Line>, consumed: set<nat>, occurrences: set<(nat, nat)>, matched: nat, passed: nat, total: nat,
                   ghost chosen: seq<Option<nat>>)
    returns (taken: set<nat>, cited: set<(nat, nat)>, intents: nat, kept: nat, left: nat, errors: seq<Complaint>, ghost c: Option<nat>)
    requires Tracks(text, sourceId, lines, chosen, consumed, occurrences)
    requires MatchedSoFar(normal, text, sourceId, expected, lines, chosen, matched, passed, total)
    ensures Tracks(text, sourceId, lines, chosen + [c], taken, cited)
    ensures MatchedSoFar(normal, text, sourceId, expected + [e], lines, chosen + [c], intents, kept, left)
    ensures forall complaint :: complaint in errors <==> OneDeserves(e, k, lines, c, complaint)
  {
    var index, p, t;
    index, p, t, errors, c := MatchOne(normal, text, sourceId, e, k, lines, consumed, occurrences, chosen);
    taken, cited, intents, kept, left := consumed, occurrences, matched, passed + p, total + t;
    if index < |lines| {
      taken, cited := consumed + {index}, occurrences + {Occurrence(text, sourceId, lines[index]).value};
      intents := matched + |e.intents|;
    }
    TracksNext(text, sourceId, lines, chosen, consumed, occurrences, index);
    MatchedNext(normal, text, sourceId, expected, e, lines, chosen, c, matched, passed, total);
  }

  method MatchLines(normal: string -> string, text: string, sourceId: string, expected: seq<ExpectedLine>, lines: seq<P.Line>)
    returns (consumed: set<nat>, matched: nat, passed: nat, total: nat, errors: seq<Complaint>, ghost chosen: seq<Option<nat>>)
    ensures MatchedSoFar(normal, text, sourceId, expected, lines, chosen, matched, passed, total)
    ensures forall c :: c in errors <==> MatchDeserves(expected, lines, chosen, c)
    ensures forall i :: i in consumed <==> Some(i) in chosen
  {
    consumed, matched, passed, total, errors, chosen := {}, 0, 0, 0, [], [];
    var occurrences: set<(nat, nat)> := {};
    ghost var done: seq<ExpectedLine> := [];
    for k := 0 to |expected|
      invariant MatchedSoFar(normal, text, sourceId, done, lines, chosen, matched, passed, total)
      invariant Tracks(text, sourceId, lines, chosen, consumed, occurrences)
      invariant forall c :: c in errors <==> MatchDeserves(done, lines, chosen, c)
      invariant done == expected[..k]
    {
      var found;
      ghost var choice;
      consumed, occurrences, matched, passed, total, found, choice :=
        MatchNext(normal, text, sourceId, done, expected[k], k, lines, consumed, occurrences, matched, passed, total, chosen);
      forall c { MatchDeservesMore(done, expected[k], lines, chosen, choice, c); }
      errors := errors + found;
      chosen, done := chosen + [choice], done + [expected[k]];
    }
    assert done == expected;
  }

  predicate Contains(s: string, t: string) {
    exists k :: 0 <= k <= |s| && At(s, t, k)
  }

  predicate Asked(questions: seq<P.Field<string>>, required: string) {
    exists i :: 0 <= i < |questions| && Contains(questions[i].value, required)
  }

  function IsAsked(questions: seq<P.Field<string>>): string -> bool {
    (required: string) => Asked(questions, required)
  }

  predicate QuestionsDeserve(questions: seq<P.Field<string>>, required: seq<string>, c: Complaint) {
    c.MissingQuestion? && c.required in required && !Asked(questions, c.required)
  }

  method CheckQuestions(output: P.Proposal, required: seq<string>) returns (passed: nat, errors: seq<Complaint>)
    ensures passed == CountIf(required, IsAsked(output.questions))
    ensures forall c :: c in errors <==> QuestionsDeserve(output.questions, required, c)
  {
    passed, errors := 0, [];
    ghost var done: seq<string> := [];
    for k := 0 to |required|
      invariant done == required[..k] && passed == CountIf(done, IsAsked(output.questions))
      invariant forall c :: c in errors <==> QuestionsDeserve(output.questions, done, c)
    {
      CountIfMore(done, required[k], IsAsked(output.questions));
      if Asked(output.questions, required[k]) {
        passed := passed + 1;
      } else {
        errors := errors + [MissingQuestion(required[k])];
      }
      done := done + [required[k]];
    }
    assert done == required;
  }

  ghost predicate HeaderDeserves(normal: string -> string, source: Source, expectation: Expectation, output: P.Proposal, c: Complaint) {
    || (c == IdentityMismatch && source.id != expectation.id)
    || (c == TitleDiffers && normal(output.title.value) != normal(expectation.title))
    || (c == InvalidIntents && (Intents(expectation.lines) == [] || !Distinct(Intents(expectation.lines))))
    || (c == TitleNotCited && output.title.provenance.Extracted? && !CitesExactly(source.text, output.title.provenance, output.title.value))
  }

  /** The identity, the title and the intents of the label. */
  method CheckHeader(normal: string -> string, source: Source, expectation: Expectation, output: P.Proposal) returns (errors: seq<Complaint>)
    ensures forall c :: c in errors <==> HeaderDeserves(normal, source, expectation, output, c)
  {
    errors := [];
    if source.id != expectation.id { errors := errors + [IdentityMismatch]; }
    if normal(output.title.value) != normal(expectation.title) { errors := errors + [TitleDiffers]; }
    var intents := Intents(expectation.lines);
    if intents == [] || !AllDifferent(intents) { errors := errors + [InvalidIntents]; }
    var title := output.title.provenance;
    if title.Extracted? && Slice(source.text, title.span.start, title.span.end) != output.title.value {
      errors := errors + [TitleNotCited];
    }
  }

  // ----- the whole evaluation -----

  /** The proposal deserves a complaint: about its facts, its header, an expected line, one of its own lines or a question. */
  ghost predicate Deserved(blank: Blank, normal: string -> string, source: Source, expectation: Expectation, output: P.Proposal, sourceId: string,
                           chosen: seq<Option<nat>>, c: Complaint)
    requires |chosen| == |expectation.lines|
  {
    || FactsDeserve(blank, source.text, sourceId, Facts(output), c) || HeaderDeserves(normal, source, expectation, output, c)
    || MatchDeserves(expectation.lines, output.lines, chosen, c) || LinesDeserve(source.text, sourceId, output.lines, |output.lines|, chosen, c)
    || QuestionsDeserve(output.questions, expectation.requiredQuestions, c) || (c == NoQuestions && output.questions == [])
  }

  /** Every expected line was given a proposed line with its fields. */
  ghost predicate AllFound(expected: seq<ExpectedLine>, lines: seq<P.Line>, chosen: seq<Option<nat>>) {
    && |chosen| == |expected|
    && forall k :: 0 <= k < |chosen| ==>
         chosen[k].Some? && chosen[k].value < |lines| && forall name :: SameField(name, expected[k], lines[chosen[k].value])
  }

  /**
   * A proposal passes: it is grounded, the label is its source's, with its title and its own intents, every
   * expected line was given a proposed line with its fields, no proposed line is left over, and everything
   * required is asked.
   */
  ghost predicate Passes(blank: Blank, normal: string -> string, source: Source, expectation: Expectation, output: P.Proposal, sourceId: string,
                         chosen: seq<Option<nat>>) {
    && Grounded(blank, source.text, sourceId, output) && source.id == expectation.id
    && normal(output.title.value) == normal(expectation.title)
    && Intents(expectation.lines) != [] && Distinct(Intents(expectation.lines))
    && AllFound(expectation.lines, output.lines, chosen) && (forall i :: 0 <= i < |output.lines| ==> Some(i) in chosen)
    && (forall q :: q in expectation.requiredQuestions ==> Asked(output.questions, q)) && output.questions != []
  }

  lemma FactsClean(blank: Blank, text: string, sourceId: string, facts: seq<P.Provenance>)
    ensures (forall c :: !FactsDeserve(blank, text, sourceId, facts, c)) <==> forall p :: p in facts ==> FactOk(blank, text, sourceId, p)
  {
    if p :| p in facts && !FactOk(blank, text, sourceId, p) {
      assert FactsDeserve(blank, text, sourceId, facts, if p.Extracted? then InvalidSpan else MissingExplanation);
    }
  }

  lemma LineClean(text: string, sourceId: string, line: P.Line, index: nat)
    ensures (forall c :: !LineDeserves(text, sourceId, line, index, c)) <==> LineOk(text, sourceId, line)
  {
    if forall c :: !LineDeserves(text, sourceId, line, index, c) {
      assert !LineDeserves(text, sourceId, line, index, DescriptionNotCited(index));
      assert !LineDeserves(text, sourceId, line, index, Ungrounded(index, Quantity));
      assert !LineDeserves(text, sourceId, line, index, Ungrounded(index, Unit));
      assert !LineDeserves(text, sourceId, line, index, UnsupportedMoney(index));
      assert !LineDeserves(text, sourceId, line, index, UnknownRateCited(index));
    }
  }

  lemma LinesClean(text: string, sourceId: string, lines: seq<P.Line>, chosen: seq<Option<nat>>)
    ensures (forall c :: AboutGrounding(c) ==> !LinesDeserve(text, sourceId, lines, |lines|, chosen, c)) <==>
            forall line :: line in lines ==> LineOk(text, sourceId, line)
    ensures (forall i :: !LinesDeserve(text, sourceId, lines, |lines|, chosen, UnsupportedScope(i))) <==>
            forall i :: 0 <= i < |lines| ==> Some(i) in chosen
  {
    forall i | 0 <= i < |lines|
      ensures (forall c :: !LineDeserves(text, sourceId, lines[i], i, c)) <==> LineOk(text, sourceId, lines[i])
    {
      LineClean(text, sourceId, lines[i], i);
    }
    if i :| 0 <= i < |lines| && !LineOk(text, sourceId, lines[i]) {
      var c :| LineDeserves(text, sourceId, lines[i], i, c);
      assert AboutGrounding(c) && LinesDeserve(text, sourceId, lines, |lines|, chosen, c);
      assert lines[i] in lines;
    }
    if i: nat :| i < |lines| && Some(i) !in chosen {
      assert LinesDeserve(text, sourceId, lines, |lines|, chosen, UnsupportedScope(i));
    }
  }

  lemma MatchClean(expected: seq<ExpectedLine>, lines: seq<P.Line>, chosen: seq<Option<nat>>)
    requires |chosen| == |expected|
    ensures (forall c :: !MatchDeserves(expected, lines, chosen, c)) <==> AllFound(expected, lines, chosen)
  {
    if forall c :: !MatchDeserves(expected, lines, chosen, c) {
      forall k | 0 <= k < |expected|
        ensures chosen[k].Some? && chosen[k].value < |lines| && forall name :: SameField(name, expected[k], lines[chosen[k].value])
      {
        assert !MatchDeserves(expected, lines, chosen, MissingScope(k));
        forall name
          ensures SameField(name, expected[k], lines[chosen[k].value])
        {
          assert !MatchDeserves(expected, lines, chosen, FieldDiffers(k, name));
        }
      }
    }
  }

  lemma HeaderClean(normal: string -> string, source: Source, expectation: Expectation, output: P.Proposal)
    ensures (forall c :: !HeaderDeserves(normal, source, expectation, output, c)) <==>
            && source.id == expectation.id && normal(output.title.value) == normal(expectation.title)
            && Intents(expectation.lines) != [] && Distinct(Intents(expectation.lines))
            && (output.title.provenance.Extracted? ==> CitesExactly(source.text, output.title.provenance, output.title.value))
  {
    if forall c :: !HeaderDeserves(normal, source, expectation, output, c) {
      assert !HeaderDeserves(normal, source, expectation, output, IdentityMismatch);
      assert !HeaderDeserves(normal, source, expectation, output, TitleDiffers);
      assert !HeaderDeserves(normal, source, expectation, output, InvalidIntents);
      assert !HeaderDeserves(normal, source, expectation, output, TitleNotCited);
    }
  }

  lemma QuestionsClean(questions: seq<P.Field<string>>, required: seq<string>)
    ensures (forall c :: !QuestionsDeserve(questions, required, c)) <==> forall q :: q in required ==> Asked(questions, q)
  {
    if forall c :: !QuestionsDeserve(questions, required, c) {
      forall q | q in required
        ensures Asked(questions, q)
      {
        assert !QuestionsDeserve(questions, required, MissingQuestion(q));
      }
    }
  }

  lemma GroundingClean(blank: Blank, normal: string -> string, source: Source, expectation: Expectation, output: P.Proposal, sourceId: string,
                       chosen: seq<Option<nat>>)
    requires |chosen| == |expectation.lines|
    ensures (forall c :: AboutGrounding(c) ==> !Deserved(blank, normal, source, expectation, output, sourceId, chosen, c)) <==>
            Grounded(blank, source.text, sourceId, output)
  {
    FactsClean(blank, source.text, sourceId, Facts(output));
    LinesClean(source.text, sourceId, output.lines, chosen);
    if forall c :: AboutGrounding(c) ==> !Deserved(blank, normal, source, expectation, output, sourceId, chosen, c) {
      assert !HeaderDeserves(normal, source, expectation, output, TitleNotCited) by {
        assert !Deserved(blank, normal, source, expectation, output, sourceId, chosen, TitleNotCited);
      }
      forall c
        ensures !FactsDeserve(blank, source.text, sourceId, Facts(output), c)
        ensures AboutGrounding(c) ==> !LinesDeserve(source.text, sourceId, output.lines, |output.lines|, chosen, c)
      {
        assert AboutGrounding(c) ==> !Deserved(blank, normal, source, expectation, output, sourceId, chosen, c);
      }
    }
  }

  lemma LinesAllClean(text: string, sourceId: string, lines: seq<P.Line>, chosen: seq<Option<nat>>)
    ensures (forall c :: !LinesDeserve(text, sourceId, lines, |lines|, chosen, c)) <==>
            (forall line :: line in lines ==> LineOk(text, sourceId, line)) && forall i :: 0 <= i < |lines| ==> Some(i) in chosen
  {
    LinesClean(text, sourceId, lines, chosen);
    if c :| LinesDeserve(text, sourceId, lines, |lines|, chosen, c) && !AboutGrounding(c) {
      assert c.UnsupportedScope?;
    }
  }

  lemma GroupsClean(blank: Blank, normal: string -> string, source: Source, expectation: Expectation, output: P.Proposal, sourceId: string,
                    chosen: seq<Option<nat>>)
    requires |chosen| == |expectation.lines| && forall c :: !Deserved(blank, normal, source, expectation, output, sourceId, chosen, c)
    ensures forall c :: !FactsDeserve(blank, source.text, sourceId, Facts(output), c)
    ensures forall c :: !HeaderDeserves(normal, source, expectation, output, c)
    ensures forall c :: !MatchDeserves(expectation.lines, output.lines, chosen, c)
    ensures forall c :: !LinesDeserve(source.text, sourceId, output.lines, |output.lines|, chosen, c)
    ensures forall c :: !QuestionsDeserve(output.questions, expectation.requiredQuestions, c)
    ensures output.questions != []
  {
    forall c
      ensures !FactsDeserve(blank, source.text, sourceId, Facts(output), c) && !HeaderDeserves(normal, source, expectation, output, c)
      ensures !MatchDeserves(expectation.lines, output.lines, chosen, c)
      ensures !LinesDeserve(source.text, sourceId, output.lines, |output.lines|, chosen, c)
      ensures !QuestionsDeserve(output.questions, expectation.requiredQuestions, c)
    {
      assert !Deserved(blank, normal, source, expectation, output, sourceId, chosen, c);
    }
    assert !Deserved(blank, normal, source, expectation, output, sourceId, chosen, NoQuestions);
  }

  /** Nothing is deserved exactly by a proposal that passes. */
  lemma NothingDeserved(blank: Blank, normal: string -> string, source: Source, expectation: Expectation, output: P.Proposal, sourceId: string,
                        chosen: seq<Option<nat>>)
    requires |chosen| == |expectation.lines|
    ensures (forall c :: !Deserved(blank, normal, source, expectation, output, sourceId, chosen, c)) <==>
            Passes(blank, normal, source, expectation, output, sourceId, chosen)
  {
    FactsClean(blank, source.text, sourceId, Facts(output));
    HeaderClean(normal, source, expectation, output);
    MatchClean(expectation.lines, output.lines, chosen);
    LinesAllClean(source.text, sourceId, output.lines, chosen);
    QuestionsClean(output.questions, expectation.requiredQuestions);
    if forall c :: !Deserved(blank, normal, source, expectation, output, sourceId, chosen, c) {
      GroupsClean(blank, normal, source, expectation, output, sourceId, chosen);
    }
  }

  lemma InSix<T>(a: seq<T>, b: seq<T>, c: seq<T>, d: seq<T>, e: seq<T>, f: seq<T>, x: T)
    ensures x in a + b + c + d + e + f <==> x in a || x in b || x in c || x in d || x in e || x in f
  {
  }

  /** What the listed complaints say when they are exactly those deserved. */
  lemma ErrorsTell(blank: Blank, normal: string -> string, source: Source, expectation: Expectation, output: P.Proposal, sourceId: string,
                   chosen: seq<Option<nat>>, errors: seq<Complaint>)
    requires |chosen| == |expectation.lines|
    requires forall c :: c in errors <==> Deserved(blank, normal, source, expectation, output, sourceId, chosen, c)
    ensures errors == [] <==> Passes(blank, normal, source, expectation, output, sourceId, chosen)
    ensures NoneAboutGrounding(errors) <==> Grounded(blank, source.text, sourceId, output)
  {
    NothingDeserved(blank, normal, source, expectation, output, sourceId, chosen);
    GroundingClean(blank, normal, source, expectation, output, sourceId, chosen);
    if errors != [] {
      assert errors[0] in errors;
    }
  }

  lemma {:induction false} AllIntentsFound(expected: seq<ExpectedLine>, chosen: seq<Option<nat>>)
    requires |chosen| == |expected| && forall c :: c in chosen ==> c.Some?
    ensures Tally(expected, chosen, ItsIntents()) == |Intents(expected)|
    decreases |expected|
  {
    if expected != [] {
      var n := |expected| - 1;
      AllIntentsFound(expected[..n], chosen[..n]);
      assert chosen[n] in chosen && forall c :: c in chosen[..n] ==> c in chosen;
    }
  }

  lemma {:induction false} AllOpenKept(expected: seq<ExpectedLine>, lines: seq<P.Line>, chosen: seq<Option<nat>>)
    requires AllFound(expected, lines, chosen)
    ensures Tally(expected, chosen, ItsOpenKept(lines)) == Tally(expected, chosen, ItsOpen())
    decreases |expected|
  {
    if expected != [] {
      var n := |expected| - 1;
      AllOpenKept(expected[..n], lines, chosen[..n]);
      var line := lines[chosen[n].value];
      assert SameField(UnitPrice, expected[n], line) && SameField(Quantity, expected[n], line) && SameField(Unit, expected[n], line);
    }
  }

  lemma {:induction false} LinesCounted(lines: seq<P.Line>, k: nat)
    requires k < |lines|
    ensures lines[k].description.provenance in LineFacts(lines)
  {
    if k > 0 {
      LinesCounted(lines[1..], k - 1);
    }
  }

  /** The counts of a grounded proposal: every citation is valid and no price is unsupported. */
  lemma GroundedCounts(blank: Blank, text: string, sourceId: string, output: P.Proposal)
    requires Grounded(blank, text, sourceId, output)
    ensures CountIf(Facts(output), CitesValidly(text, sourceId)) == CountExtracted(Facts(output))
    ensures CountIf(output.lines, Unsupported(text, sourceId)) == 0
    ensures output.lines != [] ==> CountExtracted(Facts(output)) > 0
  {
    CountIfOrdered(Facts(output), CitesValidly(text, sourceId), Cites());
    CountIfNone(output.lines, Unsupported(text, sourceId));
    if output.lines != [] {
      LinesCounted(output.lines, 0);
      CountIfNone(Facts(output), Cites());
      assert output.lines[0] in output.lines && output.lines[0].description.provenance in Facts(output);
    }
  }

  /** Every count that the verdict asks for is met by a proposal that passes. */
  lemma {:induction false} PassingCounts(blank: Blank, normal: string -> string, source: Source, expectation: Expectation, output: P.Proposal, sourceId: string,
                      chosen: seq<Option<nat>>)
    requires Passes(blank, normal, source, expectation, output, sourceId, chosen)
    ensures Tally(expectation.lines, chosen, ItsIntents()) == |Intents(expectation.lines)| > 0
    ensures Tally(expectation.lines, chosen, ItsOpenKept(output.lines)) == Tally(expectation.lines, chosen, ItsOpen())
    ensures CountIf(expectation.requiredQuestions, IsAsked(output.questions)) == |expectation.requiredQuestions|
    ensures CountIf(output.lines, Unsupported(source.text, sourceId)) == 0
    ensures CountIf(Facts(output), CitesValidly(source.text, sourceId)) == CountExtracted(Facts(output)) > 0
  {
    AllIntentsFound(expectation.lines, chosen);
    AllOpenKept(expectation.lines, output.lines, chosen);
    CountIfNone(expectation.requiredQuestions, IsAsked(output.questions));
    assert expectation.lines != [];
    assert chosen[0].value < |output.lines|;
    GroundedCounts(blank, source.text, sourceId, output);
  }

  /** Evaluates a proposal against its source and label. */
  method EvaluateCapture(blank: Blank, normal: string -> string, source: Source, expectation: Expectation, output: P.Proposal, sourceId: string)
    returns (r: Evaluation, ghost chosen: seq<Option<nat>>)
    ensures Chosen(normal, source.text, sourceId, expectation.lines, output.lines, chosen)
    ensures forall c :: c in r.errors <==> Deserved(blank, normal, source, expectation, output, sourceId, chosen, c)
    ensures r.passed <==> Passes(blank, normal, source, expectation, output, sourceId, chosen)
    ensures Grounded(blank, source.text, sourceId, output) <==> NoneAboutGrounding(r.errors)
    ensures r.validCitations == CountIf(Facts(output), CitesValidly(source.text, sourceId)) && r.totalCitations == CountExtracted(Facts(output))
    ensures r.unsupportedMoney == CountIf(output.lines, Unsupported(source.text, sourceId))
    ensures r.matchedIntents == Tally(expectation.lines, chosen, ItsIntents()) && r.totalIntents == |Intents(expectation.lines)|
    ensures r.ambiguityPassed == Tally(expectation.lines, chosen, ItsOpenKept(output.lines))
                                 + CountIf(expectation.requiredQuestions, IsAsked(output.questions))
    ensures r.ambiguityTotal == Tally(expectation.lines, chosen, ItsOpen()) + |expectation.requiredQuestions|
  {
    var valid, total, visited := Visit(blank, source.text, sourceId, Facts(output));
    var header := CheckHeader(normal, source, expectation, output);
    var intents := Intents(expectation.lines);
    var consumed, matched, passed, asked, unmatched;
    consumed, matched, passed, asked, unmatched, chosen := MatchLines(normal, source.text, sourceId, expectation.lines, output.lines);
    var unsupported, ungrounded := CheckLines(source.text, sourceId, output.lines, consumed, chosen);
    var answered, unasked := CheckQuestions(output, expectation.requiredQuestions);
    var none := if output.questions == [] then [NoQuestions] else [];
    var errors := visited + header + unmatched + ungrounded + unasked + none;
    passed, asked := passed + answered, asked + |expectation.requiredQuestions|;
    var threshold := |intents| > 0 && matched * 100 >= |intents| * RECALL_PERCENT;
    r := Evaluation(errors == [] && threshold && unsupported == 0 && total > 0 && total == valid && passed == asked,
                    matched, |intents|, valid, total, unsupported, passed, asked, errors);
    forall c
      ensures c in errors <==> Deserved(blank, normal, source, expectation, output, sourceId, chosen, c)
    {
      InSix(visited, header, unmatched, ungrounded, unasked, none, c);
    }
    ErrorsTell(blank, normal, source, expectation, output, sourceId, chosen, errors);
    if Passes(blank, normal, source, expectation, output, sourceId, chosen) {
      PassingCounts(blank, normal, source, expectation, output, sourceId, chosen);
    }
  }
}
