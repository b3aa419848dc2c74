/** Parsing a rendered batch gives exactly the normalized facts, and exactly when it does. */
module BillingRoundTrip {
  import opened Prelude
  import opened Billing
  import opened BillingCsv
  import opened Decimals
  import Csv

  // ----- one row -----

  lemma NumberRead(n: int)
    requires 0 <= n <= MAX_MONEY_PENCE
    ensures Integer(NumberText(n)) == Some(n)
    ensures NumberText(n) != "" && Csv.NUL !in NumberText(n)
  {
    DecimalCanonical(n);
    assert Pow10(3) == 1000 && Pow10(6) == 1000 * Pow10(3) && Pow10(9) == 1000 * Pow10(6) && Pow10(12) == 1000 * Pow10(9);
    DecimalLength(n, 13);
  }

  lemma AmountsRead(a: Amounts)
    requires ValidAmounts(a)
    ensures var c := AmountCells(Some(a));
            && |c| == 3 && ParseAmounts(c[0], c[1], c[2]) == Some(a)
            && c[0] != "" && forall s :: s in c ==> Csv.NUL !in s
  {
    NumberRead(a.net);
    NumberRead(a.vat);
    NumberRead(a.gross);
  }

  /** The repeated part of a fact: everything but its lines. */
  function FactOf(e: Status): Status {
    e.(composition := if e.composition.None? then None else Some(e.composition.value.(lines := [])))
  }

  function LinesOf(e: Status): seq<InvoiceLine> {
    if e.composition.None? then [] else e.composition.value.lines
  }

  function EntryOf(): Status -> Entry {
    (e: Status) => Entry(FactOf(e), LinesOf(e))
  }

  lemma DeclaredRead(c: Option<Composition>)
    requires c.Some? ==> ValidAmounts(c.value.declared)
    ensures var cells := AmountCells(if c.Some? then Some(c.value.declared) else None);
            |cells| == 3 && ParseDeclared(cells[0], cells[1], cells[2]) ==
            Some(if c.None? then None else Some(Composition(c.value.declared, [])))
  {
    if c.Some? {
      AmountsRead(c.value.declared);
    }
  }

  lemma PiecesAt(head: seq<string>, amount: seq<string>, declared: seq<string>, rest: seq<string>, tail: seq<string>)
    requires |head| == 10 && |amount| == 3 && |declared| == 3 && |rest| == 3 && |tail| == 13
    ensures var c := head + amount + declared + rest + tail;
            && |c| == 32 && (forall i :: 0 <= i < 10 ==> c[i] == head[i]) && c[10..13] == amount && c[13..16] == declared
            && c[16] == rest[0] && c[17] == rest[1] && c[18] == rest[2] && c[31] == tail[12]
  {
  }

  lemma FactCellsAt(json: Json, e: Status, tail: seq<string>)
    requires |tail| == 13 && tail[12] == SANDBOX_LABEL
    ensures var c := FactCells(json, e) + tail;
            && |FactCells(json, e)| == 19 && c[0] == VERSION && c[1] == e.source && c[2] == e.eventId
            && c[3] == e.contract && c[4] == e.invoiceNumber && c[5] == FactName(e.factType) && c[6] == e.effectiveAt
            && c[7] == OrEmpty(e.remittance) && c[8] == OrEmpty(e.reconciliation) && c[9] == OrEmpty(e.original)
            && c[10..13] == AmountCells(Some(e.amount))
            && c[13..16] == AmountCells(if e.composition.Some? then Some(e.composition.value.declared) else None)
            && c[16] == json.writeShares(e.explicit) && c[17] == (if e.separate then "true" else "false")
            && c[18] == json.writeAdjustments(e.adjustments) && c[31] == SANDBOX_LABEL
  {
    var head := [VERSION, e.source, e.eventId, e.contract, e.invoiceNumber, FactName(e.factType), e.effectiveAt,
                 OrEmpty(e.remittance), OrEmpty(e.reconciliation), OrEmpty(e.original)];
    var declared := AmountCells(if e.composition.Some? then Some(e.composition.value.declared) else None);
    var rest := [json.writeShares(e.explicit), if e.separate then "true" else "false", json.writeAdjustments(e.adjustments)];
    PiecesAt(head, AmountCells(Some(e.amount)), declared, rest, tail);
  }

  lemma FactNameRead(f: FactType)
    ensures FactNamed(FactName(f)) == Some(f)
  {
  }

  /** The parts of the schema that reading one row's fact depends on. */
  predicate Writable(e: Status) {
    && ValidAmounts(e.amount)
    && (e.composition.Some? ==> ValidAmounts(e.composition.value.declared))
    && (e.remittance.Some? ==> e.remittance.value != "")
    && (e.reconciliation.Some? ==> e.reconciliation.value != "")
    && (e.original.Some? ==> e.original.value != "")
  }

  lemma FactCellsRead(json: Json, e: Status, c: seq<string>)
    requires Faithful(json) && Writable(e)
    requires |c| == 32 && c[..19] == FactCells(json, e) && c[31] == SANDBOX_LABEL
    ensures ParseFact(json, c) == Some(FactOf(e))
  {
    AmountsRead(e.amount);
    DeclaredRead(e.composition);
    assert c == FactCells(json, e) + c[19..];
    FactCellsAt(json, e, c[19..]);
    assert c[13..16][0] == c[13] && c[13..16][1] == c[14] && c[13..16][2] == c[15];
    assert c[10..13][0] == c[10] && c[10..13][1] == c[11] && c[10..13][2] == c[12];
    FactNameRead(e.factType);
    var composition := ParseDeclared(c[13], c[14], c[15]);
    assert ParseAmounts(c[10], c[11], c[12]) == Some(e.amount);
    assert composition == Some(FactOf(e).composition);
  }

  lemma MatchCellsRead(rules: TextRules, m: Option<ExportMatch>)
    requires Sane(rules) && (m.Some? ==> ValidMatch(rules, m.value))
    ensures |MatchCells(m)| == 6 && ParseMatch(MatchCells(m)) == Some(m)
    ensures forall s :: s in MatchCells(m) ==> Csv.NUL !in s
  {
    var c := MatchCells(m);
    if m.Some? {
      assert c[0] in c && c[0] != "";
      assert forall i :: 0 <= i < 6 ==> c[i] != "";
    }
  }

  lemma LineCellsRead(rules: TextRules, l: InvoiceLine)
    requires Sane(rules) && ValidLine(rules, l)
    ensures |LineCells(Some(l))| == 12
    ensures ParseLine(LineCells(Some(l))) == Some(l)
  {
    AmountsRead(l.amounts);
    MatchCellsRead(rules, l.export_);
    var c := LineCells(Some(l));
    assert c[6..] == MatchCells(l.export_);
    assert KindNamed(KindName(l.kind)) == Some(l.kind);
  }

  /** A written row is read back as its fact and its line. */
  lemma RowRead(rules: TextRules, json: Json, e: Status, l: Option<InvoiceLine>)
    requires Sane(rules) && Faithful(json) && Writable(e) && (l.Some? <==> e.composition.Some?)
    requires l.Some? ==> ValidLine(rules, l.value)
    ensures ParseRow(json, Row(json, e, l)) == Some(ParsedRow(FactOf(e), l))
  {
    if l.Some? {
      LineCellsRead(rules, l.value);
    }
    var c := Row(json, e, l);
    FactCellsAt(json, e, LineCells(l) + [SANDBOX_LABEL]);
    assert c == FactCells(json, e) + (LineCells(l) + [SANDBOX_LABEL]);
    FactCellsRead(json, e, c);
    assert c[19..31] == LineCells(l);
  }

  // ----- all rows -----

  function ParsedLine(fact: Status): InvoiceLine -> ParsedRow {
    (l: InvoiceLine) => ParsedRow(fact, Some(l))
  }

  /** What the rows of a fact are read back as. */
  function ParsedOf(e: Status): seq<ParsedRow> {
    if e.composition.None? then [ParsedRow(FactOf(e), None)] else Map(LinesOf(e), ParsedLine(FactOf(e)))
  }

  function AllParsed(events: seq<Status>): seq<ParsedRow> {
    if events == [] then [] else ParsedOf(events[0]) + AllParsed(events[1..])
  }

  /** The parts of the schema that reading a whole fact depends on. */
  ghost predicate Readable(rules: TextRules, e: Status) {
    Writable(e) && forall l :: l in LinesOf(e) ==> ValidLine(rules, l)
  }

  lemma ValidIsReadable(rules: TextRules, e: Status)
    requires ValidStatus(rules, e)
    ensures Readable(rules, e)
    ensures e.composition.Some? ==> LinesOf(e) != []
  {
  }

  /** Reading back what was written element by element reads back the list. */
  lemma {:induction false} MapAllThrough<A, B, C>(s: seq<A>, write: A -> B, read: B -> Option<C>, meaning: A -> C)
    requires forall a :: a in s ==> read(write(a)) == Some(meaning(a))
    ensures MapAll(Map(s, write), read) == Some(Map(s, meaning))
  {
    if s != [] {
      assert s[0] in s && forall a :: a in s[1..] ==> a in s;
      MapAllThrough(s[1..], write, read, meaning);
      assert Map(s, write)[1..] == Map(s[1..], write);
      assert Map(s, meaning) == [meaning(s[0])] + Map(s[1..], meaning);
    }
  }

  lemma LineRowsRead(rules: TextRules, json: Json, e: Status, lines: seq<InvoiceLine>)
    requires Sane(rules) && Faithful(json) && Writable(e) && e.composition.Some?
    requires forall l :: l in lines ==> ValidLine(rules, l)
    ensures MapAll(Map(lines, RowFor(json, e)), RowParser(json)) == Some(Map(lines, ParsedLine(FactOf(e))))
  {
    forall l | l in lines
      ensures RowParser(json)(RowFor(json, e)(l)) == Some(ParsedLine(FactOf(e))(l))
    {
      RowRead(rules, json, e, Some(l));
    }
    MapAllThrough(lines, RowFor(json, e), RowParser(json), ParsedLine(FactOf(e)));
  }

  lemma FactRowsRead(rules: TextRules, json: Json, e: Status)
    requires Sane(rules) && Faithful(json) && Readable(rules, e)
    ensures MapAll(RowsOf(json, e), RowParser(json)) == Some(ParsedOf(e))
  {
    if e.composition.None? {
      RowRead(rules, json, e, None);
      MapAllOne(Row(json, e, None), RowParser(json));
    } else {
      LineRowsRead(rules, json, e, LinesOf(e));
    }
  }

  lemma {:induction false} AllRowsRead(rules: TextRules, json: Json, events: seq<Status>)
    requires Sane(rules) && Faithful(json) && forall e :: e in events ==> Readable(rules, e)
    ensures MapAll(AllRows(json, events), RowParser(json)) == Some(AllParsed(events))
  {
    if events != [] {
      FactRowsRead(rules, json, events[0]);
      AllRowsRead(rules, json, events[1..]);
      MapAllAppend(RowsOf(json, events[0]), AllRows(json, events[1..]), RowParser(json));
    }
  }

  // ----- regrouping -----

  lemma {:induction false} FirstIndex(entries: seq<Entry>, fact: Status, k: nat)
    requires k < |entries| && SameKey(entries[k].fact, fact)
    requires forall i :: 0 <= i < k ==> !SameKey(entries[i].fact, fact)
    ensures IndexOf(entries, fact) == k
  {
  }

  predicate NotFiled(entries: seq<Entry>, fact: Status) {
    forall i :: 0 <= i < |entries| ==> !SameKey(entries[i].fact, fact)
  }

  /** The lines of a fact whose entry stands at position k are appended there. */
  lemma {:induction false} LinesFiled(entries: seq<Entry>, fact: Status, lines: seq<InvoiceLine>, k: nat)
    requires k < |entries| && IndexOf(entries, fact) == k
    ensures FileAll(entries, Map(lines, ParsedLine(fact))) ==
            if lines == [] then Some(entries)
            else if entries[k].fact != fact then None
            else Some(entries[k := Entry(fact, entries[k].lines + lines)])
    decreases |lines|
  {
    if lines != [] {
      assert Map(lines, ParsedLine(fact))[1..] == Map(lines[1..], ParsedLine(fact));
      if entries[k].fact == fact {
        var next := entries[k := Entry(fact, entries[k].lines + [lines[0]])];
        FirstIndex(next, fact, k);
        LinesFiled(next, fact, lines[1..], k);
        assert entries[k].lines + [lines[0]] + lines[1..] == entries[k].lines + lines;
        assert lines[1..] == [] ==> lines == [lines[0]];
        assert next[k := Entry(fact, entries[k].lines + lines)] == entries[k := Entry(fact, entries[k].lines + lines)];
      }
    }
  }

  /** The rows of a fact not filed yet open its entry and fill it completely. */
  lemma {:induction false} FactFiled(entries: seq<Entry>, e: Status)
    requires NotFiled(entries, FactOf(e)) && (e.composition.Some? ==> LinesOf(e) != [])
    ensures FileAll(entries, ParsedOf(e)) == Some(entries + [EntryOf()(e)])
  {
    var rows, fact, lines := ParsedOf(e), FactOf(e), LinesOf(e);
    if e.composition.None? {
      assert rows[1..] == [];
    } else {
      var begun := entries + [Entry(fact, [lines[0]])];
      assert File(entries, rows[0]) == Some(begun);
      FirstIndex(begun, fact, |entries|);
      LinesFiled(begun, fact, lines[1..], |entries|);
      assert rows[1..] == Map(lines[1..], ParsedLine(fact));
      assert [lines[0]] + lines[1..] == lines;
      assert lines[1..] == [] ==> lines == [lines[0]];
      assert begun[|entries| := Entry(fact, lines)] == entries + [Entry(fact, lines)];
    }
  }

  predicate KeysUnique(events: seq<Status>) {
    forall i, j :: 0 <= i < j < |events| ==> !SameKey(events[i], events[j])
  }

  predicate Lined(events: seq<Status>) {
    forall e :: e in events && e.composition.Some? ==> LinesOf(e) != []
  }

  lemma StillNotFiled(entries: seq<Entry>, events: seq<Status>)
    requires events != [] && KeysUnique(events)
    requires forall e :: e in events ==> NotFiled(entries, FactOf(e))
    ensures KeysUnique(events[1..])
    ensures forall f :: f in events[1..] ==> NotFiled(entries + [EntryOf()(events[0])], FactOf(f))
  {
    forall f | f in events[1..]
      ensures NotFiled(entries + [EntryOf()(events[0])], FactOf(f))
    {
      var j :| 1 <= j < |events| && events[j] == f;
      assert !SameKey(events[0], events[j]) && NotFiled(entries, FactOf(f));
    }
  }

  lemma {:induction false} FiledThen(entries: seq<Entry>, first: seq<ParsedRow>, rest: seq<ParsedRow>, next: seq<Entry>, last: seq<Entry>)
    requires FileAll(entries, first) == Some(next) && FileAll(next, rest) == Some(last)
    ensures FileAll(entries, first + rest) == Some(last)
  {
    FileAllAppend(entries, first, rest);
  }

  /** The rows of facts with different identities regroup into exactly those facts. */
  lemma {:induction false} BatchFiled(entries: seq<Entry>, events: seq<Status>)
    requires KeysUnique(events) && Lined(events)
    requires forall e :: e in events ==> NotFiled(entries, FactOf(e))
    ensures FileAll(entries, AllParsed(events)) == Some(entries + Map(events, EntryOf()))
    decreases |events|
  {
    if events == [] {
      assert entries + Map(events, EntryOf()) == entries;
    } else {
      var e, rest := events[0], events[1..];
      var next := entries + [EntryOf()(e)];
      assert entries + Map(events, EntryOf()) == next + Map(rest, EntryOf());
      FactFiled(entries, e);
      StillNotFiled(entries, events);
      BatchFiled(next, rest);
      FiledThen(entries, ParsedOf(e), AllParsed(rest), next, next + Map(rest, EntryOf()));
    }
  }

  /** Reassembling the entries of normalized facts gives the facts. */
  lemma AssembledBack(events: seq<Status>)
    ensures Assembled(Map(events, EntryOf())) == events
  {
  }

  // ----- two facts with one identity -----

  /** Filing more rows keeps every entry's fact and only extends its lines. */
  lemma {:induction false} EntriesGrow(entries: seq<Entry>, rows: seq<ParsedRow>, k: nat)
    requires k < |entries| && FileAll(entries, rows).Some?
    ensures var after := FileAll(entries, rows).value;
            |after| >= |entries| && after[k].fact == entries[k].fact && entries[k].lines <= after[k].lines
    decreases |rows|
  {
    if rows != [] {
      var next := File(entries, rows[0]).value;
      EntriesGrow(next, rows[1..], k);
    }
  }

  lemma {:induction false} GrossNonneg(rules: TextRules, lines: seq<InvoiceLine>)
    requires forall l :: l in lines ==> ValidLine(rules, l)
    ensures SumBy(lines, LineGross()) >= 0
  {
    if lines != [] {
      assert lines[0] in lines && forall l :: l in lines[1..] ==> l in lines;
      GrossNonneg(rules, lines[1..]);
    }
  }

  /** An entry that received the lines of two facts no longer adds up, so it is refused. */
  lemma OverfullRefused(rules: TextRules, entry: Entry, e: Status, f: Status)
    requires ValidStatus(rules, e) && ValidStatus(rules, f) && e.composition.Some?
    requires entry.fact == FactOf(e) == FactOf(f) && LinesOf(e) + LinesOf(f) <= entry.lines
    ensures Normalize(rules, Assemble(entry)) == None
  {
    var raw := Assemble(entry);
    if Normalize(rules, raw).Some? {
      var lowered := Map(entry.lines, LowerLine(rules));
      SumOfMap(entry.lines, LowerLine(rules), LineGross());
      assert ValidComposition(rules, Lowered(rules, raw).composition.value);
      var both := LinesOf(e) + LinesOf(f);
      assert entry.lines == both + entry.lines[|both|..];
      SumByAppend(both, entry.lines[|both|..], LineGross());
      SumByAppend(LinesOf(e), LinesOf(f), LineGross());
      RestNonneg(rules, entry.lines, |both|);
      PositiveDeclared(rules, e);
      assert false;
    }
  }

  lemma {:induction false} RestNonneg(rules: TextRules, lines: seq<InvoiceLine>, k: nat)
    requires k <= |lines| && forall l :: l in Map(lines, LowerLine(rules)) ==> ValidLine(rules, l)
    ensures SumBy(lines[k..], LineGross()) >= 0
  {
    SumOfMap(lines[k..], LowerLine(rules), LineGross());
    forall l | l in Map(lines[k..], LowerLine(rules))
      ensures ValidLine(rules, l)
    {
      var i :| 0 <= i < |lines| - k && Map(lines[k..], LowerLine(rules))[i] == l;
      assert Map(lines, LowerLine(rules))[k + i] == l;
    }
    GrossNonneg(rules, Map(lines[k..], LowerLine(rules)));
  }

  lemma PositiveDeclared(rules: TextRules, e: Status)
    requires ValidStatus(rules, e) && e.composition.Some?
    ensures e.composition.value.declared.gross > 0
    ensures SumBy(LinesOf(e), LineGross()) == e.composition.value.declared.gross
  {
    var lines := LinesOf(e);
    assert lines[0] in lines && forall l :: l in lines[1..] ==> l in lines;
    GrossNonneg(rules, lines[1..]);
  }

  lemma LinedBefore(events: seq<Status>, j: nat)
    requires j <= |events| && Lined(events)
    ensures Lined(events[..j])
  {
    assert forall x :: x in events[..j] ==> x in events;
  }

  lemma {:induction false} PrefixFiled(pre: seq<Status>)
    requires KeysUnique(pre) && Lined(pre)
    ensures FileAll([], AllParsed(pre)) == Some(Map(pre, EntryOf()))
  {
    BatchFiled([], pre);
    assert [] + Map(pre, EntryOf()) == Map(pre, EntryOf());
  }

  /** The facts before a repeated identity are filed one entry each, at their own places. */
  lemma {:induction false} FiledBefore(events: seq<Status>, i: nat, j: nat)
    requires i < j < |events| && SameKey(events[i], events[j]) && KeysUnique(events[..j]) && Lined(events)
    ensures var S := Map(events[..j], EntryOf());
            && FileAll([], AllParsed(events)) == FileAll(S, ParsedOf(events[j]) + AllParsed(events[j + 1..]))
            && |S| == j && S[i] == EntryOf()(events[i]) && IndexOf(S, FactOf(events[j])) == i
  {
    LinedBefore(events, j);
    PrefixFiled(events[..j]);
    AllParsedSplit(events, j);
    FileAllAppend([], AllParsed(events[..j]), ParsedOf(events[j]) + AllParsed(events[j + 1..]));
    FirstUnique(events[..j], i, events[j]);
  }

  /** Filing a fact whose identity stands at position k needs lines, and they join those of the entry there. */
  lemma {:induction false} FiledAgain(entries: seq<Entry>, f: Status, more: seq<ParsedRow>, k: nat)
    requires k < |entries| && IndexOf(entries, FactOf(f)) == k && (f.composition.Some? ==> LinesOf(f) != [])
    requires FileAll(entries, ParsedOf(f) + more).Some?
    ensures var after := FileAll(entries, ParsedOf(f) + more).value;
            && f.composition.Some? && k < |after| && after[k].fact == entries[k].fact == FactOf(f)
            && entries[k].lines + LinesOf(f) <= after[k].lines
  {
    FileAllAppend(entries, ParsedOf(f), more);
    if f.composition.Some? {
      LinesFiled(entries, FactOf(f), LinesOf(f), k);
      EntriesGrow(FileAll(entries, ParsedOf(f)).value, more, k);
    } else {
      SecondSingle(entries, f);
    }
  }

  /** When a second fact with one identity is filed at all, its lines join the first fact's. */
  lemma {:induction false} ClashFiled(events: seq<Status>, i: nat, j: nat)
    requires i < j < |events| && SameKey(events[i], events[j]) && KeysUnique(events[..j]) && Lined(events)
    requires FileAll([], AllParsed(events)).Some?
    ensures var after, e, f := FileAll([], AllParsed(events)).value, events[i], events[j];
            && i < |after| && after[i].fact == FactOf(e) == FactOf(f) && e.composition.Some?
            && LinesOf(e) + LinesOf(f) <= after[i].lines
  {
    FiledBefore(events, i, j);
    FiledAgain(Map(events[..j], EntryOf()), events[j], AllParsed(events[j + 1..]), i);
  }

  /** A fact without lines is refused when its identity is already filed. */
  lemma {:induction false} SecondSingle(entries: seq<Entry>, f: Status)
    requires f.composition.None? && IndexOf(entries, FactOf(f)) < |entries|
    ensures FileAll(entries, ParsedOf(f)) == None
  {
    assert ParsedOf(f)[0] == ParsedRow(FactOf(f), None);
    assert File(entries, ParsedOf(f)[0]) == None;
  }

  lemma FirstUnique(pre: seq<Status>, i: nat, f: Status)
    requires i < |pre| && KeysUnique(pre) && SameKey(pre[i], f)
    ensures IndexOf(Map(pre, EntryOf()), FactOf(f)) == i
  {
    var S := Map(pre, EntryOf());
    forall m | 0 <= m < i
      ensures !SameKey(S[m].fact, FactOf(f))
    {
      assert !SameKey(pre[m], pre[i]);
    }
    FirstIndex(S, FactOf(f), i);
  }

  /** Two facts that share an identity never survive the round trip. */
  lemma {:induction false} ClashRefused(rules: TextRules, events: seq<Status>, i: nat, j: nat)
    requires i < j < |events| && SameKey(events[i], events[j]) && KeysUnique(events[..j])
    requires forall e :: e in events ==> ValidStatus(rules, e)
    ensures FileAll([], AllParsed(events)).Some? ==>
              MapAll(Assembled(FileAll([], AllParsed(events)).value), Normalizer(rules)) == None
  {
    AllLined(rules, events);
    if FileAll([], AllParsed(events)).Some? {
      var after := FileAll([], AllParsed(events)).value;
      ClashFiled(events, i, j);
      assert events[i] in events && events[j] in events;
      OverfullRefused(rules, after[i], events[i], events[j]);
      RefusedOne(rules, after, i);
    }
  }

  lemma RefusedOne(rules: TextRules, entries: seq<Entry>, i: nat)
    requires i < |entries| && Normalizer(rules)(Assemble(entries[i])) == None
    ensures MapAll(Assembled(entries), Normalizer(rules)) == None
  {
    MapAllAt(Assembled(entries), Normalizer(rules));
    assert Assembled(entries)[i] == Assemble(entries[i]);
  }

  lemma AllLined(rules: TextRules, events: seq<Status>)
    requires forall e :: e in events ==> ValidStatus(rules, e)
    ensures Lined(events) && forall e :: e in events ==> Readable(rules, e)
  {
    forall e | e in events
      ensures (e.composition.Some? ==> LinesOf(e) != []) && Readable(rules, e)
    {
      ValidIsReadable(rules, e);
    }
  }

  lemma {:induction false} AllParsedSplit(events: seq<Status>, j: nat)
    requires j < |events|
    ensures AllParsed(events) == AllParsed(events[..j]) + (ParsedOf(events[j]) + AllParsed(events[j + 1..]))
  {
    if j == 0 {
      assert events[..0] == [];
    } else {
      AllParsedSplit(events[1..], j - 1);
      assert events[1..][..j - 1] == events[..j][1..] && events[..j][0] == events[0];
      assert events[1..][j - 1 + 1..] == events[j + 1..];
    }
  }

  // ----- the headers and the cells that can hold NUL -----

  predicate PlainHeader(h: string) {
    h != "" && h[0] != '\'' && forall c :: c in h ==> c != ',' && c != '"' && c != '\r' && c != '\n' && c != Csv.NUL
  }

  lemma PlainHeaders1()
    ensures PlainHeader("version")
    ensures PlainHeader("source")
    ensures PlainHeader("source_event_id")
    ensures PlainHeader("client_contract_id")
  {
  }

  lemma PlainHeaders2()
    ensures PlainHeader("invoice_number")
    ensures PlainHeader("fact_type")
    ensures PlainHeader("effective_at")
    ensures PlainHeader("remittance_reference")
  {
  }

  lemma PlainHeaders3()
    ensures PlainHeader("reconciliation_id")
    ensures PlainHeader("original_event_id")
    ensures PlainHeader("net_pence")
    ensures PlainHeader("vat_pence")
  {
  }

  lemma PlainHeaders4()
    ensures PlainHeader("gross_pence")
    ensures PlainHeader("declared_net_pence")
    ensures PlainHeader("declared_vat_pence")
    ensures PlainHeader("declared_gross_pence")
  {
  }

  lemma PlainHeaders5()
    ensures PlainHeader("explicit")
    ensures PlainHeader("separate_invoice")
    ensures PlainHeader("line_adjustments")
    ensures PlainHeader("external_invoice_line_id")
  {
  }

  lemma PlainHeaders6()
    ensures PlainHeader("line_kind")
    ensures PlainHeader("line_existed_at")
    ensures PlainHeader("line_net_pence")
    ensures PlainHeader("line_vat_pence")
  {
  }

  lemma PlainHeaders7()
    ensures PlainHeader("line_gross_pence")
    ensures PlainHeader("export_line_id")
    ensures PlainHeader("job_id")
    ensures PlainHeader("extra_id")
  {
  }

  lemma PlainHeaders8()
    ensures PlainHeader("scope_item_id")
    ensures PlainHeader("revision_id")
    ensures PlainHeader("revision_hash")
    ensures PlainHeader("sandbox_label")
  {
  }

  lemma EveryOfEight(p: string -> bool, a: string, b: string, c: string, d: string, e: string, f: string, g: string, h: string)
    requires p(a) && p(b) && p(c) && p(d) && p(e) && p(f) && p(g) && p(h)
    ensures forall x :: x in [a, b, c, d, e, f, g, h] ==> p(x)
  {
  }

  lemma EveryPart(p: string -> bool, s: seq<string>, t: seq<string>, u: seq<string>, v: seq<string>)
    requires (forall x :: x in s ==> p(x)) && (forall x :: x in t ==> p(x)) && (forall x :: x in u ==> p(x)) && (forall x :: x in v ==> p(x))
    ensures forall x :: x in s + t + u + v ==> p(x)
  {
  }

  lemma EveryHeader(p: string -> bool)
    requires p("version") && p("source") && p("source_event_id") && p("client_contract_id")
    requires p("invoice_number") && p("fact_type") && p("effective_at") && p("remittance_reference")
    requires p("reconciliation_id") && p("original_event_id") && p("net_pence") && p("vat_pence")
    requires p("gross_pence") && p("declared_net_pence") && p("declared_vat_pence") && p("declared_gross_pence")
    requires p("explicit") && p("separate_invoice") && p("line_adjustments") && p("external_invoice_line_id")
    requires p("line_kind") && p("line_existed_at") && p("line_net_pence") && p("line_vat_pence")
    requires p("line_gross_pence") && p("export_line_id") && p("job_id") && p("extra_id")
    requires p("scope_item_id") && p("revision_id") && p("revision_hash") && p("sandbox_label")
    ensures forall h :: h in STATUS_HEADERS ==> p(h)
  {
    EveryOfEight(p, "version", "source", "source_event_id", "client_contract_id", "invoice_number", "fact_type", "effective_at", "remittance_reference");
    EveryOfEight(p, "reconciliation_id", "original_event_id", "net_pence", "vat_pence", "gross_pence", "declared_net_pence", "declared_vat_pence", "declared_gross_pence");
    EveryOfEight(p, "explicit", "separate_invoice", "line_adjustments", "external_invoice_line_id", "line_kind", "line_existed_at", "line_net_pence", "line_vat_pence");
    EveryOfEight(p, "line_gross_pence", "export_line_id", "job_id", "extra_id", "scope_item_id", "revision_id", "revision_hash", "sandbox_label");
    EveryPart(p, ["version", "source", "source_event_id", "client_contract_id", "invoice_number", "fact_type", "effective_at", "remittance_reference"],
              ["reconciliation_id", "original_event_id", "net_pence", "vat_pence", "gross_pence", "declared_net_pence", "declared_vat_pence", "declared_gross_pence"],
              ["explicit", "separate_invoice", "line_adjustments", "external_invoice_line_id", "line_kind", "line_existed_at", "line_net_pence", "line_vat_pence"],
              ["line_gross_pence", "export_line_id", "job_id", "extra_id", "scope_item_id", "revision_id", "revision_hash", "sandbox_label"]);
  }

  lemma HeadersPlain()
    ensures forall h :: h in STATUS_HEADERS ==> Csv.PlainCell(h) && Csv.NUL !in h
  {
    PlainHeaders1();
    PlainHeaders2();
    PlainHeaders3();
    PlainHeaders4();
    PlainHeaders5();
    PlainHeaders6();
    PlainHeaders7();
    PlainHeaders8();
    var p := (h: string) => PlainHeader(h);
    EveryHeader(p);
    forall h | h in STATUS_HEADERS
      ensures Csv.PlainCell(h) && Csv.NUL !in h
    {
      assert p(h);
    }
  }

  // ----- which cells can hold NUL -----

  predicate NulFree(cells: seq<string>) {
    forall c :: c in cells ==> Csv.NUL !in c
  }

  predicate CarriesNul(e: Status) {
    e.remittance.Some? && Csv.NUL in e.remittance.value
  }

  lemma PlainTextNulFree(s: string)
    requires Identity(s) || SourceName(s) || HashText(s)
    ensures Csv.NUL !in s
  {
  }

  lemma LabelNulFree()
    ensures Csv.NUL !in SANDBOX_LABEL
  {
    assert SANDBOX_LABEL == "Practice sandbox — synthetic data;" + " nothing is sent or charged";
  }

  lemma LiteralsNulFree()
    ensures Csv.NUL !in VERSION && Csv.NUL !in SANDBOX_LABEL
    ensures forall f :: Csv.NUL !in FactName(f)
    ensures forall k :: Csv.NUL !in KindName(k)
  {
    LabelNulFree();
  }

  lemma OptionalNulFree(x: Option<string>)
    requires x.Some? ==> Identity(x.value)
    ensures Csv.NUL !in OrEmpty(x)
  {
  }

  lemma AmountCellsNulFree(a: Option<Amounts>)
    requires a.Some? ==> ValidAmounts(a.value)
    ensures NulFree(AmountCells(a))
  {
    if a.Some? {
      AmountsRead(a.value);
    }
  }

  lemma NulFreeAppend(a: seq<string>, b: seq<string>)
    ensures NulFree(a + b) <==> NulFree(a) && NulFree(b)
  {
    assert forall c :: c in a + b <==> c in a || c in b;
  }

  lemma LineCellsNulFree(rules: TextRules, l: Option<InvoiceLine>)
    requires Sane(rules) && (l.Some? ==> ValidLine(rules, l.value))
    ensures NulFree(LineCells(l))
  {
    if l.Some? {
      LiteralsNulFree();
      AmountCellsNulFree(Some(l.value.amounts));
      MatchCellsRead(rules, l.value.export_);
      NulFreeAppend([l.value.id, KindName(l.value.kind), l.value.existedAt], AmountCells(Some(l.value.amounts)));
      NulFreeAppend([l.value.id, KindName(l.value.kind), l.value.existedAt] + AmountCells(Some(l.value.amounts)), MatchCells(l.value.export_));
    }
  }

  /** The text parts of the schema that keep NUL out of a fact's cells. */
  ghost predicate Printable(e: Status) {
    && Csv.NUL !in e.source && Csv.NUL !in e.eventId && Csv.NUL !in e.contract && Csv.NUL !in e.invoiceNumber
    && Csv.NUL !in e.effectiveAt && Csv.NUL !in OrEmpty(e.reconciliation) && Csv.NUL !in OrEmpty(e.original)
  }

  lemma ValidIsPrintable(rules: TextRules, e: Status)
    requires Sane(rules) && ValidStatus(rules, e)
    ensures Printable(e)
  {
    PlainTextNulFree(e.source);
    OptionalNulFree(e.reconciliation);
    OptionalNulFree(e.original);
  }

  lemma FactCellsNul(json: Json, e: Status)
    requires Faithful(json) && Writable(e) && Printable(e)
    ensures NulFree(FactCells(json, e)) <==> !CarriesNul(e)
  {
    LiteralsNulFree();
    AmountCellsNulFree(Some(e.amount));
    var declared := if e.composition.Some? then Some(e.composition.value.declared) else None;
    AmountCellsNulFree(declared);
    var head := [VERSION, e.source, e.eventId, e.contract, e.invoiceNumber, FactName(e.factType), e.effectiveAt,
      OrEmpty(e.remittance), OrEmpty(e.reconciliation), OrEmpty(e.original)];
    var tail := [json.writeShares(e.explicit), if e.separate then "true" else "false", json.writeAdjustments(e.adjustments)];
    assert head[7] in head;
    assert NulFree(head) <==> !CarriesNul(e);
    assert NulFree(tail);
    NulFreeAppend(head, AmountCells(Some(e.amount)));
    NulFreeAppend(head + AmountCells(Some(e.amount)), AmountCells(declared));
    NulFreeAppend(head + AmountCells(Some(e.amount)) + AmountCells(declared), tail);
  }

  lemma RowNul(rules: TextRules, json: Json, e: Status, l: Option<InvoiceLine>)
    requires Sane(rules) && Faithful(json) && Writable(e) && Printable(e) && (l.Some? ==> ValidLine(rules, l.value))
    ensures NulFree(Row(json, e, l)) <==> !CarriesNul(e)
    ensures Row(json, e, l) != []
  {
    LiteralsNulFree();
    FactCellsNul(json, e);
    LineCellsNulFree(rules, l);
    NulFreeAppend(FactCells(json, e), LineCells(l));
    NulFreeAppend(FactCells(json, e) + LineCells(l), [SANDBOX_LABEL]);
  }

  lemma RowsNul(rules: TextRules, json: Json, e: Status)
    requires Sane(rules) && Faithful(json) && ValidStatus(rules, e)
    ensures RowsOf(json, e) != [] && forall row :: row in RowsOf(json, e) ==> row != [] && (NulFree(row) <==> !CarriesNul(e))
  {
    ValidIsReadable(rules, e);
    ValidIsPrintable(rules, e);
    forall row | row in RowsOf(json, e)
      ensures row != [] && (NulFree(row) <==> !CarriesNul(e))
    {
      if e.composition.None? {
        RowNul(rules, json, e, None);
      } else {
        var i :| 0 <= i < |RowsOf(json, e)| && RowsOf(json, e)[i] == row;
        RowNul(rules, json, e, Some(LinesOf(e)[i]));
      }
    }
  }

  predicate RowsClean(rows: seq<seq<string>>) {
    forall row :: row in rows ==> row != [] && NulFree(row)
  }

  predicate RowsStarted(rows: seq<seq<string>>) {
    forall row :: row in rows ==> row != []
  }

  lemma RowsAppended(a: seq<seq<string>>, b: seq<seq<string>>)
    ensures RowsClean(a + b) <==> RowsClean(a) && RowsClean(b)
    ensures RowsStarted(a + b) <==> RowsStarted(a) && RowsStarted(b)
  {
    assert forall row :: row in a + b <==> row in a || row in b;
  }

  lemma FactRowsClean(rules: TextRules, json: Json, e: Status)
    requires Sane(rules) && Faithful(json) && ValidStatus(rules, e)
    ensures RowsOf(json, e) != [] && RowsStarted(RowsOf(json, e)) && (RowsClean(RowsOf(json, e)) <==> !CarriesNul(e))
  {
    RowsNul(rules, json, e);
    assert RowsOf(json, e)[0] in RowsOf(json, e);
  }

  predicate NoneCarriesNul(events: seq<Status>) {
    forall e :: e in events ==> !CarriesNul(e)
  }

  lemma {:induction false} RowsBatch(rules: TextRules, json: Json, events: seq<Status>)
    requires Sane(rules) && Faithful(json) && forall e :: e in events ==> ValidStatus(rules, e)
    ensures RowsClean(AllRows(json, events)) <==> NoneCarriesNul(events)
    ensures RowsStarted(AllRows(json, events)) && (events != [] ==> AllRows(json, events) != [])
  {
    if events != [] {
      assert forall e :: e in events <==> e == events[0] || e in events[1..];
      FactRowsClean(rules, json, events[0]);
      RowsBatch(rules, json, events[1..]);
      RowsAppended(RowsOf(json, events[0]), AllRows(json, events[1..]));
    }
  }

  /** A rendered batch holds a NUL exactly when some remittance reference does. */
  lemma {:induction false} BatchNul(rules: TextRules, json: Json, events: seq<Status>)
    requires Sane(rules) && Faithful(json) && forall e :: e in events ==> ValidStatus(rules, e)
    ensures (forall row :: row in AllRows(json, events) ==> row != [] && NulFree(row)) <==>
            (forall e :: e in events ==> !CarriesNul(e))
    ensures forall row :: row in AllRows(json, events) ==> row != []
    ensures events != [] ==> AllRows(json, events) != []
  {
    RowsBatch(rules, json, events);
  }

  // ----- the round trip -----

  lemma {:induction false} NormalizedFacts(rules: TextRules, raws: seq<Status>)
    requires Sane(rules) && MapAll(raws, Normalizer(rules)).Some?
    ensures var events := MapAll(raws, Normalizer(rules)).value;
            && |events| == |raws| && MapAll(events, Normalizer(rules)) == Some(events)
            && forall e :: e in events ==> ValidStatus(rules, e)
  {
    var events := MapAll(raws, Normalizer(rules)).value;
    MapAllAt(raws, Normalizer(rules));
    forall i | 0 <= i < |events|
      ensures Normalizer(rules)(events[i]) == Some(events[i]) && ValidStatus(rules, events[i])
    {
      NormalizeTwice(rules, raws[i]);
    }
    MapAllAt(events, Normalizer(rules));
    assert MapAll(events, Normalizer(rules)).value == events;
  }

  /** What the character reader makes of a rendered batch. */
  lemma {:induction false} RenderedRead(rules: TextRules, json: Json, events: seq<Status>, bytes: nat)
    requires Sane(rules) && Faithful(json) && events != [] && forall e :: e in events ==> ValidStatus(rules, e)
    requires |AllRows(json, events)| <= MAX_LINES
    ensures Csv.Read(Csv.CsvRows(STATUS_HEADERS, AllRows(json, events)), bytes) ==
            if 1 <= bytes <= Csv.MAX_CSV_BYTES && (forall e :: e in events ==> !CarriesNul(e))
            then Ok([STATUS_HEADERS] + AllRows(json, events)) else Err(Csv.Invalid)
  {
    var rows := AllRows(json, events);
    HeadersPlain();
    BatchNul(rules, json, events);
    Csv.TableNul(STATUS_HEADERS, rows);
    Csv.TableRoundTrip(STATUS_HEADERS, rows);
    assert (exists row, c :: row in rows && c in row && Csv.NUL in c) <==> !(forall row :: row in rows ==> NulFree(row));
  }

  /** A rendered batch is the header and safely written cells: opened in a spreadsheet, none of them is a formula. */
  lemma RenderedSafely(rules: TextRules, json: Json, raws: seq<Status>) returns (written: seq<seq<string>>)
    requires Render(rules, json, raws).Some?
    ensures var events := MapAll(raws, Normalizer(rules)).value;
            Csv.SafeTable(Render(rules, json, raws).value, STATUS_HEADERS, AllRows(json, events), written)
  {
    written := Csv.TableSafe(STATUS_HEADERS, AllRows(json, MapAll(raws, Normalizer(rules)).value));
  }

  /** Regrouping the rows of a batch and normalizing gives the batch back exactly when its identities differ. */
  lemma {:induction false} RegroupedBack(rules: TextRules, json: Json, events: seq<Status>)
    requires Sane(rules) && Faithful(json) && MapAll(events, Normalizer(rules)) == Some(events)
    requires forall e :: e in events ==> ValidStatus(rules, e)
    ensures var entries := Regroup(AllRows(json, events), RowParser(json));
            var back := if entries.None? then None else MapAll(Assembled(entries.value), Normalizer(rules));
            back == if KeysUnique(events) then Some(events) else None
  {
    AllLined(rules, events);
    AllRowsRead(rules, json, events);
    if KeysUnique(events) {
      BatchFiled([], events);
      assert [] + Map(events, EntryOf()) == Map(events, EntryOf());
      AssembledBack(events);
    } else {
      var i, j := FirstClash(events);
      ClashRefused(rules, events, i, j);
    }
  }

  lemma PrefixClash(events: seq<Status>, last: nat, m: nat, n: nat)
    requires m < n < last <= |events| && SameKey(events[m], events[n])
    ensures !KeysUnique(events[..last])
  {
    assert SameKey(events[..last][m], events[..last][n]);
  }

  lemma {:induction false} FirstClash(events: seq<Status>) returns (i: nat, j: nat)
    requires !KeysUnique(events)
    ensures i < j < |events| && SameKey(events[i], events[j]) && KeysUnique(events[..j])
    decreases |events|
  {
    var last := |events| - 1;
    if KeysUnique(events[..last]) {
      var m, n :| 0 <= m < n < |events| && SameKey(events[m], events[n]);
      if n < last {
        PrefixClash(events, last, m, n);
      }
      i, j := m, n;
    } else {
      i, j := FirstClash(events[..last]);
      assert events[..last][..j] == events[..j];
    }
  }

  /**
   * The round trip. A rendered batch parses back to exactly the normalized facts, in order, if and
   * only if its text is within the size limit, no remittance reference holds a NUL and no two facts
   * share their (source, event id) identity; in every other case the parser refuses it.
   */
  lemma {:induction false} BillingRoundTrip(rules: TextRules, json: Json, raws: seq<Status>, bytes: nat)
    requires Sane(rules) && Faithful(json) && Render(rules, json, raws).Some?
    ensures var events := MapAll(raws, Normalizer(rules)).value;
            Parse(rules, json, Render(rules, json, raws).value, bytes) ==
            if && 1 <= bytes <= Csv.MAX_CSV_BYTES
               && (forall e :: e in events ==> !CarriesNul(e))
               && KeysUnique(events)
            then Some(events) else None
  {
    var events := MapAll(raws, Normalizer(rules)).value;
    NormalizedFacts(rules, raws);
    RenderedRead(rules, json, events, bytes);
    RegroupedBack(rules, json, events);
    BatchNul(rules, json, events);
    var rows := AllRows(json, events);
    assert ([STATUS_HEADERS] + rows)[1..] == rows && ([STATUS_HEADERS] + rows)[0] == STATUS_HEADERS;
  }
}
