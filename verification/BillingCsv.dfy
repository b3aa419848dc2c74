/** Billing facts as CSV: one row per invoice line, regrouped into facts on reading. */
module BillingCsv {
  import opened Prelude
  import opened Billing
  import opened Decimals
  import Csv

  /** The JSON cells for explicit shares and line adjustments. */
  datatype Json = Json(writeShares: Option<seq<ExplicitShare>> -> string,
                       readShares: string -> Option<Option<seq<ExplicitShare>>>,
                       writeAdjustments: seq<Adjustment> -> string,
                       readAdjustments: string -> Option<seq<Adjustment>>)

  /** Reading JSON undoes writing it, and JSON text never holds a raw NUL. */
  ghost predicate Faithful(json: Json) {
    && (forall x :: json.readShares(json.writeShares(x)) == Some(x) && Csv.NUL !in json.writeShares(x))
    && (forall x :: json.readAdjustments(json.writeAdjustments(x)) == Some(x) && Csv.NUL !in json.writeAdjustments(x))
  }

  const VERSION := "billing-status.v1"
  const SANDBOX_LABEL := "Practice sandbox — synthetic data; nothing is sent or charged"
  const COLUMNS := 32
  const STATUS_HEADERS := ["version", "source", "source_event_id", "client_contract_id", "invoice_number", "fact_type",
    "effective_at", "remittance_reference", "reconciliation_id", "original_event_id", "net_pence", "vat_pence", "gross_pence",
    "declared_net_pence", "declared_vat_pence", "declared_gross_pence", "explicit", "separate_invoice", "line_adjustments",
    "external_invoice_line_id", "line_kind", "line_existed_at", "line_net_pence", "line_vat_pence", "line_gross_pence",
    "export_line_id", "job_id", "extra_id", "scope_item_id", "revision_id", "revision_hash", "sandbox_label"]

  function FactName(f: FactType): string {
    match f
    case Invoiced => "invoiced"
    case Credited => "credited"
    case Paid => "paid"
    case PaymentReversed => "payment_reversed"
    case Rejected => "rejected"
  }

  function FactNamed(s: string): Option<FactType> {
    if s == "invoiced" then Some(Invoiced)
    else if s == "credited" then Some(Credited)
    else if s == "paid" then Some(Paid)
    else if s == "payment_reversed" then Some(PaymentReversed)
    else if s == "rejected" then Some(Rejected)
    else None
  }

  function KindName(k: LineKind): string {
    match k
    case OriginalOrder => "original_order"
    case Extra => "extra"
    case Other => "other"
  }

  function KindNamed(s: string): Option<LineKind> {
    if s == "original_order" then Some(OriginalOrder)
    else if s == "extra" then Some(Extra)
    else if s == "other" then Some(Other)
    else None
  }

  // ----- writing -----

  function OrEmpty(x: Option<string>): string {
    if x.Some? then x.value else ""
  }

  function NumberText(n: int): string {
    if n < 0 then "-" + Decimal(-n) else Decimal(n)
  }

  function AmountCells(a: Option<Amounts>): seq<string> {
    if a.None? then ["", "", ""]
    else [NumberText(a.value.net), NumberText(a.value.vat), NumberText(a.value.gross)]
  }

  function MatchCells(m: Option<ExportMatch>): seq<string> {
    if m.None? then ["", "", "", "", "", ""]
    else [m.value.exportLineId, m.value.jobId, m.value.extraId, m.value.scopeItemId, m.value.revisionId, m.value.revisionHash]
  }

  function FactCells(json: Json, e: Status): seq<string> {
    [VERSION, e.source, e.eventId, e.contract, e.invoiceNumber, FactName(e.factType), e.effectiveAt,
     OrEmpty(e.remittance), OrEmpty(e.reconciliation), OrEmpty(e.original)]
    + AmountCells(Some(e.amount))
    + AmountCells(if e.composition.Some? then Some(e.composition.value.declared) else None)
    + [json.writeShares(e.explicit), if e.separate then "true" else "false", json.writeAdjustments(e.adjustments)]
  }

  function LineCells(l: Option<InvoiceLine>): seq<string> {
    if l.None? then ["", "", "", "", "", "", "", "", "", "", "", ""]
    else [l.value.id, KindName(l.value.kind), l.value.existedAt] + AmountCells(Some(l.value.amounts)) + MatchCells(l.value.export_)
  }

  function Row(json: Json, e: Status, l: Option<InvoiceLine>): seq<string> {
    FactCells(json, e) + LineCells(l) + [SANDBOX_LABEL]
  }

  function RowFor(json: Json, e: Status): InvoiceLine -> seq<string> {
    (l: InvoiceLine) => Row(json, e, Some(l))
  }

  function RowsOf(json: Json, e: Status): seq<seq<string>> {
    if e.composition.None? then [Row(json, e, None)]
    else Map(e.composition.value.lines, RowFor(json, e))
  }

  function AllRows(json: Json, events: seq<Status>): seq<seq<string>> {
    if events == [] then [] else RowsOf(json, events[0]) + AllRows(json, events[1..])
  }

  /** The rendered table, or None when the writer refuses the batch. */
  function Render(rules: TextRules, json: Json, raws: seq<Status>): Option<string> {
    if raws == [] || |raws| > MAX_LINES then None
    else
      var events :- MapAll(raws, Normalizer(rules));
      if |AllRows(json, events)| > MAX_LINES then None
      else Some(Csv.CsvRows(STATUS_HEADERS, AllRows(json, events)))
  }

  method RenderBillingCsv(rules: TextRules, json: Json, raws: seq<Status>) returns (text: Option<string>)
    ensures text == Render(rules, json, raws)
  {
    if raws == [] || |raws| > MAX_LINES {
      return None;
    }
    var rows := CollectRows(Normalizer(rules), json, raws);
    if rows.None? || |rows.value| > MAX_LINES {
      return None;
    }
    return Some(Csv.CsvRows(STATUS_HEADERS, rows.value));
  }

  /** Reading one more fact; a failure fails the whole. */
  lemma {:induction false} MapAllNext(raws: seq<Status>, normal: Status -> Option<Status>, i: nat)
    requires i < |raws| && MapAll(raws[..i], normal).Some?
    ensures MapAll(raws[..i + 1], normal) ==
            if normal(raws[i]).Some? then Some(MapAll(raws[..i], normal).value + [normal(raws[i]).value]) else None
    ensures normal(raws[i]).None? ==> MapAll(raws, normal).None?
  {
    assert raws[..i + 1] == raws[..i] + [raws[i]];
    assert raws == raws[..i + 1] + raws[i + 1..];
    MapAllOne(raws[i], normal);
    MapAllAppend(raws[..i], [raws[i]], normal);
    MapAllAppend(raws[..i + 1], raws[i + 1..], normal);
  }

  method CollectRows(normal: Status -> Option<Status>, json: Json, raws: seq<Status>)
    returns (rows: Option<seq<seq<string>>>)
    ensures MapAll(raws, normal).None? ==> rows == None
    ensures MapAll(raws, normal).Some? ==> rows == Some(AllRows(json, MapAll(raws, normal).value))
  {
    var collected: seq<seq<string>> := [];
    ghost var events: seq<Status> := [];
    for i := 0 to |raws|
      invariant collected == AllRows(json, events)
      invariant MapAll(raws[..i], normal) == Some(events)
    {
      MapAllNext(raws, normal, i);
      var n := normal(raws[i]);
      if n.None? {
        return None;
      }
      AllRowsAppend(json, events, n.value);
      events := events + [n.value];
      collected := AddFactRows(json, collected, n.value);
    }
    assert raws[..|raws|] == raws;
    return Some(collected);
  }

  lemma NextRow(lines: seq<InvoiceLine>, row: InvoiceLine -> seq<string>, k: nat)
    requires k < |lines|
    ensures Map(lines, row)[..k + 1] == Map(lines, row)[..k] + [row(lines[k])]
  {
  }

  /** One row for each of the fact's lines, or a single row when it has no composition. */
  method AddFactRows(json: Json, before: seq<seq<string>>, e: Status) returns (rows: seq<seq<string>>)
    ensures rows == before + RowsOf(json, e)
  {
    rows := before;
    if e.composition.None? {
      rows := rows + [Row(json, e, None)];
      return;
    }
    var lines := e.composition.value.lines;
    for k := 0 to |lines|
      invariant rows == before + RowsOf(json, e)[..k]
    {
      NextRow(lines, RowFor(json, e), k);
      rows := rows + [RowFor(json, e)(lines[k])];
    }
    assert RowsOf(json, e)[..|lines|] == RowsOf(json, e);
  }

  lemma {:induction false} AllRowsAppend(json: Json, events: seq<Status>, e: Status)
    ensures AllRows(json, events + [e]) == AllRows(json, events) + RowsOf(json, e)
  {
    if events == [] {
      assert events + [e] == [e] && [e][1..] == [];
      assert AllRows(json, [e]) == RowsOf(json, e) + [];
    } else {
      assert (events + [e])[0] == events[0] && (events + [e])[1..] == events[1..] + [e];
      AllRowsAppend(json, events[1..], e);
    }
  }

  // ----- reading -----

  function OrNull(s: string): Option<string> {
    if s == "" then None else Some(s)
  }

  function Integer(s: string): Option<nat> {
    if |s| <= 13 then ParseNat(s) else None
  }

  function ParseAmounts(net: string, vat: string, gross: string): Option<Amounts> {
    var n :- Integer(net);
    var v :- Integer(vat);
    var g :- Integer(gross);
    Some(Amounts(n, v, g))
  }

  /** The fact a row repeats, with its declared totals but no lines yet. */
  function ParseFact(json: Json, c: seq<string>): Option<Status>
    requires |c| == COLUMNS
  {
    if c[31] != SANDBOX_LABEL || (c[17] != "true" && c[17] != "false") || c[0] != VERSION then None
    else
      var factType :- FactNamed(c[5]);
      var amount :- ParseAmounts(c[10], c[11], c[12]);
      var explicit :- json.readShares(c[16]);
      var adjustments :- json.readAdjustments(c[18]);
      var composition :- ParseDeclared(c[13], c[14], c[15]);
      Some(Status(c[3], c[1], c[2], c[4], factType, c[6], OrNull(c[7]), OrNull(c[8]), OrNull(c[9]),
                  amount, composition, explicit, c[17] == "true", adjustments))
  }

  function ParseDeclared(net: string, vat: string, gross: string): Option<Option<Composition>> {
    if net == "" && vat == "" && gross == "" then Some(None)
    else
      var declared :- ParseAmounts(net, vat, gross);
      Some(Some(Composition(declared, [])))
  }

  function ParseMatch(c: seq<string>): Option<Option<ExportMatch>>
    requires |c| == 6
  {
    if forall s :: s in c ==> s == "" then Some(None)
    else if "" in c then None
    else Some(Some(ExportMatch(c[0], c[1], c[2], c[3], c[4], c[5])))
  }

  function ParseLine(c: seq<string>): Option<InvoiceLine>
    requires |c| == 12
  {
    var kind :- KindNamed(c[1]);
    var amounts :- ParseAmounts(c[3], c[4], c[5]);
    var export_ :- ParseMatch(c[6..]);
    Some(InvoiceLine(c[0], kind, c[2], amounts, export_))
  }

  /** A fact being regrouped: its repeated header and the lines seen so far. */
  datatype Entry = Entry(fact: Status, lines: seq<InvoiceLine>)

  predicate SameKey(a: Status, b: Status) {
    a.source == b.source && a.eventId == b.eventId
  }

  /** The position of the fact's entry, or the number of entries. */
  function IndexOf(entries: seq<Entry>, fact: Status): (k: nat)
    ensures k <= |entries|
    ensures k < |entries| ==> SameKey(entries[k].fact, fact)
    ensures forall i :: 0 <= i < k ==> !SameKey(entries[i].fact, fact)
  {
    if entries == [] || SameKey(entries[0].fact, fact) then 0 else 1 + IndexOf(entries[1..], fact)
  }

  /** A row's fact and, when the fact has a composition, the line the row carries. */
  datatype ParsedRow = ParsedRow(fact: Status, line: Option<InvoiceLine>)

  function ParseRow(json: Json, c: seq<string>): Option<ParsedRow> {
    if |c| != COLUMNS then None
    else
      var fact :- ParseFact(json, c);
      if fact.composition.None? then
        if exists s :: s in c[19..31] && s != "" then None else Some(ParsedRow(fact, None))
      else
        var line :- ParseLine(c[19..31]);
        Some(ParsedRow(fact, Some(line)))
  }

  function RowParser(json: Json): seq<string> -> Option<ParsedRow> {
    (c: seq<string>) => ParseRow(json, c)
  }

  /** Files one parsed row under its fact; None when it contradicts what is already filed there. */
  function File(entries: seq<Entry>, row: ParsedRow): Option<seq<Entry>> {
    var k := IndexOf(entries, row.fact);
    if k < |entries| && (entries[k].fact != row.fact || row.line.None?) then None
    else if row.line.None? then Some(entries + [Entry(row.fact, [])])
    else if k < |entries| then Some(entries[k := Entry(row.fact, entries[k].lines + [row.line.value])])
    else Some(entries + [Entry(row.fact, [row.line.value])])
  }

  function FileAll(entries: seq<Entry>, rows: seq<ParsedRow>): Option<seq<Entry>>
    decreases |rows|
  {
    if rows == [] then Some(entries)
    else
      var next :- File(entries, rows[0]);
      FileAll(next, rows[1..])
  }

  /** Parses and files every row; every refusal is the same refusal, whichever row it comes from. */
  function Regroup(rows: seq<seq<string>>, parser: seq<string> -> Option<ParsedRow>): Option<seq<Entry>> {
    var parsed :- MapAll(rows, parser);
    FileAll([], parsed)
  }

  function Assemble(entry: Entry): Status {
    entry.fact.(composition := if entry.fact.composition.None? then None
                               else Some(entry.fact.composition.value.(lines := entry.lines)))
  }

  function Assembled(entries: seq<Entry>): (raws: seq<Status>) {
    Map(entries, Assemble)
  }

  /** What the reader answers for a text of `bytes` bytes. */
  function Parse(rules: TextRules, json: Json, text: string, bytes: nat): Option<seq<Status>> {
    var read := Csv.Read(text, bytes);
    if read.Err? || |read.value| < 2 || read.value[0] != STATUS_HEADERS then None
    else
      var entries :- Regroup(read.value[1..], RowParser(json));
      MapAll(Assembled(entries), Normalizer(rules))
  }

  method ParseBillingCsv(rules: TextRules, json: Json, text: string, bytes: nat) returns (events: Option<seq<Status>>)
    ensures events == Parse(rules, json, text, bytes)
  {
    var read := Csv.ReadCsv(text, bytes);
    if read.Err? || |read.value| < 2 || read.value[0] != STATUS_HEADERS {
      return None;
    }
    var entries := RegroupRows(read.value[1..], RowParser(json));
    if entries.None? {
      return None;
    }
    return MapAll(Assembled(entries.value), Normalizer(rules));
  }

  method RegroupRows(rows: seq<seq<string>>, parser: seq<string> -> Option<ParsedRow>) returns (result: Option<seq<Entry>>)
    ensures result == Regroup(rows, parser)
  {
    var entries: seq<Entry> := [];
    ghost var parsed: seq<ParsedRow> := [];
    for i := 0 to |rows|
      invariant MapAll(rows[..i], parser) == Some(parsed)
      invariant FileAll([], parsed) == Some(entries)
    {
      assert rows[..i + 1] == rows[..i] + [rows[i]] && rows == rows[..i + 1] + rows[i + 1..];
      MapAllOne(rows[i], parser);
      MapAllAppend(rows[..i], [rows[i]], parser);
      MapAllAppend(rows[..i + 1], rows[i + 1..], parser);
      var row := parser(rows[i]);
      if row.None? {
        return None;
      }
      FileAllAppend([], parsed, [row.value]);
      var next := FileRow(entries, row.value);
      if next.None? {
        if MapAll(rows, parser).Some? {
          FileAllAppend([], parsed + [row.value], MapAll(rows[i + 1..], parser).value);
        }
        return None;
      }
      parsed := parsed + [row.value];
      entries := next.value;
    }
    assert rows[..|rows|] == rows;
    return Some(entries);
  }

  method FileRow(entries: seq<Entry>, row: ParsedRow) returns (next: Option<seq<Entry>>)
    ensures next == File(entries, row)
    ensures next == FileAll(entries, [row])
  {
    assert [row][1..] == [];
    var fact, k := row.fact, IndexOf(entries, row.fact);
    if k < |entries| && entries[k].fact != fact {
      return None;
    }
    if row.line.None? {
      if k < |entries| {
        return None;
      }
      return Some(entries + [Entry(fact, [])]);
    }
    var filed := entries;
    if k == |entries| {
      filed := filed + [Entry(fact, [])];
    }
    filed := filed[k := Entry(fact, filed[k].lines + [row.line.value])];
    assert [] + [row.line.value] == [row.line.value];
    assert k == |entries| ==> filed == entries + [Entry(fact, [row.line.value])];
    return Some(filed);
  }

  lemma {:induction false} FileAllAppend(entries: seq<Entry>, a: seq<ParsedRow>, b: seq<ParsedRow>)
    ensures FileAll(entries, a + b) ==
            if FileAll(entries, a).None? then None else FileAll(FileAll(entries, a).value, b)
    decreases |a|
  {
    if a == [] {
      assert a + b == b;
    } else {
      assert (a + b)[0] == a[0] && (a + b)[1..] == a[1..] + b;
      var next := File(entries, a[0]);
      if next.Some? {
        FileAllAppend(next.value, a[1..], b);
      }
    }
  }
}
