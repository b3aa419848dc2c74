/** What a rendered batch says under each of its column headings. */
module BillingColumns {
  import opened Prelude
  import opened Billing
  import opened BillingCsv
  import opened Decimals
  import BillingRoundTrip
  import Csv

  /** Under the heading, at that place, the row holds the text. */
  predicate Holds(row: seq<string>, k: nat, heading: string, text: string) {
    |row| == 32 == |STATUS_HEADERS| && k < 32 && STATUS_HEADERS[k] == heading && row[k] == text
  }

  predicate HoldsAny(row: seq<string>, k: nat, heading: string, text: Option<string>) {
    Holds(row, k, heading, if text.Some? then text.value else "")
  }

  /** The row holds a text that reads as the number. */
  predicate HoldsNumber(row: seq<string>, k: nat, heading: string, n: int) {
    |row| == 32 == |STATUS_HEADERS| && k < 32 && STATUS_HEADERS[k] == heading && (n >= 0 ==> ParseNat(row[k]) == Some(n))
  }

  predicate HoldsNumberIf(present: bool, row: seq<string>, k: nat, heading: string, n: int) {
    if present then HoldsNumber(row, k, heading, n) else Holds(row, k, heading, "")
  }

  lemma NumberTextRead(n: int)
    ensures n >= 0 ==> ParseNat(NumberText(n)) == Some(n)
  {
    if n >= 0 {
      DecimalRoundTrip(n);
    }
  }

  // ----- the fact -----

  predicate IdentityTold(e: Status, row: seq<string>) {
    && Holds(row, 0, "version", VERSION) && Holds(row, 1, "source", e.source) && Holds(row, 2, "source_event_id", e.eventId)
    && Holds(row, 3, "client_contract_id", e.contract) && Holds(row, 4, "invoice_number", e.invoiceNumber)
  }

  lemma IdentityColumns(e: Status, row: seq<string>)
    requires |row| == 32 && row[..5] == [VERSION, e.source, e.eventId, e.contract, e.invoiceNumber]
    ensures IdentityTold(e, row)
  {
    assert row[0] == row[..5][0] && row[1] == row[..5][1] && row[2] == row[..5][2] && row[3] == row[..5][3] && row[4] == row[..5][4];
  }

  predicate NatureTold(e: Status, row: seq<string>) {
    && Holds(row, 5, "fact_type", FactName(e.factType)) && Holds(row, 6, "effective_at", e.effectiveAt)
    && HoldsAny(row, 7, "remittance_reference", e.remittance) && HoldsAny(row, 8, "reconciliation_id", e.reconciliation)
    && HoldsAny(row, 9, "original_event_id", e.original)
  }

  lemma NatureColumns(e: Status, row: seq<string>)
    requires |row| == 32
    requires row[5..10] == [FactName(e.factType), e.effectiveAt, OrEmpty(e.remittance), OrEmpty(e.reconciliation), OrEmpty(e.original)]
    ensures NatureTold(e, row)
  {
    var c := row[5..10];
    assert row[5] == c[0] && row[6] == c[1] && row[7] == c[2] && row[8] == c[3] && row[9] == c[4];
  }

  predicate AmountTold(e: Status, row: seq<string>) {
    && HoldsNumber(row, 10, "net_pence", e.amount.net) && HoldsNumber(row, 11, "vat_pence", e.amount.vat)
    && HoldsNumber(row, 12, "gross_pence", e.amount.gross)
  }

  lemma AmountColumns(e: Status, row: seq<string>)
    requires |row| == 32 && row[10..13] == AmountCells(Some(e.amount))
    ensures AmountTold(e, row)
  {
    var c := row[10..13];
    assert row[10] == c[0] && row[11] == c[1] && row[12] == c[2];
    NumberTextRead(e.amount.net);
    NumberTextRead(e.amount.vat);
    NumberTextRead(e.amount.gross);
  }

  predicate DeclaredTold(c: Option<Composition>, row: seq<string>) {
    var declared := if c.Some? then c.value.declared else Amounts(0, 0, 0);
    && HoldsNumberIf(c.Some?, row, 13, "declared_net_pence", declared.net)
    && HoldsNumberIf(c.Some?, row, 14, "declared_vat_pence", declared.vat)
    && HoldsNumberIf(c.Some?, row, 15, "declared_gross_pence", declared.gross)
  }

  lemma DeclaredColumns(c: Option<Composition>, row: seq<string>)
    requires |row| == 32 && row[13..16] == AmountCells(if c.Some? then Some(c.value.declared) else None)
    ensures DeclaredTold(c, row)
  {
    var cells := row[13..16];
    assert row[13] == cells[0] && row[14] == cells[1] && row[15] == cells[2];
    if c.Some? {
      NumberTextRead(c.value.declared.net);
      NumberTextRead(c.value.declared.vat);
      NumberTextRead(c.value.declared.gross);
    }
  }

  predicate TermsTold(json: Json, e: Status, row: seq<string>) {
    && Holds(row, 16, "explicit", json.writeShares(e.explicit)) && Holds(row, 17, "separate_invoice", if e.separate then "true" else "false")
    && Holds(row, 18, "line_adjustments", json.writeAdjustments(e.adjustments)) && Holds(row, 31, "sandbox_label", SANDBOX_LABEL)
  }

  lemma TermsColumns(json: Json, e: Status, row: seq<string>)
    requires |row| == 32 && row[16] == json.writeShares(e.explicit) && row[17] == (if e.separate then "true" else "false")
    requires row[18] == json.writeAdjustments(e.adjustments) && row[31] == SANDBOX_LABEL
    ensures TermsTold(json, e, row)
  {
  }

  // ----- the line -----

  predicate LineTold(l: InvoiceLine, row: seq<string>) {
    && Holds(row, 19, "external_invoice_line_id", l.id) && Holds(row, 20, "line_kind", KindName(l.kind))
    && Holds(row, 21, "line_existed_at", l.existedAt)
  }

  lemma LineColumns(l: InvoiceLine, row: seq<string>)
    requires |row| == 32 && row[19..22] == [l.id, KindName(l.kind), l.existedAt]
    ensures LineTold(l, row)
  {
    var c := row[19..22];
    assert row[19] == c[0] && row[20] == c[1] && row[21] == c[2];
  }

  predicate LineAmountTold(l: InvoiceLine, row: seq<string>) {
    && HoldsNumber(row, 22, "line_net_pence", l.amounts.net) && HoldsNumber(row, 23, "line_vat_pence", l.amounts.vat)
    && HoldsNumber(row, 24, "line_gross_pence", l.amounts.gross)
  }

  lemma LineAmountColumns(l: InvoiceLine, row: seq<string>)
    requires |row| == 32 && row[22..25] == AmountCells(Some(l.amounts))
    ensures LineAmountTold(l, row)
  {
    var c := row[22..25];
    assert row[22] == c[0] && row[23] == c[1] && row[24] == c[2];
    NumberTextRead(l.amounts.net);
    NumberTextRead(l.amounts.vat);
    NumberTextRead(l.amounts.gross);
  }

  predicate MatchTold(m: ExportMatch, row: seq<string>) {
    && Holds(row, 25, "export_line_id", m.exportLineId) && Holds(row, 26, "job_id", m.jobId) && Holds(row, 27, "extra_id", m.extraId)
    && Holds(row, 28, "scope_item_id", m.scopeItemId) && Holds(row, 29, "revision_id", m.revisionId)
    && Holds(row, 30, "revision_hash", m.revisionHash)
  }

  lemma MatchColumns(m: ExportMatch, row: seq<string>)
    requires |row| == 32 && row[25..31] == [m.exportLineId, m.jobId, m.extraId, m.scopeItemId, m.revisionId, m.revisionHash]
    ensures MatchTold(m, row)
  {
    var c := row[25..31];
    assert row[25] == c[0] && row[26] == c[1] && row[27] == c[2] && row[28] == c[3] && row[29] == c[4] && row[30] == c[5];
  }

  /** The columns from the first of a line to the last are empty. */
  predicate NoLineTold(first: nat, row: seq<string>) {
    |row| == 32 && forall k :: first <= k < 31 ==> row[k] == ""
  }

  // ----- the row -----

  predicate FactTold(json: Json, e: Status, row: seq<string>) {
    IdentityTold(e, row) && NatureTold(e, row) && AmountTold(e, row) && DeclaredTold(e.composition, row) && TermsTold(json, e, row)
  }

  predicate LineOrNone(l: Option<InvoiceLine>, row: seq<string>) {
    if l.None? then NoLineTold(19, row)
    else
      && LineTold(l.value, row) && LineAmountTold(l.value, row)
      && if l.value.export_.Some? then MatchTold(l.value.export_.value, row) else NoLineTold(25, row)
  }

  lemma RowPieces(json: Json, e: Status, l: Option<InvoiceLine>)
    ensures var row := Row(json, e, l);
            && |row| == 32 && row[..19] == FactCells(json, e) && row[19..31] == LineCells(l) && row[31] == SANDBOX_LABEL
  {
    var head, line := FactCells(json, e), LineCells(l);
    assert |head| == 19 && |line| == 12;
    assert Row(json, e, l) == head + (line + [SANDBOX_LABEL]);
  }

  lemma FactPieces(json: Json, e: Status, row: seq<string>)
    requires |row| == 32 && row[..19] == FactCells(json, e) && row[31] == SANDBOX_LABEL
    ensures row[..5] == [VERSION, e.source, e.eventId, e.contract, e.invoiceNumber]
    ensures row[5..10] == [FactName(e.factType), e.effectiveAt, OrEmpty(e.remittance), OrEmpty(e.reconciliation), OrEmpty(e.original)]
    ensures row[10..13] == AmountCells(Some(e.amount))
    ensures row[13..16] == AmountCells(if e.composition.Some? then Some(e.composition.value.declared) else None)
    ensures row[16] == json.writeShares(e.explicit) && row[17] == (if e.separate then "true" else "false")
    ensures row[18] == json.writeAdjustments(e.adjustments)
  {
    assert row == FactCells(json, e) + row[19..];
    BillingRoundTrip.FactCellsAt(json, e, row[19..]);
    assert row[..5] == [VERSION, e.source, e.eventId, e.contract, e.invoiceNumber];
    assert row[5..10] == [FactName(e.factType), e.effectiveAt, OrEmpty(e.remittance), OrEmpty(e.reconciliation), OrEmpty(e.original)];
  }

  lemma FactColumns(json: Json, e: Status, l: Option<InvoiceLine>, row: seq<string>)
    requires row == Row(json, e, l)
    ensures FactTold(json, e, row)
  {
    RowPieces(json, e, l);
    FactPieces(json, e, row);
    IdentityColumns(e, row);
    NatureColumns(e, row);
    AmountColumns(e, row);
    DeclaredColumns(e.composition, row);
    TermsColumns(json, e, row);
  }

  lemma Sliced(row: seq<string>, a: nat, b: nat, i: nat, j: nat)
    requires a <= b <= |row| && i <= j <= b - a
    ensures row[a..b][i..j] == row[a + i..a + j]
  {
    var x, y := row[a..b][i..j], row[a + i..a + j];
    assert forall k :: 0 <= k < j - i ==> x[k] == row[a..b][i + k] == row[a + i + k] == y[k];
  }

  lemma LinePieces(l: InvoiceLine, row: seq<string>)
    requires |row| == 32 && row[19..31] == LineCells(Some(l))
    ensures row[19..22] == [l.id, KindName(l.kind), l.existedAt] && row[22..25] == AmountCells(Some(l.amounts))
    ensures row[25..31] == MatchCells(l.export_)
  {
    var line := LineCells(Some(l));
    assert line[0..3] == [l.id, KindName(l.kind), l.existedAt] && line[3..6] == AmountCells(Some(l.amounts)) && line[6..12] == MatchCells(l.export_);
    Sliced(row, 19, 31, 0, 3);
    Sliced(row, 19, 31, 3, 6);
    Sliced(row, 19, 31, 6, 12);
  }

  lemma NoLinePieces(first: nat, cells: seq<string>, row: seq<string>)
    requires |row| == 32 && first <= 31 && row[first..31] == cells && forall s :: s in cells ==> s == ""
    ensures NoLineTold(first, row)
  {
    forall k | first <= k < 31
      ensures row[k] == ""
    {
      assert row[k] == cells[k - first] && cells[k - first] in cells;
    }
  }

  lemma LineColumnsTold(json: Json, e: Status, l: Option<InvoiceLine>, row: seq<string>)
    requires row == Row(json, e, l)
    ensures LineOrNone(l, row)
  {
    RowPieces(json, e, l);
    if l.None? {
      NoLinePieces(19, LineCells(l), row);
    } else {
      LinePieces(l.value, row);
      LineColumns(l.value, row);
      LineAmountColumns(l.value, row);
      if l.value.export_.Some? {
        MatchColumns(l.value.export_.value, row);
      } else {
        NoLinePieces(25, MatchCells(None), row);
      }
    }
  }

  // ----- the batch -----

  predicate RowTold(json: Json, e: Status, l: Option<InvoiceLine>, row: seq<string>) {
    FactTold(json, e, row) && LineOrNone(l, row)
  }

  /** The rows of a batch: for every fact in turn one row for each of its lines, or a single row when it has no composition. */
  predicate RowsTold(json: Json, events: seq<Status>, rows: seq<seq<string>>)
    decreases |events|
  {
    if events == [] then rows == []
    else
      var lines := if events[0].composition.Some? then events[0].composition.value.lines else [];
      var n := if events[0].composition.Some? then |lines| else 1;
      && n <= |rows|
      && (forall k :: 0 <= k < n ==> RowTold(json, events[0], if k < |lines| then Some(lines[k]) else None, rows[k]))
      && RowsTold(json, events[1..], rows[n..])
  }

  lemma FactRowsTold(json: Json, e: Status)
    ensures var rows, lines := RowsOf(json, e), if e.composition.Some? then e.composition.value.lines else [];
            && |rows| == (if e.composition.Some? then |lines| else 1)
            && forall k :: 0 <= k < |rows| ==> RowTold(json, e, if k < |lines| then Some(lines[k]) else None, rows[k])
  {
    var rows, lines := RowsOf(json, e), if e.composition.Some? then e.composition.value.lines else [];
    forall k | 0 <= k < |rows|
      ensures RowTold(json, e, if k < |lines| then Some(lines[k]) else None, rows[k])
    {
      var l := if k < |lines| then Some(lines[k]) else None;
      assert rows[k] == Row(json, e, l);
      FactColumns(json, e, l, rows[k]);
      LineColumnsTold(json, e, l, rows[k]);
    }
  }

  lemma {:induction false} AllRowsTold(json: Json, events: seq<Status>)
    ensures RowsTold(json, events, AllRows(json, events))
    decreases |events|
  {
    if events != [] {
      var first := RowsOf(json, events[0]);
      FactRowsTold(json, events[0]);
      AllRowsTold(json, events[1..]);
      assert AllRows(json, events)[..|first|] == first && AllRows(json, events)[|first|..] == AllRows(json, events[1..]);
    }
  }

  /** A rendered batch is the safely written table of what its facts say under each heading. */
  lemma RenderedColumns(rules: TextRules, json: Json, raws: seq<Status>) returns (rows: seq<seq<string>>, written: seq<seq<string>>)
    requires Render(rules, json, raws).Some?
    ensures RowsTold(json, MapAll(raws, Normalizer(rules)).value, rows)
    ensures Csv.SafeTable(Render(rules, json, raws).value, STATUS_HEADERS, rows, written)
  {
    var events := MapAll(raws, Normalizer(rules)).value;
    rows := AllRows(json, events);
    AllRowsTold(json, events);
    written := BillingRoundTrip.RenderedSafely(rules, json, raws);
  }

  /** The names of the kinds of facts and lines, and the marks every row carries. */
  lemma NamesTold()
    ensures FactName(Invoiced) == "invoiced" && FactName(Credited) == "credited" && FactName(Paid) == "paid"
    ensures FactName(PaymentReversed) == "payment_reversed" && FactName(Rejected) == "rejected"
    ensures KindName(OriginalOrder) == "original_order" && KindName(Extra) == "extra" && KindName(Other) == "other"
    ensures VERSION == "billing-status.v1"
  {
  }
}
