/**
 * Cumulative CIS statements (packages/core/src/cis-deductions.ts, rational.ts): what a book of
 * verifications, payments and statements reconciles to. Dates are day numbers. The result of the
 * VAT and retention reconciliation is an input.
 */
module Cis {
  import opened Prelude

  // ----- data -----

  datatype Status = GrossPayment | Registered | Unregistered
  datatype Code = InvalidInput | ContextMismatch | MissingSource | StaleVerification | InvalidLineage | ReplayConflict | ValueLimit

  datatype Verification = Verification(id: string, tenant: string, job: string, contractor: string, subcontractor: string,
                                       status: Status, validFrom: int, validThrough: int)
  datatype Payment = Payment(id: string, tenant: string, job: string, reference: string, date: int, cash: int,
                             reversalOf: Option<string>)
  datatype Kind = Regular | Correction
  datatype Statement = Statement(id: string, tenant: string, job: string, previousId: Option<string>, kind: Kind,
                                 correctionOf: Option<string>, documentReference: string, documentDate: int, taxMonthEnd: int,
                                 verificationId: string, vatDocumentId: string, retentionProfileId: string,
                                 net: int, materials: int, vat: int, paymentIds: seq<string>)
  datatype VatDocument = VatDocument(id: string, documentDate: int, retentionProfileId: string,
                                     net: int, retained: int, vatToSupplier: int, expectedCash: int)
  datatype Book = Book(tenant: string, job: string, contractor: string, subcontractor: string,
                       vatTenant: string, vatJob: string, vatSupplier: string, vatCustomer: string,
                       retentionTenant: string, retentionJob: string, retentionProfiles: set<string>,
                       verifications: seq<Verification>, payments: seq<Payment>, statements: seq<Statement>)

  datatype Delta = Delta(deduction: int, expectedCash: int)
  datatype Row = Row(source: Statement, verification: Verification, vatSource: VatDocument,
                     base: int, deduction: int, expected: int, cash: int, unpaid: int, refundDue: int,
                     invoiceExpected: int, invoiceUnpaid: int, invoiceRefundDue: int,
                     unallocatedVat: int, unallocatedNet: int, delta: Delta)

  /** What the payments taken so far come to. */
  datatype Tally = Tally(used: set<string>, reversed: map<string, int>, cash: int)
  datatype Progress = Progress(previous: Option<Statement>, previousVatIndex: int, references: set<string>,
                               base: int, deduction: int, expected: int, tally: Tally, rows: seq<Row>)

  const START := Progress(None, -1, {}, 0, 0, 0, Tally({}, map[], 0), [])

  // ----- amounts -----

  predicate InLimit(v: int) {
    -MAX_MONEY_PENCE <= v <= MAX_MONEY_PENCE
  }

  predicate PenceOk(v: int) {
    0 <= v <= MAX_MONEY_PENCE
  }

  function Rate(s: Status): int {
    match s case GrossPayment => 0 case Registered => 20 case Unregistered => 30
  }

  /** Division rounding halves away from zero. */
  function DivideHalfUp(numerator: int, denominator: int): int
    requires denominator > 0
  {
    var absolute := if numerator < 0 then -numerator else numerator;
    var quotient, remainder := absolute / denominator, absolute % denominator;
    var rounded := if remainder * 2 >= denominator then quotient + 1 else quotient;
    if numerator < 0 then -rounded else rounded
  }

  function Deduction(base: int, s: Status): int {
    DivideHalfUp(base * Rate(s), 100)
  }

  predicate BookOk(b: Book) {
    && 1 <= |b.verifications| <= 1000 && |b.payments| <= 1000 && 1 <= |b.statements| <= 1000
    && (forall p :: p in b.payments ==> PenceOk(p.cash))
    && (forall s :: s in b.statements ==> StatementOk(s))
  }

  predicate StatementOk(s: Statement) {
    PenceOk(s.net) && PenceOk(s.materials) && PenceOk(s.vat) && |s.paymentIds| <= 1000
  }

  // ----- sources -----

  datatype Identity = Identity(tenant: string, job: string, id: string)

  function Identities(b: Book): seq<Identity> {
    Map(b.verifications, (v: Verification) => Identity(v.tenant, v.job, v.id))
    + Map(b.payments, (p: Payment) => Identity(p.tenant, p.job, p.id))
    + Map(b.statements, (s: Statement) => Identity(s.tenant, s.job, s.id))
  }

  /** The first record that is out of context or repeats an id decides the refusal. */
  function IdentityRefusal(tenant: string, job: string, records: seq<Identity>, seen: set<string>): Option<Code>
    decreases |records|
  {
    if records == [] then None
    else if records[0].tenant != tenant || records[0].job != job then Some(ContextMismatch)
    else if records[0].id in seen then Some(ReplayConflict)
    else IdentityRefusal(tenant, job, records[1..], seen + {records[0].id})
  }

  function PartiesRefusal(b: Book, verifications: seq<Verification>): Option<Code>
    decreases |verifications|
  {
    if verifications == [] then None
    else if verifications[0].contractor != b.contractor || verifications[0].subcontractor != b.subcontractor then Some(ContextMismatch)
    else if verifications[0].validFrom > verifications[0].validThrough then Some(StaleVerification)
    else PartiesRefusal(b, verifications[1..])
  }

  predicate Conflict(v: Verification, w: Verification) {
    w.status != v.status && w.validFrom <= v.validThrough && v.validFrom <= w.validThrough
  }

  function SourcesRefusal(b: Book): Option<Code> {
    var identity := IdentityRefusal(b.tenant, b.job, Identities(b), {});
    if identity.Some? then identity
    else if b.vatTenant != b.tenant || b.vatJob != b.job || b.retentionTenant != b.tenant || b.retentionJob != b.job then Some(ContextMismatch)
    else if b.vatSupplier != b.subcontractor || b.vatCustomer != b.contractor then Some(ContextMismatch)
    else
      var parties := PartiesRefusal(b, b.verifications);
      if parties.Some? then parties
      else if exists i, j :: 0 <= i < j < |b.verifications| && Conflict(b.verifications[i], b.verifications[j]) then Some(InvalidLineage)
      else None
  }

  // ----- payments -----

  function PaymentMap(payments: seq<Payment>): (m: map<string, Payment>)
    ensures forall k :: k in m ==> m[k].id == k && m[k] in payments
    ensures forall p :: p in payments ==> p.id in m
  {
    if payments == [] then map[]
    else PaymentMap(payments[..|payments| - 1])[payments[|payments| - 1].id := payments[|payments| - 1]]
  }

  function VerificationMap(verifications: seq<Verification>): (m: map<string, Verification>)
    ensures forall k :: k in m ==> m[k].id == k && m[k] in verifications
  {
    if verifications == [] then map[]
    else VerificationMap(verifications[..|verifications| - 1])[verifications[|verifications| - 1].id := verifications[|verifications| - 1]]
  }

  predicate ValidOn(v: Verification, date: int) {
    v.validFrom <= date <= v.validThrough
  }

  function ReversedSoFar(t: Tally, id: string): int {
    if id in t.reversed then t.reversed[id] else 0
  }

  /** Why a payment record cannot be taken next. */
  function PaymentRefusal(payments: map<string, Payment>, v: Verification, date: int, t: Tally, id: string): Option<Code> {
    if id !in payments then Some(MissingSource)
    else if id in t.used then Some(ReplayConflict)
    else
      var p := payments[id];
      if !ValidOn(v, p.date) || p.date > date then Some(StaleVerification)
      else if p.cash == 0 then Some(ValueLimit)
      else if p.reversalOf.None? then if InLimit(t.cash + p.cash) then None else Some(ValueLimit)
      else
        var o := p.reversalOf.value;
        if o !in payments || o !in t.used || payments[o].reversalOf.Some? || payments[o].date > p.date then Some(InvalidLineage)
        else if ReversedSoFar(t, o) + p.cash > payments[o].cash then Some(ValueLimit)
        else if InLimit(t.cash - p.cash) then None else Some(ValueLimit)
  }

  function Taken(t: Tally, p: Payment): Tally {
    if p.reversalOf.None? then Tally(t.used + {p.id}, t.reversed, t.cash + p.cash)
    else
      var o := p.reversalOf.value;
      Tally(t.used + {p.id}, t.reversed[o := ReversedSoFar(t, o) + p.cash], t.cash - p.cash)
  }

  function TakePayments(payments: map<string, Payment>, v: Verification, date: int, t: Tally, ids: seq<string>): Result<Tally, Code>
    decreases |ids|
  {
    if ids == [] then Ok(t)
    else
      var before := TakePayments(payments, v, date, t, ids[..|ids| - 1]);
      if before.Err? then before
      else
        var id := ids[|ids| - 1];
        var refusal := PaymentRefusal(payments, v, date, before.value, id);
        if refusal.Some? then Err(refusal.value) else assert id in payments; Ok(Taken(before.value, payments[id]))
  }

  // ----- statements -----

  function VatIndex(documents: seq<VatDocument>, id: string): (i: nat)
    ensures i <= |documents| && (i < |documents| ==> documents[i].id == id)
    ensures forall j :: 0 <= j < i ==> documents[j].id != id
  {
    if documents == [] || documents[0].id == id then 0 else 1 + VatIndex(documents[1..], id)
  }

  function HistoryRefusal(g: Progress, s: Statement): Option<Code> {
    if s.previousId != (if g.previous.Some? then Some(g.previous.value.id) else None) || s.documentReference in g.references
      || (g.previous.Some? && s.documentDate < g.previous.value.documentDate) then Some(InvalidLineage)
    else if (if s.kind == Correction then g.previous.None? || s.correctionOf != Some(g.previous.value.id) else s.correctionOf.Some?)
    then Some(InvalidLineage)
    else if g.previous.Some? && s.verificationId != g.previous.value.verificationId then Some(InvalidLineage)
    else None
  }

  function SourceRefusal(b: Book, verifications: map<string, Verification>, documents: seq<VatDocument>, g: Progress, s: Statement): Option<Code> {
    if s.verificationId !in verifications then Some(MissingSource)
    else if !ValidOn(verifications[s.verificationId], s.documentDate) then Some(StaleVerification)
    else if s.taxMonthEnd < s.documentDate then Some(InvalidInput)
    else
      var i := VatIndex(documents, s.vatDocumentId);
      if i == |documents| || s.retentionProfileId !in b.retentionProfiles || documents[i].retentionProfileId != s.retentionProfileId
        || i < g.previousVatIndex || documents[i].documentDate > s.documentDate
        || (exists j :: i < j < |documents| && documents[j].documentDate <= s.documentDate) then Some(MissingSource)
      else None
  }

  function AmountRefusal(document: VatDocument, g: Progress, s: Statement): Option<Code> {
    if s.materials > s.net || s.net > document.net - document.retained || s.vat > document.vatToSupplier then Some(ValueLimit)
    else if g.previous.Some? && s.kind != Correction
      && (s.net < g.previous.value.net || s.materials < g.previous.value.materials || s.vat < g.previous.value.vat
          || s.net - s.materials < g.base) then Some(InvalidLineage)
    else None
  }

  function Excess(a: int, b: int): int {
    if a > b then a - b else 0
  }

  function RowOf(g: Progress, s: Statement, v: Verification, document: VatDocument, cash: int): Row {
    var base := s.net - s.materials;
    var deduction := Deduction(base, v.status);
    var expected := s.net + s.vat - deduction;
    var invoiceExpected := document.expectedCash - deduction;
    Row(s, v, document, base, deduction, expected, cash, Excess(expected, cash), Excess(cash, expected),
        invoiceExpected, Excess(invoiceExpected, cash), Excess(cash, invoiceExpected),
        document.vatToSupplier - s.vat, document.net - document.retained - s.net,
        Delta(deduction - g.deduction, expected - g.expected))
  }

  predicate RowInLimit(r: Row) {
    && InLimit(r.delta.deduction) && InLimit(r.delta.expectedCash)
    && InLimit(r.source.net) && InLimit(r.source.materials) && InLimit(r.source.vat)
    && InLimit(r.base) && InLimit(r.deduction) && InLimit(r.expected) && InLimit(r.cash)
    && InLimit(r.unpaid) && InLimit(r.refundDue) && InLimit(r.invoiceExpected) && InLimit(r.invoiceUnpaid) && InLimit(r.invoiceRefundDue)
    && InLimit(r.unallocatedVat) && InLimit(r.unallocatedNet)
  }

  /** Everything about a statement that is checked before its payments. */
  function StatementRefusal(b: Book, verifications: map<string, Verification>, documents: seq<VatDocument>, g: Progress, s: Statement): Option<Code> {
    var history := HistoryRefusal(g, s);
    var source := SourceRefusal(b, verifications, documents, g, s);
    if history.Some? then history
    else if source.Some? then source
    else AmountRefusal(documents[VatIndex(documents, s.vatDocumentId)], g, s)
  }

  function Advanced(g: Progress, s: Statement, vatIndex: int, t: Tally, r: Row): Progress {
    Progress(Some(s), vatIndex, g.references + {s.documentReference}, r.base, r.deduction, r.expected, t, g.rows + [r])
  }

  function TakeStatement(b: Book, verifications: map<string, Verification>, payments: map<string, Payment>, documents: seq<VatDocument>,
                         g: Progress, s: Statement): Result<Progress, Code> {
    var refusal := StatementRefusal(b, verifications, documents, g, s);
    if refusal.Some? then Err(refusal.value)
    else
      var v := verifications[s.verificationId];
      var i := VatIndex(documents, s.vatDocumentId);
      var t := TakePayments(payments, v, s.documentDate, g.tally, s.paymentIds);
      if t.Err? then Err(t.error)
      else
        var r := RowOf(g, s, v, documents[i], t.value.cash);
        if RowInLimit(r) then Ok(Advanced(g, s, i, t.value, r)) else Err(ValueLimit)
  }

  function TakeStatements(b: Book, verifications: map<string, Verification>, payments: map<string, Payment>, documents: seq<VatDocument>,
                          statements: seq<Statement>): Result<Progress, Code>
    decreases |statements|
  {
    if statements == [] then Ok(START)
    else
      var before := TakeStatements(b, verifications, payments, documents, statements[..|statements| - 1]);
      if before.Err? then before
      else TakeStatement(b, verifications, payments, documents, before.value, statements[|statements| - 1])
  }

  predicate ReferencesDiffer(payments: seq<Payment>) {
    forall i, j :: 0 <= i < j < |payments| ==> payments[i].reference != payments[j].reference
  }

  /** The reconciliation of a book, given the outcome of its VAT and retention reconciliation. */
  function Reconcile(b: Book, vat: Result<seq<VatDocument>, Code>): Result<seq<Row>, Code> {
    if !BookOk(b) then Err(InvalidInput)
    else
      var refusal := SourcesRefusal(b);
      if refusal.Some? then Err(refusal.value)
      else if vat.Err? then Err(vat.error)
      else if !ReferencesDiffer(b.payments) then Err(ReplayConflict)
      else
        var payments := PaymentMap(b.payments);
        var last := TakeStatements(b, VerificationMap(b.verifications), payments, vat.value, b.statements);
        if last.Err? then Err(last.error)
        else if |last.value.tally.used| != |payments| then Err(MissingSource)
        else Ok(last.value.rows)
  }

  // ----- the reconciliation, step by step -----

  method CheckIdentities(b: Book) returns (refusal: Option<Code>)
    ensures refusal == IdentityRefusal(b.tenant, b.job, Identities(b), {})
  {
    var records := Identities(b);
    var ids: set<string> := {};
    for i := 0 to |records|
      invariant IdentityRefusal(b.tenant, b.job, records, {}) == IdentityRefusal(b.tenant, b.job, records[i..], ids)
    {
      assert records[i..][1..] == records[i + 1..];
      if records[i].tenant != b.tenant || records[i].job != b.job { return Some(ContextMismatch); }
      if records[i].id in ids { return Some(ReplayConflict); }
      ids := ids + {records[i].id};
    }
    return None;
  }

  method CheckSources(b: Book) returns (refusal: Option<Code>)
    ensures refusal == SourcesRefusal(b)
  {
    refusal := CheckIdentities(b);
    if refusal.Some? { return; }
    if b.vatTenant != b.tenant || b.vatJob != b.job || b.retentionTenant != b.tenant || b.retentionJob != b.job { return Some(ContextMismatch); }
    if b.vatSupplier != b.subcontractor || b.vatCustomer != b.contractor { return Some(ContextMismatch); }
    for i := 0 to |b.verifications|
      invariant PartiesRefusal(b, b.verifications) == PartiesRefusal(b, b.verifications[i..])
    {
      var v := b.verifications[i];
      assert b.verifications[i..][1..] == b.verifications[i + 1..];
      if v.contractor != b.contractor || v.subcontractor != b.subcontractor { return Some(ContextMismatch); }
      if v.validFrom > v.validThrough { return Some(StaleVerification); }
    }
    for i := 0 to |b.verifications|
      invariant forall m, n :: 0 <= m < i && m < n < |b.verifications| ==> !Conflict(b.verifications[m], b.verifications[n])
    {
      for j := i + 1 to |b.verifications|
        invariant forall n :: i < n < j ==> !Conflict(b.verifications[i], b.verifications[n])
      {
        if Conflict(b.verifications[i], b.verifications[j]) { return Some(InvalidLineage); }
      }
    }
    return None;
  }

  method CheckReferences(items: seq<Payment>) returns (differ: bool)
    ensures differ == ReferencesDiffer(items)
  {
    var references: set<string> := {};
    for i := 0 to |items|
      invariant forall m, n :: 0 <= m < n < i ==> items[m].reference != items[n].reference
      invariant forall x :: x in references <==> exists m :: 0 <= m < i && items[m].reference == x
    {
      if items[i].reference in references { return false; }
      references := references + {items[i].reference};
    }
    return true;
  }

  method IndexPayments(items: seq<Payment>) returns (payments: map<string, Payment>)
    ensures payments == PaymentMap(items)
  {
    payments := map[];
    for i := 0 to |items|
      invariant payments == PaymentMap(items[..i])
    {
      assert items[..i + 1][..i] == items[..i];
      payments := payments[items[i].id := items[i]];
    }
    assert items[..|items|] == items;
  }

  method IndexVerifications(items: seq<Verification>) returns (verifications: map<string, Verification>)
    ensures verifications == VerificationMap(items)
  {
    verifications := map[];
    for i := 0 to |items|
      invariant verifications == VerificationMap(items[..i])
    {
      assert items[..i + 1][..i] == items[..i];
      verifications := verifications[items[i].id := items[i]];
    }
    assert items[..|items|] == items;
  }

  method FindVat(documents: seq<VatDocument>, id: string) returns (i: nat)
    ensures i == VatIndex(documents, id)
  {
    i := 0;
    while i < |documents| && documents[i].id != id
      invariant i <= |documents| && forall j :: 0 <= j < i ==> documents[j].id != id
    {
      i := i + 1;
    }
  }

  method Pay(payments: map<string, Payment>, v: Verification, date: int, tally: Tally, ids: seq<string>) returns (r: Result<Tally, Code>)
    ensures r == TakePayments(payments, v, date, tally, ids)
  {
    var used, reversed, cash := tally.used, tally.reversed, tally.cash;
    for i := 0 to |ids|
      invariant TakePayments(payments, v, date, tally, ids[..i]) == Ok(Tally(used, reversed, cash))
    {
      var id := ids[i];
      assert ids[..i + 1][..i] == ids[..i];
      ghost var t := Tally(used, reversed, cash);
      FailsLater(payments, v, date, tally, ids, i + 1);
      if id !in payments { return Err(MissingSource); }
      var item := payments[id];
      if id in used { return Err(ReplayConflict); }
      if !ValidOn(v, item.date) || item.date > date { return Err(StaleVerification); }
      if item.cash == 0 { return Err(ValueLimit); }
      if item.reversalOf.Some? {
        var o := item.reversalOf.value;
        if o !in payments || o !in used || payments[o].reversalOf.Some? || payments[o].date > item.date { return Err(InvalidLineage); }
        var total := (if o in reversed then reversed[o] else 0) + item.cash;
        if total > payments[o].cash { return Err(ValueLimit); }
        reversed := reversed[o := total];
        cash := cash - item.cash;
      } else {
        cash := cash + item.cash;
      }
      if !InLimit(cash) { return Err(ValueLimit); }
      used := used + {item.id};
      assert PaymentRefusal(payments, v, date, t, id).None? && Taken(t, item) == Tally(used, reversed, cash);
    }
    assert ids[..|ids|] == ids;
    return Ok(Tally(used, reversed, cash));
  }

  /** A refusal among the first payments refuses them all. */
  lemma {:induction false} FailsLater(payments: map<string, Payment>, v: Verification, date: int, t: Tally, ids: seq<string>, n: nat)
    requires n <= |ids|
    ensures TakePayments(payments, v, date, t, ids[..n]).Err? ==>
              TakePayments(payments, v, date, t, ids) == TakePayments(payments, v, date, t, ids[..n])
    decreases |ids| - n
  {
    if n == |ids| {
      assert ids[..n] == ids;
    } else {
      assert ids[..n + 1][..n] == ids[..n];
      FailsLater(payments, v, date, t, ids, n + 1);
    }
  }

  lemma {:induction false} StatementFailsLater(b: Book, verifications: map<string, Verification>, payments: map<string, Payment>,
                                               documents: seq<VatDocument>, statements: seq<Statement>, n: nat)
    requires n <= |statements|
    ensures TakeStatements(b, verifications, payments, documents, statements[..n]).Err? ==>
              TakeStatements(b, verifications, payments, documents, statements)
              == TakeStatements(b, verifications, payments, documents, statements[..n])
    decreases |statements| - n
  {
    if n == |statements| {
      assert statements[..n] == statements;
    } else {
      assert statements[..n + 1][..n] == statements[..n];
      StatementFailsLater(b, verifications, payments, documents, statements, n + 1);
    }
  }

  method Check(b: Book, verifications: map<string, Verification>, documents: seq<VatDocument>, g: Progress, s: Statement)
    returns (refusal: Option<Code>)
    ensures refusal == StatementRefusal(b, verifications, documents, g, s)
  {
    var previousId := if g.previous.Some? then Some(g.previous.value.id) else None;
    if s.previousId != previousId || s.documentReference in g.references
      || (g.previous.Some? && s.documentDate < g.previous.value.documentDate) { return Some(InvalidLineage); }
    if s.kind == Correction {
      if g.previous.None? || s.correctionOf != Some(g.previous.value.id) { return Some(InvalidLineage); }
    } else if s.correctionOf.Some? { return Some(InvalidLineage); }
    if g.previous.Some? && s.verificationId != g.previous.value.verificationId { return Some(InvalidLineage); }
    if s.verificationId !in verifications { return Some(MissingSource); }
    if !ValidOn(verifications[s.verificationId], s.documentDate) { return Some(StaleVerification); }
    if s.taxMonthEnd < s.documentDate { return Some(InvalidInput); }
    var i := FindVat(documents, s.vatDocumentId);
    if i == |documents| || s.retentionProfileId !in b.retentionProfiles || documents[i].retentionProfileId != s.retentionProfileId
      || i < g.previousVatIndex || documents[i].documentDate > s.documentDate { return Some(MissingSource); }
    for j := i + 1 to |documents|
      invariant forall k :: i < k < j ==> documents[k].documentDate > s.documentDate
    {
      if documents[j].documentDate <= s.documentDate { return Some(MissingSource); }
    }
    var document := documents[i];
    if s.materials > s.net || s.net > document.net - document.retained || s.vat > document.vatToSupplier { return Some(ValueLimit); }
    if g.previous.Some? && s.kind != Correction {
      var before := g.previous.value;
      if s.net < before.net || s.materials < before.materials || s.vat < before.vat || s.net - s.materials < g.base { return Some(InvalidLineage); }
    }
    return None;
  }

  /** Takes the statements in order, carrying the running totals in local variables. */
  method TakeAll(b: Book, verifications: map<string, Verification>, payments: map<string, Payment>, documents: seq<VatDocument>)
    returns (r: Result<(seq<Row>, set<string>), Code>)
    ensures var last := TakeStatements(b, verifications, payments, documents, b.statements);
            r == if last.Err? then Err(last.error) else Ok((last.value.rows, last.value.tally.used))
  {
    var previous, previousVatIndex, references := None, -1, {};
    var priorBase, priorDeduction, priorExpected, tally := 0, 0, 0, Tally({}, map[], 0);
    var rows: seq<Row> := [];
    for n := 0 to |b.statements|
      invariant TakeStatements(b, verifications, payments, documents, b.statements[..n])
             == Ok(Progress(previous, previousVatIndex, references, priorBase, priorDeduction, priorExpected, tally, rows))
    {
      var current := b.statements[n];
      assert b.statements[..n + 1][..n] == b.statements[..n];
      StatementFailsLater(b, verifications, payments, documents, b.statements, n + 1);
      ghost var g := Progress(previous, previousVatIndex, references, priorBase, priorDeduction, priorExpected, tally, rows);
      assert TakeStatements(b, verifications, payments, documents, b.statements[..n + 1])
          == TakeStatement(b, verifications, payments, documents, g, current);
      var one := TakeOne(b, verifications, payments, documents,
                         Progress(previous, previousVatIndex, references, priorBase, priorDeduction, priorExpected, tally, rows), current);
      if one.Err? { return Err(one.error); }
      var (vatIndex, after, row) := one.value;
      previous, previousVatIndex, references := Some(current), vatIndex, references + {current.documentReference};
      priorBase, priorDeduction, priorExpected, tally := row.base, row.deduction, row.expected, after;
      rows := rows + [row];
    }
    assert b.statements[..|b.statements|] == b.statements;
    return Ok((rows, tally.used));
  }

  /** One statement against the progress so far: its VAT document, the tally after its payments, and its row. */
  method TakeOne(b: Book, verifications: map<string, Verification>, payments: map<string, Payment>, documents: seq<VatDocument>,
                 g: Progress, current: Statement) returns (r: Result<(int, Tally, Row), Code>)
    ensures TakeStatement(b, verifications, payments, documents, g, current) ==
            if r.Err? then Err(r.error) else Ok(Advanced(g, current, r.value.0, r.value.1, r.value.2))
  {
    var refusal := Check(b, verifications, documents, g, current);
    if refusal.Some? { return Err(refusal.value); }
    var verification := verifications[current.verificationId];
    var i := FindVat(documents, current.vatDocumentId);
    var paid := Pay(payments, verification, current.documentDate, g.tally, current.paymentIds);
    if paid.Err? { return Err(paid.error); }
    var row := RowOf(g, current, verification, documents[i], paid.value.cash);
    if !RowInLimit(row) { return Err(ValueLimit); }
    return Ok((i, paid.value, row));
  }

  method ReconcileCisFixtures(b: Book, vat: Result<seq<VatDocument>, Code>) returns (r: Result<seq<Row>, Code>)
    ensures r == Reconcile(b, vat)
  {
    if !BookOk(b) { return Err(InvalidInput); }
    var refusal := CheckSources(b);
    if refusal.Some? { return Err(refusal.value); }
    if vat.Err? { return Err(vat.error); }
    var verifications := IndexVerifications(b.verifications);
    var payments := IndexPayments(b.payments);
    var differ := CheckReferences(b.payments);
    if !differ { return Err(ReplayConflict); }
    var taken := TakeAll(b, verifications, payments, vat.value);
    if taken.Err? { return Err(taken.error); }
    var (rows, used) := taken.value;
    if |used| != |payments| { return Err(MissingSource); }
    return Ok(rows);
  }

  // ----- appending a statement -----

  function StatementIndex(statements: seq<Statement>, id: string): (i: nat)
    ensures i <= |statements| && (i < |statements| ==> statements[i].id == id)
    ensures forall j :: 0 <= j < i ==> statements[j].id != id
  {
    if statements == [] || statements[0].id == id then 0 else 1 + StatementIndex(statements[1..], id)
  }

  function Append(b: Book, vat: Result<seq<VatDocument>, Code>, s: Statement): Result<Book, Code> {
    var rows := Reconcile(b, vat);
    if rows.Err? then Err(rows.error)
    else if !StatementOk(s) then Err(InvalidInput)
    else
      var i := StatementIndex(b.statements, s.id);
      if i < |b.statements| then if b.statements[i] == s then Ok(b) else Err(ReplayConflict)
      else
        var next := b.(statements := b.statements + [s]);
        var after := Reconcile(next, vat);
        if after.Err? then Err(after.error) else Ok(next)
  }

  method FindStatement(statements: seq<Statement>, id: string) returns (i: nat)
    ensures i == StatementIndex(statements, id)
  {
    i := 0;
    while i < |statements| && statements[i].id != id
      invariant i <= |statements| && forall j :: 0 <= j < i ==> statements[j].id != id
    {
      i := i + 1;
    }
  }

  method AppendCisFixtureStatement(b: Book, vat: Result<seq<VatDocument>, Code>, s: Statement) returns (r: Result<Book, Code>)
    ensures r == Append(b, vat, s)
  {
    var rows := ReconcileCisFixtures(b, vat);
    if rows.Err? { return Err(rows.error); }
    if !StatementOk(s) { return Err(InvalidInput); }
    var i := FindStatement(b.statements, s.id);
    if i < |b.statements| {
      return if b.statements[i] == s then Ok(b) else Err(ReplayConflict);
    }
    var next := b.(statements := b.statements + [s]);
    var after := ReconcileCisFixtures(next, vat);
    return if after.Err? then Err(after.error) else Ok(next);
  }
}
