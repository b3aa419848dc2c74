/**
 * The ledger one pile of billing facts amounts to (packages/core/src/contractor-billing.ts):
 * the specification the derivation is proved against. Instants are compared through `clock`,
 * content hashes through `digest`.
 */
module BillingLedger {
  import opened Prelude
  import opened Sorting
  import opened Billing
  import opened ReceiptAllocation

  datatype BillingError = InvalidInput | Conflict | PolicyHeld | PrerequisiteRequired

  datatype BillingAllocation = BillingAllocation(lineId: string, rule: Rule, sourceRef: string,
                                                 gross: real, net: real, matched: real)

  datatype LineBalance = LineBalance(lineId: string, gross: real)

  datatype AllocationInput = AllocationInput(invoice: Status, sourceRef: string, effectiveAt: real, gross: real,
                                             outstanding: Option<seq<LineBalance>>, explicit: Option<seq<ExplicitShare>>,
                                             separate: bool, direction: Direction, original: Option<seq<BillingAllocation>>)

  // ----- allocating one receipt or reversal over an invoice -----

  function AllocationKey(): BillingAllocation -> Option<string> { (a: BillingAllocation) => Some(a.lineId) }
  function BalanceKey(): LineBalance -> Option<string> { (b: LineBalance) => Some(b.lineId) }

  predicate Represented(q: AllocationInput) {
    && 0.0 <= q.gross <= MAX_MONEY_PENCE as real
    && (q.explicit.Some? ==> ValidShares(q.explicit.value))
    && (q.direction == Receipt ==> q.outstanding.Some? && q.original.None?)
    && (q.direction == Reversal ==> q.outstanding.None? && q.original.Some?)
    && (q.outstanding.Some? ==>
          && |q.outstanding.value| <= MAX_LINES
          && forall b :: b in q.outstanding.value ==> 0.0 <= b.gross <= MAX_MONEY_PENCE as real)
    && (q.original.Some? ==>
          && |q.original.value| <= MAX_LINES
          && forall a :: a in q.original.value ==> ValidMoney(a.gross) && ValidMoney(a.net) && ValidMoney(a.matched))
  }

  function LineOf(lines: seq<InvoiceLine>, id: string): Option<InvoiceLine> {
    if lines == [] then None else if lines[0].id == id then Some(lines[0]) else LineOf(lines[1..], id)
  }

  function PartFor(parts: seq<BillingAllocation>, id: string): Option<BillingAllocation> {
    if parts == [] then None else if parts[0].lineId == id then Some(parts[0]) else PartFor(parts[1..], id)
  }

  function BalanceFor(balances: seq<LineBalance>, id: string): real {
    if balances == [] then 0.0 else if balances[0].lineId == id then balances[0].gross else BalanceFor(balances[1..], id)
  }

  /** A remaining allocation that still has its line's net ratio and contribution. */
  predicate Proportionate(lines: seq<InvoiceLine>, a: BillingAllocation) {
    var l := LineOf(lines, a.lineId);
    && l.Some? && 0.0 <= a.gross && 0.0 <= a.net
    && a.gross * l.value.amounts.net as real == a.net * l.value.amounts.gross as real
    && a.matched == if l.value.export_.Some? then a.net else 0.0
  }

  predicate BalancesFit(q: AllocationInput, lines: seq<InvoiceLine>) {
    && (q.original.Some? ==>
          && KeysDiffer(q.original.value, AllocationKey())
          && (forall a :: a in q.original.value ==> Proportionate(lines, a))
          && (forall a, b :: a in q.original.value && b in q.original.value ==> a.sourceRef == b.sourceRef))
    && (q.outstanding.Some? ==>
          && KeysDiffer(q.outstanding.value, BalanceKey()) && |q.outstanding.value| == |lines|
          && forall b :: b in q.outstanding.value ==> LineOf(lines, b.lineId).Some?)
  }

  function RemainingOn(q: AllocationInput, id: string): real {
    if q.original.Some? then (var a := PartFor(q.original.value, id); if a.Some? then a.value.gross else 0.0)
    else if q.outstanding.Some? then BalanceFor(q.outstanding.value, id)
    else 0.0
  }

  function ReceiptLineOf(clock: string -> real, q: AllocationInput): InvoiceLine -> ReceiptLine {
    (l: InvoiceLine) => ReceiptLine(l.id, q.invoice.invoiceNumber, clock(l.existedAt), RemainingOn(q, l.id), l.amounts.net, l.amounts.gross)
  }

  function RequestOf(clock: string -> real, q: AllocationInput, lines: seq<InvoiceLine>): Request {
    Request(q.sourceRef, q.gross, q.effectiveAt, q.direction, q.invoice.invoiceNumber,
            if q.separate then Some(q.invoice.invoiceNumber) else None, q.explicit, Map(lines, ReceiptLineOf(clock, q)))
  }

  function Matched(lines: seq<InvoiceLine>): LineAllocation -> BillingAllocation {
    (a: LineAllocation) =>
      var l := LineOf(lines, a.lineId);
      BillingAllocation(a.lineId, a.rule, a.sourceRef, a.gross, a.net,
                        if l.Some? && l.value.export_.Some? then a.net else 0.0)
  }

  function AllocateBilling(clock: string -> real, q: AllocationInput): Result<seq<BillingAllocation>, BillingError> {
    if !Represented(q) then Err(InvalidInput)
    else if q.invoice.factType != Invoiced || q.invoice.composition.None? then Err(PrerequisiteRequired)
    else
      var lines := q.invoice.composition.value.lines;
      if !BalancesFit(q, lines) then Err(InvalidInput)
      else
        var parts := Allocate(RequestOf(clock, q, lines));
        if parts.None? then Err(InvalidInput) else Ok(Map(parts.value, Matched(lines)))
  }

  // ----- deduplicating observations -----

  predicate SameFact(a: Status, b: Status) {
    a.source == b.source && a.eventId == b.eventId
  }

  function IndexOfFact(facts: seq<Status>, e: Status): (k: nat)
    ensures k <= |facts|
    ensures k < |facts| ==> SameFact(facts[k], e)
    ensures forall i :: 0 <= i < k ==> !SameFact(facts[i], e)
  {
    if facts == [] || SameFact(facts[0], e) then 0 else 1 + IndexOfFact(facts[1..], e)
  }

  /** Keeps one fact per identity; a repeated identity must repeat the same content. */
  function Remember(unique: seq<Status>, n: Status, digest: Status -> string): Result<seq<Status>, BillingError> {
    var k := IndexOfFact(unique, n);
    if k == |unique| then Ok(unique + [n])
    else if digest(unique[k]) != digest(n) then Err(Conflict)
    else Ok(unique[k := n])
  }

  function Dedupe(raws: seq<Status>, unique: seq<Status>, normal: Status -> Option<Status>, digest: Status -> string)
    : Result<seq<Status>, BillingError>
    decreases |raws|
  {
    if raws == [] then Ok(unique)
    else
      var n := normal(raws[0]);
      if n.None? then Err(InvalidInput)
      else
        var next := Remember(unique, n.value, digest);
        if next.Err? then next else Dedupe(raws[1..], next.value, normal, digest)
  }

  predicate OneContext(events: seq<Status>) {
    forall a, b :: a in events && b in events ==>
      a.contract == b.contract && a.source == b.source && a.invoiceNumber == b.invoiceNumber
  }

  function IsInvoice(): Status -> bool { (e: Status) => e.factType == Invoiced }
  function IsPending(): Status -> bool { (e: Status) => e.factType != Invoiced }

  // ----- grouping observations of one movement -----

  datatype HoldReason = InvoiceRequired | CompositionRequired | OriginalMovementRequired | MovementIdentityRequired | LineDetailRequired

  datatype Hold = Hold(eventId: string, reason: HoldReason)

  datatype Movement = Movement(id: string, signature: Status, event: Status, observations: seq<string>)

  function IsOther(): Status -> bool { (e: Status) => !Settlement(e.factType) }
  function IsUnidentified(): Status -> bool { (e: Status) => Settlement(e.factType) && e.reconciliation.None? }
  function IsIdentified(): Status -> bool { (e: Status) => Settlement(e.factType) && e.reconciliation.Some? }

  function UnidentifiedHold(): Status -> Hold { (e: Status) => Hold(e.eventId, MovementIdentityRequired) }

  /** Everything two observations of one movement must agree on. */
  function Signature(e: Status): Status {
    e.(eventId := "", remittance := None)
  }

  function IndexOfMovement(ms: seq<Movement>, id: string): (k: nat)
    ensures k <= |ms|
    ensures k < |ms| ==> ms[k].id == id
    ensures forall i :: 0 <= i < k ==> ms[i].id != id
  {
    if ms == [] || ms[0].id == id then 0 else 1 + IndexOfMovement(ms[1..], id)
  }

  function Observe(ms: seq<Movement>, e: Status): Option<seq<Movement>>
    requires e.reconciliation.Some?
  {
    var id := e.reconciliation.value;
    var k := IndexOfMovement(ms, id);
    if k == |ms| then Some(ms + [Movement(id, Signature(e), e, [e.eventId])])
    else if ms[k].signature != Signature(e) then None
    else Some(ms[k := ms[k].(observations := ms[k].observations + [e.eventId])])
  }

  function ObserveAll(ms: seq<Movement>, identified: seq<Status>): Option<seq<Movement>>
    decreases |identified|
  {
    if identified == [] then Some(ms)
    else if identified[0].reconciliation.None? then None
    else
      var next :- Observe(ms, identified[0]);
      ObserveAll(next, identified[1..])
  }

  /** The movement's fact under its economic identity instead of an observation's. */
  function Economic(): Movement -> Status {
    (m: Movement) => m.event.(eventId := m.id)
  }

  function MovementIds(ms: seq<Movement>): set<string> {
    set m | m in ms :: m.id
  }

  function ObservedBy(ms: seq<Movement>, id: string): set<string> {
    set m, o | m in ms && m.id == id && o in m.observations :: o
  }

  function Observers(ms: seq<Movement>): map<string, set<string>> {
    map id | id in MovementIds(ms) :: ObservedBy(ms, id)
  }

  // ----- ordering by economic time -----

  function ByInstant(clock: string -> real): (Status, Status) -> bool {
    (a: Status, b: Status) => clock(a.effectiveAt) <= clock(b.effectiveAt)
  }

  function Ordered(clock: string -> real, others: seq<Status>, ms: seq<Movement>): seq<Status> {
    Sort(others + Map(ms, Economic()), ByInstant(clock))
  }

  /** Every fact comes after the invoice and at its own instant. */
  predicate Unambiguous(clock: string -> real, invoice: Status, ordered: seq<Status>) {
    forall i :: 0 <= i < |ordered| ==>
      && clock(invoice.effectiveAt) < clock(ordered[i].effectiveAt)
      && (i > 0 ==> clock(ordered[i - 1].effectiveAt) != clock(ordered[i].effectiveAt))
  }

  // ----- the books -----

  datatype LedgerLine = LedgerLine(lineId: string, billedNet: real, creditedNet: real, creditedGross: real,
                                   paidNet: real, paidGross: real, matchedExtraNet: real, rejected: bool)

  datatype Posting = Posting(sourceRef: string, originalRef: Option<string>, parts: seq<BillingAllocation>)

  /** What is left of a receipt after the reversals posted against it. */
  datatype Account = Account(movement: string, remaining: seq<BillingAllocation>)

  /** `owner` maps every observation id of a received movement to the one account it shares. */
  datatype Books = Books(lines: seq<LedgerLine>, postings: seq<Posting>, accounts: seq<Account>,
                         owner: map<string, nat>, held: seq<Hold>)

  function OpeningLine(): InvoiceLine -> LedgerLine {
    (l: InvoiceLine) => LedgerLine(l.id, l.amounts.net as real, 0.0, 0.0, 0.0, 0.0, 0.0, false)
  }

  function OpeningBooks(lines: seq<InvoiceLine>, held: seq<Hold>): Books {
    Books(Map(lines, OpeningLine()), [], [], map[], held)
  }

  function IndexOfLine(lines: seq<LedgerLine>, id: string): (k: nat)
    ensures k <= |lines|
    ensures k < |lines| ==> lines[k].lineId == id
    ensures forall i :: 0 <= i < k ==> lines[i].lineId != id
  {
    if lines == [] || lines[0].lineId == id then 0 else 1 + IndexOfLine(lines[1..], id)
  }

  /** One credited or rejected line detail. */
  function ApplyDetail(clock: string -> real, composed: seq<InvoiceLine>, e: Status, lines: seq<LedgerLine>, d: Adjustment)
    : Option<seq<LedgerLine>>
  {
    var k, original := IndexOfLine(lines, d.lineId), LineOf(composed, d.lineId);
    if k == |lines| || original.None? || clock(original.value.existedAt) > clock(e.effectiveAt) then None
    else if e.factType == Rejected then Some(lines[k := lines[k].(rejected := true)])
    else
      var net := lines[k].creditedNet + d.amounts.net as real;
      var gross := lines[k].creditedGross + d.amounts.gross as real;
      if net > lines[k].billedNet || gross > original.value.amounts.gross as real || gross - net > original.value.amounts.vat as real
      then None
      else Some(lines[k := lines[k].(creditedNet := net, creditedGross := gross)])
  }

  function ApplyDetails(clock: string -> real, composed: seq<InvoiceLine>, e: Status, lines: seq<LedgerLine>, details: seq<Adjustment>)
    : Option<seq<LedgerLine>>
    decreases |details|
  {
    if details == [] then Some(lines)
    else
      var next :- ApplyDetail(clock, composed, e, lines, details[0]);
      ApplyDetails(clock, composed, e, next, details[1..])
  }

  function Positive(x: real): real {
    if x < 0.0 then 0.0 else x
  }

  /** What can still be received on each line. */
  function Open(composed: seq<InvoiceLine>, lines: seq<LedgerLine>): (b: seq<LineBalance>)
    requires |composed| == |lines|
  {
    seq(|lines|, i requires 0 <= i < |lines| =>
      LineBalance(lines[i].lineId, Positive(composed[i].amounts.gross as real - lines[i].creditedGross - lines[i].paidGross)))
  }

  /** Adds one allocated part to its line. */
  function PayPart(lines: seq<LedgerLine>, a: BillingAllocation): seq<LedgerLine> {
    var k := IndexOfLine(lines, a.lineId);
    if k == |lines| then lines
    else lines[k := lines[k].(paidGross := lines[k].paidGross + a.gross, paidNet := lines[k].paidNet + a.net,
                              matchedExtraNet := lines[k].matchedExtraNet + a.matched)]
  }

  function Pay(lines: seq<LedgerLine>, parts: seq<BillingAllocation>): (r: seq<LedgerLine>)
    decreases |parts|
  {
    if parts == [] then lines else Pay(PayPart(lines, parts[0]), parts[1..])
  }

  /** A remaining allocation less what a reversal (whose parts are negative) took from its line. */
  function Less(taken: seq<BillingAllocation>): BillingAllocation -> BillingAllocation {
    (a: BillingAllocation) =>
      var t := PartFor(taken, a.lineId);
      if t.None? then a
      else a.(gross := a.gross + t.value.gross, net := a.net + t.value.net, matched := a.matched + t.value.matched)
  }

  function InputOf(clock: string -> real, invoice: Status, b: Books, e: Status, k: Option<nat>): AllocationInput
    requires invoice.composition.Some? && |invoice.composition.value.lines| == |b.lines|
    requires k.Some? ==> k.value < |b.accounts|
  {
    AllocationInput(invoice, e.eventId, clock(e.effectiveAt), e.amount.gross as real,
                    if k.Some? then None else Some(Open(invoice.composition.value.lines, b.lines)),
                    e.explicit, e.separate, if k.Some? then Reversal else Receipt,
                    if k.Some? then Some(b.accounts[k.value].remaining) else None)
  }

  function HoldBack(b: Books, e: Status, reason: HoldReason): Books {
    b.(held := b.held + [Hold(e.eventId, reason)])
  }

  /** A receipt's parts are posted and open an account shared by all the movement's observations. */
  function PostReceipt(b: Books, e: Status, observers: set<string>, parts: seq<BillingAllocation>): Books {
    b.(lines := Pay(b.lines, parts), postings := b.postings + [Posting(e.eventId, None, parts)],
       accounts := b.accounts + [Account(e.eventId, parts)],
       owner := b.owner + map o | o in observers :: |b.accounts|)
  }

  /** A reversal's parts are posted and taken from the account they reverse. */
  function PostReversal(b: Books, e: Status, k: nat, parts: seq<BillingAllocation>): Books
    requires k < |b.accounts|
  {
    b.(lines := Pay(b.lines, parts),
       postings := b.postings + [Posting(e.eventId, Some(b.accounts[k].movement), parts)],
       accounts := b.accounts[k := b.accounts[k].(remaining := Map(b.accounts[k].remaining, Less(parts)))])
  }

  ghost predicate Sized(invoice: Status, b: Books) {
    && invoice.composition.Some? && |invoice.composition.value.lines| == |b.lines|
    && forall o :: o in b.owner ==> b.owner[o] < |b.accounts|
  }

  /** The account a reversal names, when it names a received movement. */
  function Reversed(b: Books, e: Status): Option<nat> {
    if e.factType == PaymentReversed && e.original.Some? && e.original.value in b.owner
    then Some(b.owner[e.original.value]) else None
  }

  function ObserversOf(observers: map<string, set<string>>, e: Status): set<string> {
    if e.reconciliation.Some? && e.reconciliation.value in observers then observers[e.reconciliation.value] else {}
  }

  function Step(clock: string -> real, invoice: Status, observers: map<string, set<string>>, b: Books, e: Status)
    : (r: Result<Books, BillingError>)
    requires Sized(invoice, b)
    ensures r.Ok? ==> Sized(invoice, r.value)
  {
    var composed := invoice.composition.value.lines;
    if e.composition.Some? && e.composition != invoice.composition then Err(PolicyHeld)
    else if e.factType == Credited || e.factType == Rejected then
      if e.original != Some(invoice.eventId) || e.adjustments == [] then Ok(HoldBack(b, e, LineDetailRequired))
      else
        var lines := ApplyDetails(clock, composed, e, b.lines, e.adjustments);
        DetailsKeepSize(clock, composed, e, b.lines, e.adjustments);
        if lines.None? then Err(InvalidInput) else Ok(b.(lines := lines.value))
    else if e.factType == Invoiced then Err(InvalidInput)
    else if e.factType == PaymentReversed && Reversed(b, e).None? then Ok(HoldBack(b, e, OriginalMovementRequired))
    else
      var parts := AllocateBilling(clock, InputOf(clock, invoice, b, e, Reversed(b, e)));
      if parts.Err? then Err(parts.error)
      else
        PayKeepsLines(b.lines, parts.value);
        if e.factType == PaymentReversed then Ok(PostReversal(b, e, Reversed(b, e).value, parts.value))
        else Ok(PostReceipt(b, e, ObserversOf(observers, e), parts.value))
  }

  function Run(clock: string -> real, invoice: Status, observers: map<string, set<string>>, b: Books, ordered: seq<Status>)
    : (r: Result<Books, BillingError>)
    requires Sized(invoice, b)
    ensures r.Ok? ==> Sized(invoice, r.value)
    decreases |ordered|
  {
    if ordered == [] then Ok(b)
    else
      var next := Step(clock, invoice, observers, b, ordered[0]);
      if next.Err? then next else Run(clock, invoice, observers, next.value, ordered[1..])
  }

  lemma {:induction false} DetailsKeepSize(clock: string -> real, composed: seq<InvoiceLine>, e: Status, lines: seq<LedgerLine>, details: seq<Adjustment>)
    ensures var r := ApplyDetails(clock, composed, e, lines, details);
            r.Some? ==> |r.value| == |lines|
    decreases |details|
  {
    if details != [] {
      var next := ApplyDetail(clock, composed, e, lines, details[0]);
      if next.Some? {
        DetailsKeepSize(clock, composed, e, next.value, details[1..]);
      }
    }
  }

  lemma {:induction false} PayKeepsLines(lines: seq<LedgerLine>, parts: seq<BillingAllocation>)
    ensures |Pay(lines, parts)| == |lines|
    ensures forall i :: 0 <= i < |lines| ==> Pay(lines, parts)[i].lineId == lines[i].lineId
    decreases |parts|
  {
    if parts != [] {
      PayKeepsLines(PayPart(lines, parts[0]), parts[1..]);
    }
  }

  // ----- the result -----

  datatype Totals = Totals(billedNet: real, creditedNet: real, paidNet: real, paidGross: real, matchedExtraNet: real)

  datatype Ledger = Ledger(lines: seq<LedgerLine>, postings: seq<Posting>, totals: Totals, held: seq<Hold>)

  function BilledNet(): LedgerLine -> real { (l: LedgerLine) => l.billedNet }
  function CreditedNet(): LedgerLine -> real { (l: LedgerLine) => l.creditedNet }
  function PaidNet(): LedgerLine -> real { (l: LedgerLine) => l.paidNet }
  function PaidGross(): LedgerLine -> real { (l: LedgerLine) => l.paidGross }
  function MatchedExtraNet(): LedgerLine -> real { (l: LedgerLine) => l.matchedExtraNet }
  function HoldId(): Hold -> string { (h: Hold) => h.eventId }

  function TotalsOf(lines: seq<LedgerLine>): Totals {
    Totals(SumReal(lines, BilledNet()), SumReal(lines, CreditedNet()), SumReal(lines, PaidNet()),
           SumReal(lines, PaidGross()), SumReal(lines, MatchedExtraNet()))
  }

  function LedgerOf(b: Books): Ledger {
    Ledger(b.lines, b.postings, TotalsOf(b.lines), Sort(b.held, ByText(HoldId())))
  }

  function AllHeld(reason: HoldReason): Status -> Hold { (e: Status) => Hold(e.eventId, reason) }

  /** Nothing can be settled yet: every fact is held. */
  function EmptyLedger(events: seq<Status>, reason: HoldReason): Ledger {
    Ledger([], [], TotalsOf([]), Sort(Map(events, AllHeld(reason)), ByText(HoldId())))
  }

  /** The ledger of one invoice with its composition and the facts that followed it. */
  function Settle(clock: string -> real, invoice: Status, pending: seq<Status>): Result<Ledger, BillingError>
    requires invoice.composition.Some?
  {
    var ms := ObserveAll([], Filter(pending, IsIdentified()));
    if ms.None? then Err(Conflict)
    else
      var ordered := Ordered(clock, Filter(pending, IsOther()), ms.value);
      if !Unambiguous(clock, invoice, ordered) then Err(PolicyHeld)
      else
        var books := Run(clock, invoice, Observers(ms.value),
                         OpeningBooks(invoice.composition.value.lines, Map(Filter(pending, IsUnidentified()), UnidentifiedHold())),
                         ordered);
        if books.Err? then Err(books.error) else Ok(LedgerOf(books.value))
  }

  function SettleAll(clock: string -> real, events: seq<Status>): Result<Ledger, BillingError> {
    var invoices := Filter(events, IsInvoice());
    if !OneContext(events) then Err(InvalidInput)
    else if |invoices| > 1 then Err(PolicyHeld)
    else if invoices == [] then Ok(EmptyLedger(events, InvoiceRequired))
    else if invoices[0].composition.None? then Ok(EmptyLedger(events, CompositionRequired))
    else Settle(clock, invoices[0], Filter(events, IsPending()))
  }

  function Derive(normal: Status -> Option<Status>, digest: Status -> string, clock: string -> real, raws: seq<Status>)
    : Result<Ledger, BillingError>
  {
    if |raws| > MAX_LINES then Err(InvalidInput)
    else
      var events := Dedupe(raws, [], normal, digest);
      if events.Err? then Err(events.error) else SettleAll(clock, events.value)
  }
}
