/** What every replayed ledger conserves: line by line, movement by movement and in total. */
module BillingConservation {
  import opened Prelude
  import opened Billing
  import opened ReceiptAllocation
  import opened BillingLedger
  import BillingOrder
  import Sorting

  function PartGross(): BillingAllocation -> real { (a: BillingAllocation) => a.gross }
  function PartNet(): BillingAllocation -> real { (a: BillingAllocation) => a.net }
  function PartMatched(): BillingAllocation -> real { (a: BillingAllocation) => a.matched }

  function At(id: string, f: BillingAllocation -> real): BillingAllocation -> real {
    (a: BillingAllocation) => if a.lineId == id then f(a) else 0.0
  }

  /** What the parts hold of one line. */
  function On(parts: seq<BillingAllocation>, id: string, f: BillingAllocation -> real): real {
    SumReal(parts, At(id, f))
  }

  ghost predicate LineIdsDiffer(lines: seq<LedgerLine>) {
    forall i, j :: 0 <= i < j < |lines| ==> lines[i].lineId != lines[j].lineId
  }

  lemma {:induction false} LineAt(lines: seq<LedgerLine>, k: nat)
    requires LineIdsDiffer(lines) && k < |lines|
    ensures IndexOfLine(lines, lines[k].lineId) == k
  {
    assert IndexOfLine(lines, lines[k].lineId) <= k;
  }

  /** Paying parts adds to each line exactly what the parts hold of it, and changes nothing else. */
  lemma {:induction false} PayAdds(lines: seq<LedgerLine>, parts: seq<BillingAllocation>, i: nat)
    requires LineIdsDiffer(lines) && i < |lines|
    ensures |Pay(lines, parts)| == |lines| && LineIdsDiffer(Pay(lines, parts))
    ensures var l, r := lines[i], Pay(lines, parts)[i];
            r == l.(paidGross := l.paidGross + On(parts, l.lineId, PartGross()),
                    paidNet := l.paidNet + On(parts, l.lineId, PartNet()),
                    matchedExtraNet := l.matchedExtraNet + On(parts, l.lineId, PartMatched()))
    decreases |parts|
  {
    if parts != [] {
      var next := PayPart(lines, parts[0]);
      assert LineIdsDiffer(next) && |next| == |lines|;
      LineAt(lines, i);
      PayAdds(next, parts[1..], i);
    }
  }

  // ----- parts by line -----

  lemma {:induction false} OnAbsent(parts: seq<BillingAllocation>, id: string, f: BillingAllocation -> real)
    requires forall a :: a in parts ==> a.lineId != id
    ensures On(parts, id, f) == 0.0 && PartFor(parts, id) == None
  {
    if parts != [] {
      assert parts[0] in parts && forall a :: a in parts[1..] ==> a in parts;
      OnAbsent(parts[1..], id, f);
    }
  }

  /** With one part per line, what the parts hold of a line is that line's part. */
  lemma {:induction false} OnIsPart(parts: seq<BillingAllocation>, id: string, f: BillingAllocation -> real)
    requires KeysDiffer(parts, AllocationKey())
    ensures On(parts, id, f) == if PartFor(parts, id).Some? then f(PartFor(parts, id).value) else 0.0
    ensures PartFor(parts, id).Some? ==> PartFor(parts, id).value in parts && PartFor(parts, id).value.lineId == id
  {
    if parts != [] {
      TailDiffers(parts);
      if parts[0].lineId == id {
        OnAbsent(parts[1..], id, f);
      } else {
        OnIsPart(parts[1..], id, f);
      }
    }
  }

  lemma TailDiffers(parts: seq<BillingAllocation>)
    requires parts != [] && KeysDiffer(parts, AllocationKey())
    ensures KeysDiffer(parts[1..], AllocationKey())
    ensures forall a :: a in parts[1..] ==> a.lineId != parts[0].lineId
  {
    forall j | 0 <= j < |parts| - 1
      ensures parts[1..][j].lineId != parts[0].lineId
    {
      assert AllocationKey()(parts[0]) != AllocationKey()(parts[j + 1]);
    }
    forall i, j | 0 <= i < j < |parts| - 1
      ensures AllocationKey()(parts[1..][i]) != AllocationKey()(parts[1..][j])
    {
      assert AllocationKey()(parts[i + 1]) != AllocationKey()(parts[j + 1]);
    }
  }

  lemma {:induction false} LineOfFound(composed: seq<InvoiceLine>, id: string)
    ensures LineOf(composed, id).Some? ==> LineOf(composed, id).value in composed && LineOf(composed, id).value.id == id
    ensures LineOf(composed, id).None? ==> forall l :: l in composed ==> l.id != id
  {
    if composed != [] {
      LineOfFound(composed[1..], id);
    }
  }

  lemma {:induction false} LineOfAt(composed: seq<InvoiceLine>, k: nat)
    requires KeysDiffer(composed, LineKey()) && k < |composed|
    ensures LineOf(composed, composed[k].id) == Some(composed[k])
  {
    if k > 0 {
      assert LineKey()(composed[0]) != LineKey()(composed[k]);
      forall i, j | 0 <= i < j < |composed| - 1
        ensures LineKey()(composed[1..][i]) != LineKey()(composed[1..][j])
      {
        assert LineKey()(composed[i + 1]) != LineKey()(composed[j + 1]);
      }
      LineOfAt(composed[1..], k - 1);
    }
  }

  // ----- what one allocation guarantees -----

  /** A signed part of a line: net in the line's ratio, contribution only for a matched line. */
  predicate InRatio(composed: seq<InvoiceLine>, a: BillingAllocation) {
    var l := LineOf(composed, a.lineId);
    && l.Some?
    && a.gross * l.value.amounts.net as real == a.net * l.value.amounts.gross as real
    && a.matched == if l.value.export_.Some? then a.net else 0.0
  }

  function Towards(q: AllocationInput, x: real): real {
    if q.direction == Reversal then -x else x
  }

  /** An accepted allocation: one in-ratio part per line, within what is left of the line, adding up to the amount. */
  ghost predicate Exact(q: AllocationInput, composed: seq<InvoiceLine>, parts: seq<BillingAllocation>) {
    && KeysDiffer(parts, AllocationKey())
    && (forall a :: a in parts ==>
          && InRatio(composed, a) && a.sourceRef == q.sourceRef
          && 0.0 <= Towards(q, a.gross) <= RemainingOn(q, a.lineId) && RemainingOn(q, a.lineId) > 0.0)
    && SumReal(parts, PartGross()) == Towards(q, q.gross)
  }

  lemma PartExact(clock: string -> real, q: AllocationInput, composed: seq<InvoiceLine>, raw: LineAllocation)
    requires KeysDiffer(composed, LineKey())
    requires exists l :: PartOf(RequestOf(clock, q, composed), raw, l)
    ensures var a := Matched(composed)(raw);
            && InRatio(composed, a) && a.sourceRef == q.sourceRef && a.lineId == raw.lineId && a.gross == raw.gross
            && 0.0 <= Towards(q, a.gross) <= RemainingOn(q, a.lineId) && RemainingOn(q, a.lineId) > 0.0
  {
    var request := RequestOf(clock, q, composed);
    var l :| PartOf(request, raw, l);
    var k :| 0 <= k < |composed| && request.lines[k] == l;
    LineOfAt(composed, k);
  }

  lemma PartsExact(clock: string -> real, q: AllocationInput, composed: seq<InvoiceLine>, raw: seq<LineAllocation>)
    requires KeysDiffer(composed, LineKey()) && Sound(RequestOf(clock, q, composed), raw)
    ensures Exact(q, composed, Map(raw, Matched(composed)))
  {
    var parts := Map(raw, Matched(composed));
    forall i | 0 <= i < |parts|
      ensures InRatio(composed, parts[i]) && parts[i].sourceRef == q.sourceRef && parts[i].lineId == raw[i].lineId
      ensures 0.0 <= Towards(q, parts[i].gross) <= RemainingOn(q, parts[i].lineId) && RemainingOn(q, parts[i].lineId) > 0.0
    {
      assert raw[i] in raw;
      PartExact(clock, q, composed, raw[i]);
    }
    SumRealMap(raw, Matched(composed), PartGross(), Gross());
  }

  lemma AllocatedExactly(clock: string -> real, q: AllocationInput)
    requires AllocateBilling(clock, q).Ok? && KeysDiffer(q.invoice.composition.value.lines, LineKey())
    ensures Exact(q, q.invoice.composition.value.lines, AllocateBilling(clock, q).value)
  {
    var composed := q.invoice.composition.value.lines;
    AllocationSound(RequestOf(clock, q, composed));
    PartsExact(clock, q, composed, Allocate(RequestOf(clock, q, composed)).value);
  }

  // ----- the invariant -----

  function PostedOn(id: string): Posting -> real { (p: Posting) => On(p.parts, id, PartGross()) }
  function LeftOn(id: string): Account -> real { (a: Account) => On(a.remaining, id, PartGross()) }

  /** The movement a posting settles or reverses. */
  function MovementOf(p: Posting): string {
    if p.originalRef.Some? then p.originalRef.value else p.sourceRef
  }

  function FamilyOn(movement: string, id: string, f: BillingAllocation -> real): Posting -> real {
    (p: Posting) => if MovementOf(p) == movement then On(p.parts, id, f) else 0.0
  }

  /** Credits never exceed the billed amounts, each on its own. */
  predicate CreditWithin(c: InvoiceLine, l: LedgerLine) {
    && 0.0 <= l.creditedNet <= c.amounts.net as real
    && 0.0 <= l.creditedGross <= c.amounts.gross as real
    && 0.0 <= l.creditedGross - l.creditedNet <= c.amounts.vat as real
  }

  /** Paid amounts keep the line's net ratio, stay within its gross and count as extra only when matched. */
  predicate PaidWithin(c: InvoiceLine, l: LedgerLine) {
    && 0.0 <= l.paidGross <= c.amounts.gross as real
    && l.paidGross * c.amounts.net as real == l.paidNet * c.amounts.gross as real
    && l.matchedExtraNet == if c.export_.Some? then l.paidNet else 0.0
  }

  predicate LineKept(c: InvoiceLine, l: LedgerLine) {
    l.lineId == c.id && l.billedNet == c.amounts.net as real && CreditWithin(c, l) && PaidWithin(c, l)
  }

  predicate AccountKept(composed: seq<InvoiceLine>, a: Account) {
    KeysDiffer(a.remaining, AllocationKey()) && forall r :: r in a.remaining ==> Proportionate(composed, r)
  }

  ghost predicate ValidComposed(composed: seq<InvoiceLine>) {
    KeysDiffer(composed, LineKey()) && forall c :: c in composed ==> ValidAmounts(c.amounts) && c.amounts.gross > 0
  }

  /** Line by line, what is paid is what was posted and what the accounts still hold. */
  ghost predicate Balanced(composed: seq<InvoiceLine>, b: Books) {
    |b.lines| == |composed| && forall i :: 0 <= i < |composed| ==>
      b.lines[i].paidGross == SumReal(b.postings, PostedOn(composed[i].id)) == SumReal(b.accounts, LeftOn(composed[i].id))
  }

  /** Every account holds, line by line, its receipt plus every reversal posted against it. */
  ghost predicate AccountsHold(b: Books, f: BillingAllocation -> real) {
    forall k, id :: 0 <= k < |b.accounts| ==>
      On(b.accounts[k].remaining, id, f) == SumReal(b.postings, FamilyOn(b.accounts[k].movement, id, f))
  }

  /** They do so in gross, net and matched amounts. */
  ghost predicate AccountsBalanced(b: Books) {
    AccountsHold(b, PartGross()) && AccountsHold(b, PartNet()) && AccountsHold(b, PartMatched())
  }

  ghost predicate Measure(f: BillingAllocation -> real) {
    f == PartGross() || f == PartNet() || f == PartMatched()
  }

  ghost predicate MovementsKnown(b: Books) {
    && (forall j, k :: 0 <= j < k < |b.accounts| ==> b.accounts[j].movement != b.accounts[k].movement)
    && (forall p :: p in b.postings ==> exists k :: 0 <= k < |b.accounts| && b.accounts[k].movement == MovementOf(p))
  }

  function PostedTotal(): Posting -> real { (p: Posting) => SumReal(p.parts, PartGross()) }

  /** In total, what is paid is what was posted. */
  ghost predicate TotalKept(b: Books) {
    SumReal(b.lines, PaidGross()) == SumReal(b.postings, PostedTotal())
  }

  ghost predicate Conserved(composed: seq<InvoiceLine>, b: Books) {
    && |b.lines| == |composed|
    && (forall i :: 0 <= i < |composed| ==> LineKept(composed[i], b.lines[i]))
    && (forall a :: a in b.accounts ==> AccountKept(composed, a))
    && Balanced(composed, b) && AccountsBalanced(b) && MovementsKnown(b) && TotalKept(b)
  }

  lemma OpeningConserved(composed: seq<InvoiceLine>, holds: seq<Hold>)
    requires ValidComposed(composed)
    ensures Conserved(composed, OpeningBooks(composed, holds))
  {
    forall i | 0 <= i < |composed|
      ensures LineKept(composed[i], OpeningLine()(composed[i]))
    {
      assert composed[i] in composed;
    }
    NothingPaid(composed);
  }

  lemma {:induction false} NothingPaid(composed: seq<InvoiceLine>)
    ensures SumReal(Map(composed, OpeningLine()), PaidGross()) == 0.0
  {
    if composed != [] {
      assert Map(composed, OpeningLine())[1..] == Map(composed[1..], OpeningLine());
      NothingPaid(composed[1..]);
    }
  }

  lemma {:induction false} SamePaid(a: seq<LedgerLine>, b: seq<LedgerLine>)
    requires |a| == |b| && forall i :: 0 <= i < |a| ==> a[i].paidGross == b[i].paidGross
    ensures SumReal(a, PaidGross()) == SumReal(b, PaidGross())
  {
    if a != [] {
      SamePaid(a[1..], b[1..]);
    }
  }

  /** Paying parts of known lines raises the total by what the parts add up to. */
  lemma {:induction false} PayTotal(lines: seq<LedgerLine>, parts: seq<BillingAllocation>)
    requires forall a :: a in parts ==> IndexOfLine(lines, a.lineId) < |lines|
    ensures SumReal(Pay(lines, parts), PaidGross()) == SumReal(lines, PaidGross()) + SumReal(parts, PartGross())
    decreases |parts|
  {
    if parts != [] {
      var k := IndexOfLine(lines, parts[0].lineId);
      assert parts[0] in parts && k < |lines|;
      var paid := PayPart(lines, parts[0]);
      SumRealUpdate(lines, k, paid[k], PaidGross());
      forall a | a in parts[1..]
        ensures IndexOfLine(paid, a.lineId) < |paid|
      {
        assert a in parts;
        var j := IndexOfLine(lines, a.lineId);
        LineThere(paid, j, a.lineId);
      }
      PayTotal(paid, parts[1..]);
    }
  }

  lemma {:induction false} LineThere(lines: seq<LedgerLine>, j: nat, id: string)
    requires j < |lines| && lines[j].lineId == id
    ensures IndexOfLine(lines, id) < |lines|
  {
    assert IndexOfLine(lines, id) <= j;
  }

  lemma {:induction false} PartsOnLines(composed: seq<InvoiceLine>, lines: seq<LedgerLine>, parts: seq<BillingAllocation>)
    requires |lines| == |composed| && forall i :: 0 <= i < |composed| ==> lines[i].lineId == composed[i].id
    requires forall a :: a in parts ==> InRatio(composed, a)
    ensures forall a :: a in parts ==> IndexOfLine(lines, a.lineId) < |lines|
  {
    forall a | a in parts
      ensures IndexOfLine(lines, a.lineId) < |lines|
    {
      LineOfFound(composed, a.lineId);
      var j :| 0 <= j < |composed| && composed[j].id == a.lineId;
      LineThere(lines, j, a.lineId);
    }
  }

  /** Posting in-ratio parts keeps the totals in step. */
  lemma PostedTotalKept(composed: seq<InvoiceLine>, b: Books, p: Posting)
    requires Conserved(composed, b) && forall a :: a in p.parts ==> InRatio(composed, a)
    ensures SumReal(Pay(b.lines, p.parts), PaidGross()) == SumReal(b.postings + [p], PostedTotal())
  {
    PartsOnLines(composed, b.lines, p.parts);
    PayTotal(b.lines, p.parts);
    SumPosted(b.postings, p, PostedTotal());
  }

  lemma IdsDiffer(composed: seq<InvoiceLine>, lines: seq<LedgerLine>)
    requires ValidComposed(composed) && |lines| == |composed|
    requires forall i :: 0 <= i < |composed| ==> lines[i].lineId == composed[i].id
    ensures LineIdsDiffer(lines)
  {
    forall i, j | 0 <= i < j < |lines|
      ensures lines[i].lineId != lines[j].lineId
    {
      assert LineKey()(composed[i]) != LineKey()(composed[j]);
    }
  }

  // ----- credits and rejections -----

  /** A line that differs only in what is credited and whether it is rejected is kept if the credits are within it. */
  lemma CreditedKept(c: InvoiceLine, l: LedgerLine, m: LedgerLine)
    requires LineKept(c, l) && CreditWithin(c, m)
    requires m == l.(creditedNet := m.creditedNet, creditedGross := m.creditedGross, rejected := m.rejected)
    ensures LineKept(c, m)
  {
    assert m.paidGross == l.paidGross && m.paidNet == l.paidNet;
  }

  /** What one adjustment makes of its line. */
  lemma DetailWithin(clock: string -> real, composed: seq<InvoiceLine>, e: Status, lines: seq<LedgerLine>, d: Adjustment) returns (k: nat)
    requires ValidComposed(composed) && |lines| == |composed| && ValidAmounts(d.amounts)
    requires forall i :: 0 <= i < |composed| ==>
               lines[i].lineId == composed[i].id && lines[i].billedNet == composed[i].amounts.net as real && CreditWithin(composed[i], lines[i])
    requires ApplyDetail(clock, composed, e, lines, d).Some?
    ensures var after := ApplyDetail(clock, composed, e, lines, d).value;
            && |after| == |lines| && k < |lines| && after == lines[k := after[k]] && CreditWithin(composed[k], after[k])
            && after[k] == lines[k].(creditedNet := after[k].creditedNet, creditedGross := after[k].creditedGross, rejected := after[k].rejected)
  {
    k := IndexOfLine(lines, d.lineId);
    LineOfAt(composed, k);
  }

  /** One adjustment keeps every line and what is paid on it. */
  lemma DetailKeeps(clock: string -> real, composed: seq<InvoiceLine>, e: Status, lines: seq<LedgerLine>, d: Adjustment)
    requires ValidComposed(composed) && |lines| == |composed| && ValidAmounts(d.amounts)
    requires forall i :: 0 <= i < |composed| ==> LineKept(composed[i], lines[i])
    requires ApplyDetail(clock, composed, e, lines, d).Some?
    ensures SameButCredit(composed, lines, ApplyDetail(clock, composed, e, lines, d).value)
  {
    var k := DetailWithin(clock, composed, e, lines, d);
    CreditedKept(composed[k], lines[k], ApplyDetail(clock, composed, e, lines, d).value[k]);
  }

  ghost predicate SameButCredit(composed: seq<InvoiceLine>, lines: seq<LedgerLine>, after: seq<LedgerLine>) {
    |after| == |lines| == |composed|
    && forall i :: 0 <= i < |composed| ==> LineKept(composed[i], after[i]) && after[i].paidGross == lines[i].paidGross
  }

  lemma {:induction false} DetailsKeep(clock: string -> real, composed: seq<InvoiceLine>, e: Status, lines: seq<LedgerLine>, details: seq<Adjustment>)
    requires ValidComposed(composed) && |lines| == |composed|
    requires forall i :: 0 <= i < |composed| ==> LineKept(composed[i], lines[i])
    requires forall d :: d in details ==> ValidAmounts(d.amounts)
    ensures ApplyDetails(clock, composed, e, lines, details).Some? ==>
              SameButCredit(composed, lines, ApplyDetails(clock, composed, e, lines, details).value)
    decreases |details|
  {
    if details != [] && ApplyDetail(clock, composed, e, lines, details[0]).Some? {
      assert details[0] in details && forall d :: d in details[1..] ==> d in details;
      DetailKeeps(clock, composed, e, lines, details[0]);
      DetailsKeep(clock, composed, e, ApplyDetail(clock, composed, e, lines, details[0]).value, details[1..]);
    }
  }

  lemma {:induction false} CreditConserved(clock: string -> real, composed: seq<InvoiceLine>, b: Books, e: Status)
    requires ValidComposed(composed) && Conserved(composed, b) && forall d :: d in e.adjustments ==> ValidAmounts(d.amounts)
    ensures var r := ApplyDetails(clock, composed, e, b.lines, e.adjustments);
            r.Some? ==> Conserved(composed, b.(lines := r.value))
  {
    DetailsKeep(clock, composed, e, b.lines, e.adjustments);
    var r := ApplyDetails(clock, composed, e, b.lines, e.adjustments);
    if r.Some? {
      SamePaid(b.lines, r.value);
    }
  }

  // ----- arithmetic of one line -----

  lemma RatioAdds(g: real, n: real, dg: real, dn: real, net: real, gross: real)
    requires g * net == n * gross && dg * net == dn * gross
    ensures (g + dg) * net == (n + dn) * gross
  {
  }

  lemma NetNonneg(g: real, n: real, net: real, gross: real)
    requires g * net == n * gross && g >= 0.0 && net >= 0.0 && gross > 0.0
    ensures n >= 0.0
  {
    MulRealOrder(g, 0.0, net);
    if n < 0.0 {
      MulRealOrder(gross, n, 0.0);
      NegativeProduct(gross, n);
    }
  }

  lemma NegativeProduct(a: real, b: real)
    requires a > 0.0 && b < 0.0
    ensures b * a < 0.0
  {
  }

  /** What the parts put on one line is in the line's own ratio. */
  lemma OnInRatio(composed: seq<InvoiceLine>, k: nat, parts: seq<BillingAllocation>)
    requires KeysDiffer(composed, LineKey()) && k < |composed|
    requires KeysDiffer(parts, AllocationKey()) && forall a :: a in parts ==> InRatio(composed, a)
    ensures var c := composed[k];
            && On(parts, c.id, PartGross()) * c.amounts.net as real == On(parts, c.id, PartNet()) * c.amounts.gross as real
            && On(parts, c.id, PartMatched()) == if c.export_.Some? then On(parts, c.id, PartNet()) else 0.0
  {
    var id := composed[k].id;
    LineOfAt(composed, k);
    OnIsPart(parts, id, PartGross());
    OnIsPart(parts, id, PartNet());
    OnIsPart(parts, id, PartMatched());
  }

  lemma PaidAdds(c: InvoiceLine, l: LedgerLine, gross: real, net: real, matched: real)
    requires LineKept(c, l) && 0.0 <= l.paidGross + gross <= c.amounts.gross as real
    requires gross * c.amounts.net as real == net * c.amounts.gross as real && matched == if c.export_.Some? then net else 0.0
    ensures LineKept(c, l.(paidGross := l.paidGross + gross, paidNet := l.paidNet + net, matchedExtraNet := l.matchedExtraNet + matched))
  {
    RatioAdds(l.paidGross, l.paidNet, gross, net, c.amounts.net as real, c.amounts.gross as real);
  }

  /** What in-ratio parts add to one line keeps the line's ratio and contribution. */
  lemma LinePaid(composed: seq<InvoiceLine>, k: nat, l: LedgerLine, parts: seq<BillingAllocation>)
    requires KeysDiffer(composed, LineKey()) && k < |composed| && LineKept(composed[k], l)
    requires KeysDiffer(parts, AllocationKey()) && forall a :: a in parts ==> InRatio(composed, a)
    requires 0.0 <= l.paidGross + On(parts, l.lineId, PartGross()) <= composed[k].amounts.gross as real
    ensures LineKept(composed[k], l.(paidGross := l.paidGross + On(parts, l.lineId, PartGross()),
                                     paidNet := l.paidNet + On(parts, l.lineId, PartNet()),
                                     matchedExtraNet := l.matchedExtraNet + On(parts, l.lineId, PartMatched())))
  {
    OnInRatio(composed, k, parts);
    PaidAdds(composed[k], l, On(parts, l.lineId, PartGross()), On(parts, l.lineId, PartNet()), On(parts, l.lineId, PartMatched()));
  }

  // ----- receipts -----

  lemma {:induction false} BalanceForAt(balances: seq<LineBalance>, k: nat)
    requires k < |balances| && forall i, j :: 0 <= i < j < |balances| ==> balances[i].lineId != balances[j].lineId
    ensures BalanceFor(balances, balances[k].lineId) == balances[k].gross
  {
    if k > 0 {
      BalanceForAt(balances[1..], k - 1);
    }
  }

  lemma OpenOn(composed: seq<InvoiceLine>, lines: seq<LedgerLine>, k: nat)
    requires |lines| == |composed| && LineIdsDiffer(lines) && k < |lines|
    ensures BalanceFor(Open(composed, lines), lines[k].lineId) ==
            Positive(composed[k].amounts.gross as real - lines[k].creditedGross - lines[k].paidGross)
  {
    BalanceForAt(Open(composed, lines), k);
  }

  /** A receipt's part of a line fits what the line can still take. */
  lemma ReceiptFits(composed: seq<InvoiceLine>, lines: seq<LedgerLine>, q: AllocationInput, parts: seq<BillingAllocation>, k: nat)
    requires |lines| == |composed| && LineIdsDiffer(lines) && k < |lines|
    requires q.direction == Receipt && q.original.None? && q.outstanding == Some(Open(composed, lines))
    requires Exact(q, composed, parts) && LineKept(composed[k], lines[k])
    ensures 0.0 <= lines[k].paidGross + On(parts, lines[k].lineId, PartGross()) <= composed[k].amounts.gross as real
  {
    OnIsPart(parts, lines[k].lineId, PartGross());
    OpenOn(composed, lines, k);
  }

  lemma PartsProportionate(q: AllocationInput, composed: seq<InvoiceLine>, parts: seq<BillingAllocation>)
    requires ValidComposed(composed) && q.direction == Receipt && Exact(q, composed, parts)
    ensures forall a :: a in parts ==> Proportionate(composed, a)
  {
    forall a | a in parts
      ensures Proportionate(composed, a)
    {
      LineOfFound(composed, a.lineId);
      var l := LineOf(composed, a.lineId).value;
      NetNonneg(a.gross, a.net, l.amounts.net as real, l.amounts.gross as real);
    }
  }

  lemma {:induction false} FamilyAbsent(postings: seq<Posting>, movement: string, id: string, f: BillingAllocation -> real)
    requires forall p :: p in postings ==> MovementOf(p) != movement
    ensures SumReal(postings, FamilyOn(movement, id, f)) == 0.0
  {
    if postings != [] {
      assert postings[0] in postings && forall p :: p in postings[1..] ==> p in postings;
      FamilyAbsent(postings[1..], movement, id, f);
    }
  }

  lemma {:induction false} SumPosted(postings: seq<Posting>, p: Posting, f: Posting -> real)
    ensures SumReal(postings + [p], f) == SumReal(postings, f) + f(p)
  {
    SumRealAppend(postings, [p], f);
    SumRealOne(p, f);
  }

  lemma {:induction false} SumOpened(accounts: seq<Account>, a: Account, f: Account -> real)
    ensures SumReal(accounts + [a], f) == SumReal(accounts, f) + f(a)
  {
    SumRealAppend(accounts, [a], f);
    SumRealOne(a, f);
  }

  ghost predicate NewMovement(b: Books, movement: string) {
    forall k :: 0 <= k < |b.accounts| ==> b.accounts[k].movement != movement
  }

  lemma ReceiptHolds(b: Books, e: Status, observers: set<string>, parts: seq<BillingAllocation>, f: BillingAllocation -> real)
    requires AccountsHold(b, f) && MovementsKnown(b) && NewMovement(b, e.eventId)
    ensures AccountsHold(PostReceipt(b, e, observers, parts), f)
  {
    var after := PostReceipt(b, e, observers, parts);
    var p := Posting(e.eventId, None, parts);
    forall k, id | 0 <= k < |after.accounts|
      ensures On(after.accounts[k].remaining, id, f) == SumReal(after.postings, FamilyOn(after.accounts[k].movement, id, f))
    {
      SumPosted(b.postings, p, FamilyOn(after.accounts[k].movement, id, f));
      if k == |b.accounts| {
        FamilyAbsent(b.postings, e.eventId, id, f);
      } else {
        assert On(b.accounts[k].remaining, id, f) == SumReal(b.postings, FamilyOn(b.accounts[k].movement, id, f));
      }
    }
  }

  lemma ReceiptAccounts(b: Books, e: Status, observers: set<string>, parts: seq<BillingAllocation>)
    requires AccountsBalanced(b) && MovementsKnown(b) && NewMovement(b, e.eventId)
    ensures AccountsBalanced(PostReceipt(b, e, observers, parts)) && MovementsKnown(PostReceipt(b, e, observers, parts))
  {
    var after := PostReceipt(b, e, observers, parts);
    ReceiptHolds(b, e, observers, parts, PartGross());
    ReceiptHolds(b, e, observers, parts, PartNet());
    ReceiptHolds(b, e, observers, parts, PartMatched());
    forall x | x in after.postings
      ensures exists k :: 0 <= k < |after.accounts| && after.accounts[k].movement == MovementOf(x)
    {
      if x in b.postings {
        var k :| 0 <= k < |b.accounts| && b.accounts[k].movement == MovementOf(x);
        assert after.accounts[k].movement == MovementOf(x);
      } else {
        assert after.accounts[|b.accounts|].movement == MovementOf(x);
      }
    }
  }

  /** One line of the books: kept, and balanced against the postings and the accounts. */
  ghost predicate LineBalanced(composed: seq<InvoiceLine>, b: Books, i: nat)
    requires i < |composed| == |b.lines|
  {
    && LineKept(composed[i], b.lines[i])
    && b.lines[i].paidGross == SumReal(b.postings, PostedOn(composed[i].id))
    && b.lines[i].paidGross == SumReal(b.accounts, LeftOn(composed[i].id))
  }

  /** Paying parts that fit keeps the line. */
  lemma {:induction false} PaidLineKept(composed: seq<InvoiceLine>, lines: seq<LedgerLine>, parts: seq<BillingAllocation>, i: nat)
    requires ValidComposed(composed) && |lines| == |composed| && i < |composed| && LineIdsDiffer(lines) && LineKept(composed[i], lines[i])
    requires KeysDiffer(parts, AllocationKey()) && forall a :: a in parts ==> InRatio(composed, a)
    requires 0.0 <= lines[i].paidGross + On(parts, composed[i].id, PartGross()) <= composed[i].amounts.gross as real
    ensures |Pay(lines, parts)| == |composed| && LineKept(composed[i], Pay(lines, parts)[i])
    ensures Pay(lines, parts)[i].paidGross == lines[i].paidGross + On(parts, composed[i].id, PartGross())
  {
    var l := lines[i];
    PayAdds(lines, parts, i);
    assert Pay(lines, parts)[i] == l.(paidGross := l.paidGross + On(parts, l.lineId, PartGross()),
                                      paidNet := l.paidNet + On(parts, l.lineId, PartNet()),
                                      matchedExtraNet := l.matchedExtraNet + On(parts, l.lineId, PartMatched()));
    LinePaid(composed, i, l, parts);
  }

  lemma {:induction false} ReceiptLineKept(composed: seq<InvoiceLine>, lines: seq<LedgerLine>, q: AllocationInput, parts: seq<BillingAllocation>, i: nat)
    requires ValidComposed(composed) && |lines| == |composed| && i < |composed| && LineIdsDiffer(lines) && LineKept(composed[i], lines[i])
    requires q.direction == Receipt && q.original.None? && q.outstanding == Some(Open(composed, lines))
    requires Exact(q, composed, parts)
    ensures |Pay(lines, parts)| == |composed| && LineKept(composed[i], Pay(lines, parts)[i])
    ensures Pay(lines, parts)[i].paidGross == lines[i].paidGross + On(parts, composed[i].id, PartGross())
  {
    ReceiptFits(composed, lines, q, parts, i);
    PaidLineKept(composed, lines, parts, i);
  }

  lemma ReceiptLineBalanced(composed: seq<InvoiceLine>, b: Books, e: Status, observers: set<string>, q: AllocationInput, parts: seq<BillingAllocation>, i: nat)
    requires ValidComposed(composed) && |b.lines| == |composed| && i < |composed| && LineIdsDiffer(b.lines) && LineBalanced(composed, b, i)
    requires q.direction == Receipt && q.original.None? && q.outstanding == Some(Open(composed, b.lines))
    requires Exact(q, composed, parts)
    ensures |PostReceipt(b, e, observers, parts).lines| == |composed|
    ensures LineBalanced(composed, PostReceipt(b, e, observers, parts), i)
  {
    ReceiptLineKept(composed, b.lines, q, parts, i);
    SumPosted(b.postings, Posting(e.eventId, None, parts), PostedOn(composed[i].id));
    SumOpened(b.accounts, Account(e.eventId, parts), LeftOn(composed[i].id));
  }

  lemma AllLinesBalanced(composed: seq<InvoiceLine>, b: Books)
    requires Conserved(composed, b) && ValidComposed(composed)
    ensures LineIdsDiffer(b.lines) && forall i :: 0 <= i < |composed| ==> LineBalanced(composed, b, i)
  {
    IdsDiffer(composed, b.lines);
  }

  lemma ConservedFrom(composed: seq<InvoiceLine>, b: Books)
    requires |b.lines| == |composed| && forall i :: 0 <= i < |composed| ==> LineBalanced(composed, b, i)
    requires (forall a :: a in b.accounts ==> AccountKept(composed, a)) && AccountsBalanced(b) && MovementsKnown(b) && TotalKept(b)
    ensures Conserved(composed, b)
  {
    forall i | 0 <= i < |composed|
      ensures LineKept(composed[i], b.lines[i])
      ensures b.lines[i].paidGross == SumReal(b.postings, PostedOn(composed[i].id)) == SumReal(b.accounts, LeftOn(composed[i].id))
    {
      assert LineBalanced(composed, b, i);
    }
  }

  /** Posting a receipt conserves. */
  lemma ReceiptConserved(composed: seq<InvoiceLine>, b: Books, e: Status, observers: set<string>, q: AllocationInput, parts: seq<BillingAllocation>)
    requires ValidComposed(composed) && Conserved(composed, b) && NewMovement(b, e.eventId)
    requires q.direction == Receipt && q.original.None? && q.outstanding == Some(Open(composed, b.lines))
    requires Exact(q, composed, parts)
    ensures Conserved(composed, PostReceipt(b, e, observers, parts))
  {
    var after := PostReceipt(b, e, observers, parts);
    AllLinesBalanced(composed, b);
    PayKeepsLines(b.lines, parts);
    PartsProportionate(q, composed, parts);
    ReceiptAccounts(b, e, observers, parts);
    PostedTotalKept(composed, b, Posting(e.eventId, None, parts));
    forall i | 0 <= i < |composed|
      ensures LineBalanced(composed, after, i)
    {
      ReceiptLineBalanced(composed, b, e, observers, q, parts, i);
    }
    ConservedFrom(composed, after);
  }

  // ----- reversals -----

  /** Taking a reversal's parts from a remaining allocation adds them line by line. */
  lemma {:induction false} LessOn(remaining: seq<BillingAllocation>, taken: seq<BillingAllocation>, id: string, f: BillingAllocation -> real)
    requires Measure(f) && KeysDiffer(remaining, AllocationKey()) && KeysDiffer(taken, AllocationKey())
    requires PartFor(taken, id).Some? ==> PartFor(remaining, id).Some?
    ensures On(Map(remaining, Less(taken)), id, f) == On(remaining, id, f) + On(taken, id, f)
  {
    OnIsPart(taken, id, f);
    LessSum(remaining, taken, id, f);
    OnIsPart(remaining, id, f);
  }

  lemma {:induction false} LessSum(remaining: seq<BillingAllocation>, taken: seq<BillingAllocation>, id: string, f: BillingAllocation -> real)
    requires Measure(f) && KeysDiffer(remaining, AllocationKey())
    ensures On(Map(remaining, Less(taken)), id, f) ==
            On(remaining, id, f)
            + (if PartFor(remaining, id).Some? && PartFor(taken, id).Some? then f(PartFor(taken, id).value) else 0.0)
  {
    if remaining != [] {
      assert Map(remaining, Less(taken))[1..] == Map(remaining[1..], Less(taken));
      TailDiffers(remaining);
      LessSum(remaining[1..], taken, id, f);
      if remaining[0].lineId == id {
        OnAbsent(remaining[1..], id, f);
      }
    }
  }

  /** Two amounts in one ratio add up to an amount in it; it is not negative when its gross is not. */
  lemma RatioOfSum(g: real, n: real, dg: real, dn: real, net: real, gross: real)
    requires g * net == n * gross && dg * net == dn * gross && g + dg >= 0.0 && net >= 0.0 && gross > 0.0
    ensures (g + dg) * net == (n + dn) * gross && n + dn >= 0.0
  {
    RatioAdds(g, n, dg, dn, net, gross);
    NetNonneg(g + dg, n + dn, net, gross);
  }

  /** A remaining part less what is taken from it keeps its ratio and does not go below zero. */
  lemma {:induction false} LessProportionate(composed: seq<InvoiceLine>, r: BillingAllocation, parts: seq<BillingAllocation>)
    requires ValidComposed(composed) && Proportionate(composed, r)
    requires PartFor(parts, r.lineId).Some? ==>
               var t := PartFor(parts, r.lineId).value; t.lineId == r.lineId && InRatio(composed, t) && r.gross + t.gross >= 0.0
    ensures Proportionate(composed, Less(parts)(r))
  {
    LineOfFound(composed, r.lineId);
    var l := LineOf(composed, r.lineId).value;
    var t := PartFor(parts, r.lineId);
    if t.Some? {
      LineTaxed(composed, l);
      RatioOfSum(r.gross, r.net, t.value.gross, t.value.net, l.amounts.net as real, l.amounts.gross as real);
      TakenProportionate(composed, r, t.value, l, Less(parts)(r));
    } else {
      assert Less(parts)(r).gross == r.gross && Less(parts)(r).net == r.net && Less(parts)(r).matched == r.matched;
    }
  }

  lemma LineTaxed(composed: seq<InvoiceLine>, l: InvoiceLine)
    requires ValidComposed(composed) && l in composed
    ensures l.amounts.net as real >= 0.0 && l.amounts.gross as real > 0.0
  {
  }

  lemma {:induction false} TakenProportionate(composed: seq<InvoiceLine>, r: BillingAllocation, t: BillingAllocation, l: InvoiceLine, after: BillingAllocation)
    requires LineOf(composed, r.lineId) == Some(l) && after.lineId == r.lineId
    requires after.gross == r.gross + t.gross && after.net == r.net + t.net && after.matched == r.matched + t.matched
    requires r.gross + t.gross >= 0.0 && r.net + t.net >= 0.0
    requires (r.gross + t.gross) * l.amounts.net as real == (r.net + t.net) * l.amounts.gross as real
    requires r.matched == (if l.export_.Some? then r.net else 0.0) && t.matched == (if l.export_.Some? then t.net else 0.0)
    ensures Proportionate(composed, after)
  {
  }

  /** A reversal takes from a line at most what remains on it. */
  lemma {:induction false} TakenWithin(q: AllocationInput, composed: seq<InvoiceLine>, remaining: seq<BillingAllocation>, parts: seq<BillingAllocation>, i: nat)
    requires KeysDiffer(remaining, AllocationKey()) && i < |remaining|
    requires q.direction == Reversal && q.original == Some(remaining) && Exact(q, composed, parts)
    requires PartFor(parts, remaining[i].lineId).Some?
    ensures var t := PartFor(parts, remaining[i].lineId).value;
            t.lineId == remaining[i].lineId && InRatio(composed, t) && remaining[i].gross + t.gross >= 0.0
  {
    OnIsPart(parts, remaining[i].lineId, PartGross());
    PartForAt(remaining, i);
  }

  lemma LessKept(composed: seq<InvoiceLine>, q: AllocationInput, a: Account, parts: seq<BillingAllocation>)
    requires ValidComposed(composed) && AccountKept(composed, a)
    requires q.direction == Reversal && q.original == Some(a.remaining) && Exact(q, composed, parts)
    ensures AccountKept(composed, a.(remaining := Map(a.remaining, Less(parts))))
  {
    var after := Map(a.remaining, Less(parts));
    forall i | 0 <= i < |after|
      ensures Proportionate(composed, after[i])
    {
      assert a.remaining[i] in a.remaining;
      if PartFor(parts, a.remaining[i].lineId).Some? {
        TakenWithin(q, composed, a.remaining, parts, i);
      }
      LessProportionate(composed, a.remaining[i], parts);
    }
    LessKeepsKeys(a.remaining, parts);
  }

  lemma LessKeepsKeys(remaining: seq<BillingAllocation>, parts: seq<BillingAllocation>)
    requires KeysDiffer(remaining, AllocationKey())
    ensures KeysDiffer(Map(remaining, Less(parts)), AllocationKey())
  {
    var after := Map(remaining, Less(parts));
    forall i, j | 0 <= i < j < |after|
      ensures AllocationKey()(after[i]) != AllocationKey()(after[j])
    {
      assert AllocationKey()(remaining[i]) != AllocationKey()(remaining[j]);
    }
  }

  lemma {:induction false} PartForAt(parts: seq<BillingAllocation>, k: nat)
    requires k < |parts| && KeysDiffer(parts, AllocationKey())
    ensures PartFor(parts, parts[k].lineId) == Some(parts[k])
  {
    if k > 0 {
      TailDiffers(parts);
      assert parts[k] in parts[1..] by { assert parts[1..][k - 1] == parts[k]; }
      PartForAt(parts[1..], k - 1);
    }
  }

  lemma {:induction false} RemainingNonneg(composed: seq<InvoiceLine>, accounts: seq<Account>, id: string)
    requires forall a :: a in accounts ==> AccountKept(composed, a)
    ensures SumReal(accounts, LeftOn(id)) >= 0.0
  {
    forall a | a in accounts
      ensures LeftOn(id)(a) >= 0.0
    {
      SumRealNonneg(a.remaining, At(id, PartGross()));
    }
    SumRealNonneg(accounts, LeftOn(id));
  }

  lemma ReversalHolds(b: Books, e: Status, k: nat, parts: seq<BillingAllocation>, q: AllocationInput, composed: seq<InvoiceLine>,
                      f: BillingAllocation -> real)
    requires Measure(f) && k < |b.accounts| && AccountsHold(b, f) && MovementsKnown(b) && AccountKept(composed, b.accounts[k])
    requires q.direction == Reversal && q.original == Some(b.accounts[k].remaining) && Exact(q, composed, parts)
    ensures AccountsHold(PostReversal(b, e, k, parts), f)
  {
    var after := PostReversal(b, e, k, parts);
    var p := Posting(e.eventId, Some(b.accounts[k].movement), parts);
    forall j, id | 0 <= j < |after.accounts|
      ensures On(after.accounts[j].remaining, id, f) == SumReal(after.postings, FamilyOn(after.accounts[j].movement, id, f))
    {
      SumPosted(b.postings, p, FamilyOn(after.accounts[j].movement, id, f));
      assert On(b.accounts[j].remaining, id, f) == SumReal(b.postings, FamilyOn(b.accounts[j].movement, id, f));
      if j == k {
        ReversalOn(q, composed, b.accounts[k], parts, id, f);
      }
    }
  }

  lemma ReversalAccounts(b: Books, e: Status, k: nat, parts: seq<BillingAllocation>, q: AllocationInput, composed: seq<InvoiceLine>)
    requires k < |b.accounts| && AccountsBalanced(b) && MovementsKnown(b) && AccountKept(composed, b.accounts[k])
    requires q.direction == Reversal && q.original == Some(b.accounts[k].remaining) && Exact(q, composed, parts)
    ensures AccountsBalanced(PostReversal(b, e, k, parts)) && MovementsKnown(PostReversal(b, e, k, parts))
  {
    var after := PostReversal(b, e, k, parts);
    ReversalHolds(b, e, k, parts, q, composed, PartGross());
    ReversalHolds(b, e, k, parts, q, composed, PartNet());
    ReversalHolds(b, e, k, parts, q, composed, PartMatched());
    forall x | x in after.postings
      ensures exists j :: 0 <= j < |after.accounts| && after.accounts[j].movement == MovementOf(x)
    {
      if x in b.postings {
        var j :| 0 <= j < |b.accounts| && b.accounts[j].movement == MovementOf(x);
        assert after.accounts[j].movement == MovementOf(x);
      } else {
        assert after.accounts[k].movement == MovementOf(x);
      }
    }
  }

  lemma ReversalOn(q: AllocationInput, composed: seq<InvoiceLine>, a: Account, parts: seq<BillingAllocation>, id: string, f: BillingAllocation -> real)
    requires Measure(f) && AccountKept(composed, a) && q.direction == Reversal && q.original == Some(a.remaining) && Exact(q, composed, parts)
    ensures On(Map(a.remaining, Less(parts)), id, f) == On(a.remaining, id, f) + On(parts, id, f)
    ensures On(parts, id, PartGross()) <= 0.0
  {
    OnIsPart(parts, id, PartGross());
    LessOn(a.remaining, parts, id, f);
  }

  /** The accounts' side: what a reversal takes from a line of its account. */
  lemma ReversalSums(composed: seq<InvoiceLine>, b: Books, e: Status, k: nat, q: AllocationInput, parts: seq<BillingAllocation>, id: string)
    requires k < |b.accounts| && AccountKept(composed, b.accounts[k])
    requires q.direction == Reversal && q.original == Some(b.accounts[k].remaining) && Exact(q, composed, parts)
    ensures SumReal(PostReversal(b, e, k, parts).accounts, LeftOn(id)) == SumReal(b.accounts, LeftOn(id)) + On(parts, id, PartGross())
    ensures SumReal(PostReversal(b, e, k, parts).postings, PostedOn(id)) == SumReal(b.postings, PostedOn(id)) + On(parts, id, PartGross())
    ensures On(parts, id, PartGross()) <= 0.0
  {
    var taken := b.accounts[k].(remaining := Map(b.accounts[k].remaining, Less(parts)));
    ReversalOn(q, composed, b.accounts[k], parts, id, PartGross());
    SumPosted(b.postings, Posting(e.eventId, Some(b.accounts[k].movement), parts), PostedOn(id));
    SumRealUpdate(b.accounts, k, taken, LeftOn(id));
  }

  lemma ReversalLineBalanced(composed: seq<InvoiceLine>, b: Books, e: Status, k: nat, q: AllocationInput, parts: seq<BillingAllocation>, i: nat)
    requires ValidComposed(composed) && |b.lines| == |composed| && i < |composed| && LineIdsDiffer(b.lines) && LineBalanced(composed, b, i)
    requires k < |b.accounts| && AccountKept(composed, b.accounts[k])
    requires q.direction == Reversal && q.original == Some(b.accounts[k].remaining) && Exact(q, composed, parts)
    requires SumReal(PostReversal(b, e, k, parts).accounts, LeftOn(composed[i].id)) >= 0.0
    ensures |PostReversal(b, e, k, parts).lines| == |composed|
    ensures LineBalanced(composed, PostReversal(b, e, k, parts), i)
  {
    ReversalSums(composed, b, e, k, q, parts, composed[i].id);
    PaidLineKept(composed, b.lines, parts, i);
  }

  /** Posting a reversal conserves. */
  lemma ReversalConserved(composed: seq<InvoiceLine>, b: Books, e: Status, k: nat, q: AllocationInput, parts: seq<BillingAllocation>)
    requires ValidComposed(composed) && Conserved(composed, b) && k < |b.accounts|
    requires q.direction == Reversal && q.original == Some(b.accounts[k].remaining) && Exact(q, composed, parts)
    ensures Conserved(composed, PostReversal(b, e, k, parts))
  {
    var after := PostReversal(b, e, k, parts);
    AllLinesBalanced(composed, b);
    PayKeepsLines(b.lines, parts);
    LessKept(composed, q, b.accounts[k], parts);
    ReversalAccounts(b, e, k, parts, q, composed);
    PostedTotalKept(composed, b, Posting(e.eventId, Some(b.accounts[k].movement), parts));
    forall a | a in after.accounts
      ensures AccountKept(composed, a)
    {
      var j :| 0 <= j < |after.accounts| && after.accounts[j] == a;
      assert b.accounts[j] in b.accounts;
    }
    forall i | 0 <= i < |composed|
      ensures LineBalanced(composed, after, i)
    {
      RemainingNonneg(composed, after.accounts, composed[i].id);
      ReversalLineBalanced(composed, b, e, k, q, parts, i);
    }
    ConservedFrom(composed, after);
  }

  // ----- whole replays -----

  /** A receipt's movement is posted once: no other receipt in the run carries its identity. */
  ghost predicate ReceiptsDiffer(ordered: seq<Status>) {
    forall i, j :: 0 <= i < j < |ordered| && ordered[i].factType == Paid && ordered[j].factType == Paid ==>
      ordered[i].eventId != ordered[j].eventId
  }

  ghost predicate Admissible(e: Status) {
    forall d :: d in e.adjustments ==> ValidAmounts(d.amounts)
  }

  /** What one step adds to the postings: at most one, adding up to the fact's gross amount. */
  ghost predicate PostsWhole(b: Books, after: Books, e: Status) {
    || after.postings == b.postings
    || exists p :: after.postings == b.postings + [p] && WholePosting(p, e)
  }

  predicate WholePosting(p: Posting, e: Status) {
    && p.sourceRef == e.eventId && Settlement(e.factType)
    && (p.originalRef.Some? <==> e.factType == PaymentReversed)
    && SumReal(p.parts, PartGross()) == if e.factType == PaymentReversed then -(e.amount.gross as real) else e.amount.gross as real
  }

  lemma ReceiptStepConserved(clock: string -> real, invoice: Status, observers: map<string, set<string>>, b: Books, e: Status)
    requires Sized(invoice, b) && ValidComposed(invoice.composition.value.lines)
    requires Conserved(invoice.composition.value.lines, b) && Admissible(e)
    requires e.factType == Paid && NewMovement(b, e.eventId) && AllocateBilling(clock, InputOf(clock, invoice, b, e, None)).Ok?
    ensures var after := PostReceipt(b, e, ObserversOf(observers, e), AllocateBilling(clock, InputOf(clock, invoice, b, e, None)).value);
            Conserved(invoice.composition.value.lines, after) && PostsWhole(b, after, e)
  {
    var composed := invoice.composition.value.lines;
    var q := InputOf(clock, invoice, b, e, None);
    AllocatedExactly(clock, q);
    var parts := AllocateBilling(clock, q).value;
    ReceiptConserved(composed, b, e, ObserversOf(observers, e), q, parts);
    assert WholePosting(Posting(e.eventId, None, parts), e);
  }

  lemma ReversalStepConserved(clock: string -> real, invoice: Status, b: Books, e: Status, k: nat)
    requires Sized(invoice, b) && ValidComposed(invoice.composition.value.lines)
    requires Conserved(invoice.composition.value.lines, b) && Admissible(e)
    requires e.factType == PaymentReversed && k < |b.accounts| && AllocateBilling(clock, InputOf(clock, invoice, b, e, Some(k))).Ok?
    ensures var after := PostReversal(b, e, k, AllocateBilling(clock, InputOf(clock, invoice, b, e, Some(k))).value);
            Conserved(invoice.composition.value.lines, after) && PostsWhole(b, after, e)
  {
    var composed := invoice.composition.value.lines;
    var q := InputOf(clock, invoice, b, e, Some(k));
    AllocatedExactly(clock, q);
    var parts := AllocateBilling(clock, q).value;
    ReversalConserved(composed, b, e, k, q, parts);
    assert WholePosting(Posting(e.eventId, Some(b.accounts[k].movement), parts), e);
  }

  lemma StepConserved(clock: string -> real, invoice: Status, observers: map<string, set<string>>, b: Books, e: Status)
    requires Sized(invoice, b) && ValidComposed(invoice.composition.value.lines)
    requires Conserved(invoice.composition.value.lines, b) && Admissible(e)
    requires e.factType == Paid ==> NewMovement(b, e.eventId)
    requires Step(clock, invoice, observers, b, e).Ok?
    ensures var after := Step(clock, invoice, observers, b, e).value;
            Conserved(invoice.composition.value.lines, after) && PostsWhole(b, after, e)
  {
    if e.factType == Credited || e.factType == Rejected {
      CreditConserved(clock, invoice.composition.value.lines, b, e);
    } else if e.factType == Paid {
      ReceiptStepConserved(clock, invoice, observers, b, e);
    } else if Reversed(b, e).Some? {
      ReversalStepConserved(clock, invoice, b, e, Reversed(b, e).value);
    }
  }

  // every posting of the run comes whole from one fact
  ghost predicate PostedFrom(postings: seq<Posting>, facts: seq<Status>) {
    forall p :: p in postings ==> exists e :: e in facts && WholePosting(p, e)
  }

  lemma StepMovements(clock: string -> real, invoice: Status, observers: map<string, set<string>>, b: Books, e: Status, movement: string)
    requires Sized(invoice, b) && Step(clock, invoice, observers, b, e).Ok?
    requires NewMovement(b, movement) && !(e.factType == Paid && e.eventId == movement)
    ensures NewMovement(Step(clock, invoice, observers, b, e).value, movement)
  {
  }

  /** A run that succeeds conserves, and posts every fact whole or not at all. */
  lemma {:induction false} RunConserved(clock: string -> real, invoice: Status, observers: map<string, set<string>>, b: Books, ordered: seq<Status>)
    requires Sized(invoice, b) && ValidComposed(invoice.composition.value.lines)
    requires Conserved(invoice.composition.value.lines, b) && forall e :: e in ordered ==> Admissible(e)
    requires ReceiptsDiffer(ordered) && forall e :: e in ordered && e.factType == Paid ==> NewMovement(b, e.eventId)
    requires Run(clock, invoice, observers, b, ordered).Ok?
    ensures var after := Run(clock, invoice, observers, b, ordered).value;
            && Conserved(invoice.composition.value.lines, after)
            && |after.postings| >= |b.postings| && after.postings[..|b.postings|] == b.postings
            && PostedFrom(after.postings[|b.postings|..], ordered)
    decreases |ordered|
  {
    if ordered != [] {
      var e, rest := ordered[0], ordered[1..];
      assert e in ordered && forall x :: x in rest ==> x in ordered;
      StepConserved(clock, invoice, observers, b, e);
      var next := Step(clock, invoice, observers, b, e).value;
      forall x | x in rest && x.factType == Paid
        ensures NewMovement(next, x.eventId)
      {
        var j :| 1 <= j < |ordered| && ordered[j] == x;
        StepMovements(clock, invoice, observers, b, e, x.eventId);
      }
      RunConserved(clock, invoice, observers, next, rest);
      var after := Run(clock, invoice, observers, next, rest).value;
      PostingsExtend(b.postings, next.postings, after.postings, e, rest, ordered);
    }
  }

  lemma PostingsExtend(p0: seq<Posting>, p1: seq<Posting>, p2: seq<Posting>, e: Status, rest: seq<Status>, ordered: seq<Status>)
    requires ordered != [] && e == ordered[0] && rest == ordered[1..]
    requires p1 == p0 || exists p :: p1 == p0 + [p] && WholePosting(p, e)
    requires |p2| >= |p1| && p2[..|p1|] == p1 && PostedFrom(p2[|p1|..], rest)
    ensures |p2| >= |p0| && p2[..|p0|] == p0 && PostedFrom(p2[|p0|..], ordered)
  {
    assert p2[..|p0|] == p1[..|p0|] == p0;
    assert p2[|p0|..] == p1[|p0|..] + p2[|p1|..];
    forall p | p in p2[|p0|..]
      ensures exists x :: x in ordered && WholePosting(p, x)
    {
      if p in p2[|p1|..] {
        var x :| x in rest && WholePosting(p, x);
        assert x in ordered;
      } else {
        assert p in p1[|p0|..] && e in ordered;
      }
    }
  }

  // ----- the ledger -----

  lemma {:induction false} ObservedAdmissible(ms: seq<Movement>, seen: seq<Status>)
    requires BillingOrder.Grouped(ms, seen) && forall e :: e in seen ==> Admissible(e) && Settlement(e.factType)
    ensures forall m :: m in ms ==> Admissible(Economic()(m)) && Settlement(Economic()(m).factType)
  {
    forall m | m in ms
      ensures Admissible(Economic()(m)) && Settlement(Economic()(m).factType)
    {
      var k :| 0 <= k < |ms| && ms[k] == m;
      assert ms[k].event in seen;
    }
  }

  lemma {:induction false} EconomicDiffer(ms: seq<Movement>)
    requires BillingOrder.DistinctIds(ms)
    ensures Distinct(Map(ms, Economic()))
    ensures forall x, y :: x in Map(ms, Economic()) && y in Map(ms, Economic()) && x.eventId == y.eventId ==> x == y
  {
    var es := Map(ms, Economic());
    forall i, j | 0 <= i < j < |es|
      ensures es[i].eventId != es[j].eventId
    {
      assert ms[i].id != ms[j].id;
    }
  }

  /** In the economic order every receipt still has its own movement identity. */
  lemma {:induction false} OrderedReceipts(clock: string -> real, others: seq<Status>, ms: seq<Movement>)
    requires BillingOrder.DistinctIds(ms)
    requires forall e :: e in others ==> !Settlement(e.factType)
    ensures ReceiptsDiffer(Ordered(clock, others, ms))
  {
    var es := Map(ms, Economic());
    var facts, ordered := others + es, Ordered(clock, others, ms);
    EconomicDiffer(ms);
    Sorting.SortPermutes(facts, ByInstant(clock));
    MembersPermuted(facts, ordered);
    forall i, j | 0 <= i < j < |ordered| && ordered[i].factType == Paid && ordered[j].factType == Paid
      ensures ordered[i].eventId != ordered[j].eventId
    {
      assert ordered[i] in facts && ordered[j] in facts;
      if ordered[i].eventId == ordered[j].eventId {
        CountTwo(ordered, i, j);
        OnlyInSecond(others, es, ordered[i]);
        DistinctCount(es, ordered[i]);
      }
    }
  }

  lemma {:induction false} OnlyInSecond(a: seq<Status>, b: seq<Status>, x: Status)
    requires x !in a
    ensures multiset(a + b)[x] == multiset(b)[x]
  {
    assert x !in multiset(a);
  }

  lemma {:induction false} FactsAdmissible(clock: string -> real, pending: seq<Status>, ms: seq<Movement>)
    requires forall e :: e in pending ==> Admissible(e)
    requires BillingOrder.Grouped(ms, Filter(pending, IsIdentified()))
    ensures forall e :: e in Ordered(clock, Filter(pending, IsOther()), ms) ==> Admissible(e)
  {
    var facts := Filter(pending, IsOther()) + Map(ms, Economic());
    ObservedAdmissible(ms, Filter(pending, IsIdentified()));
    Sorting.SortPermutes(facts, ByInstant(clock));
    MembersPermuted(facts, Ordered(clock, Filter(pending, IsOther()), ms));
  }

  lemma {:induction false} FamilyWithin(composed: seq<InvoiceLine>, b: Books, k: nat, id: string)
    requires Conserved(composed, b) && k < |b.accounts|
    ensures SumReal(b.postings, FamilyOn(b.accounts[k].movement, id, PartGross())) >= 0.0
  {
    assert AccountKept(composed, b.accounts[k]);
    assert On(b.accounts[k].remaining, id, PartGross()) == SumReal(b.postings, FamilyOn(b.accounts[k].movement, id, PartGross()));
    SumRealNonneg(b.accounts[k].remaining, At(id, PartGross()));
  }

  /** What every settled ledger satisfies, in its own terms. */
  ghost predicate LedgerConserved(composed: seq<InvoiceLine>, ledger: Ledger) {
    && |ledger.lines| == |composed|
    && (forall i :: 0 <= i < |composed| ==>
          LineKept(composed[i], ledger.lines[i]) && ledger.lines[i].paidGross == SumReal(ledger.postings, PostedOn(composed[i].id)))
    && ledger.totals == TotalsOf(ledger.lines) && ledger.totals.paidGross == SumReal(ledger.postings, PostedTotal())
    && (forall p, id :: p in ledger.postings ==> SumReal(ledger.postings, FamilyOn(MovementOf(p), id, PartGross())) >= 0.0)
  }

  lemma {:induction false} BooksToLedger(composed: seq<InvoiceLine>, b: Books)
    requires Conserved(composed, b)
    ensures LedgerConserved(composed, LedgerOf(b))
  {
    forall p, id | p in b.postings
      ensures SumReal(b.postings, FamilyOn(MovementOf(p), id, PartGross())) >= 0.0
    {
      var k :| 0 <= k < |b.accounts| && b.accounts[k].movement == MovementOf(p);
      FamilyWithin(composed, b, k, id);
    }
  }

  /**
   * Conservation. In a settled ledger every line's paid gross is the sum of what was posted on it and
   * lies between zero and the billed gross, its net and matched amounts keep the line's ratio, credits
   * stay within each billed amount, the total paid is exactly the receipts posted less the reversals
   * posted, each posted whole, and no movement is ever reversed beyond what it paid on any line.
   */
  lemma {:induction false} SettledConserved(clock: string -> real, invoice: Status, pending: seq<Status>)
    requires invoice.composition.Some? && ValidComposed(invoice.composition.value.lines)
    requires forall e :: e in pending ==> Admissible(e)
    requires Settle(clock, invoice, pending).Ok?
    ensures var ledger := Settle(clock, invoice, pending).value;
            && LedgerConserved(invoice.composition.value.lines, ledger)
            && PostedFrom(ledger.postings, Ordered(clock, Filter(pending, IsOther()), ObserveAll([], Filter(pending, IsIdentified())).value))
  {
    var composed := invoice.composition.value.lines;
    var seen := Filter(pending, IsIdentified());
    assert [] + seen == seen;
    BillingOrder.ObserveAllMeaning([], [], seen);
    var ms := ObserveAll([], seen).value;
    var ordered := Ordered(clock, Filter(pending, IsOther()), ms);
    var holds := Map(Filter(pending, IsUnidentified()), UnidentifiedHold());
    OrderedReceipts(clock, Filter(pending, IsOther()), ms);
    FactsAdmissible(clock, pending, ms);
    OpeningConserved(composed, holds);
    RunConserved(clock, invoice, Observers(ms), OpeningBooks(composed, holds), ordered);
    var books := Run(clock, invoice, Observers(ms), OpeningBooks(composed, holds), ordered).value;
    BooksToLedger(composed, books);
    assert books.postings[0..] == books.postings;
  }

  // ----- shared balances -----

  ghost predicate Apart(observers: map<string, set<string>>) {
    forall m, n :: m in observers && n in observers && m != n ==> observers[m] !! observers[n]
  }

  /** Every observation id of a received movement reaches that movement's one account. */
  ghost predicate Together(observers: map<string, set<string>>, b: Books) {
    forall k, o :: 0 <= k < |b.accounts| && b.accounts[k].movement in observers && o in observers[b.accounts[k].movement] ==>
      o in b.owner && b.owner[o] == k
  }

  /** A settlement fact carries its economic identity. */
  ghost predicate Identified(e: Status) {
    Settlement(e.factType) ==> e.reconciliation == Some(e.eventId)
  }

  lemma {:induction false} StepTogether(clock: string -> real, invoice: Status, observers: map<string, set<string>>, b: Books, e: Status)
    requires Sized(invoice, b) && Apart(observers) && Together(observers, b) && Identified(e)
    requires e.factType == Paid ==> NewMovement(b, e.eventId)
    requires Step(clock, invoice, observers, b, e).Ok?
    ensures Together(observers, Step(clock, invoice, observers, b, e).value)
  {
    var after := Step(clock, invoice, observers, b, e).value;
    forall k, o | 0 <= k < |after.accounts| && after.accounts[k].movement in observers && o in observers[after.accounts[k].movement]
      ensures o in after.owner && after.owner[o] == k
    {
      if k < |b.accounts| {
        assert after.accounts[k].movement == b.accounts[k].movement;
        assert o in b.owner && b.owner[o] == k;
      }
    }
  }

  /**
   * Reversal balances under aliasing. Through a whole run, all observation ids of one movement reach
   * one account, and that account holds the original allocation plus every reversal posted so far.
   */
  lemma {:induction false} RunShares(clock: string -> real, invoice: Status, observers: map<string, set<string>>, b: Books, ordered: seq<Status>)
    requires Sized(invoice, b) && ValidComposed(invoice.composition.value.lines)
    requires Conserved(invoice.composition.value.lines, b) && Apart(observers) && Together(observers, b)
    requires forall e :: e in ordered ==> Admissible(e) && Identified(e)
    requires ReceiptsDiffer(ordered) && forall e :: e in ordered && e.factType == Paid ==> NewMovement(b, e.eventId)
    requires Run(clock, invoice, observers, b, ordered).Ok?
    ensures var after := Run(clock, invoice, observers, b, ordered).value;
            Together(observers, after) && AccountsBalanced(after)
    decreases |ordered|
  {
    if ordered != [] {
      var e, rest := ordered[0], ordered[1..];
      assert e in ordered && forall x :: x in rest ==> x in ordered;
      StepConserved(clock, invoice, observers, b, e);
      StepTogether(clock, invoice, observers, b, e);
      var next := Step(clock, invoice, observers, b, e).value;
      forall x | x in rest && x.factType == Paid
        ensures NewMovement(next, x.eventId)
      {
        var j :| 1 <= j < |ordered| && ordered[j] == x;
        StepMovements(clock, invoice, observers, b, e, x.eventId);
      }
      RunShares(clock, invoice, observers, next, rest);
    }
  }

  /** Facts with different event ids give movements with different observations. */
  lemma {:induction false} ObserversApart(ms: seq<Movement>, seen: seq<Status>)
    requires BillingOrder.Grouped(ms, seen)
    requires forall x, y :: x in seen && y in seen && x.eventId == y.eventId ==> x == y
    ensures Apart(Observers(ms))
  {
    var observers := Observers(ms);
    forall m, n | m in observers && n in observers && m != n
      ensures observers[m] !! observers[n]
    {
      BillingOrder.GroupedObservers(ms, seen, m);
      BillingOrder.GroupedObservers(ms, seen, n);
    }
  }
}
