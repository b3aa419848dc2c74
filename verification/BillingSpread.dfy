/** How a settled ledger spreads every receipt and reversal over the lines, read off the facts and the postings before it. */
module BillingSpread {
  import opened Prelude
  import opened Sorting
  import opened Billing
  import opened ReceiptAllocation
  import opened BillingLedger
  import opened BillingOrder
  import opened BillingConservation
  import opened BillingCredits
  import opened BillingPostings

  // ----- one allocation -----

  /** What is open on the line, when it existed by then. */
  function Taking(clock: string -> real, at: real, open: InvoiceLine -> real): InvoiceLine -> real {
    (c: InvoiceLine) => if clock(c.existedAt) <= at && open(c) > 0.0 then open(c) else 0.0
  }

  /**
   * The parts follow the explicit shares, or else give every line its part of the amount in proportion
   * to what is open on it. Reversals are negative.
   */
  ghost predicate SpreadOver(clock: string -> real, composed: seq<InvoiceLine>, parts: seq<BillingAllocation>, direction: Direction,
                             explicit: Option<seq<ExplicitShare>>, at: real, gross: real, open: InvoiceLine -> real) {
    forall c :: c in composed ==>
      LineSpread(c, On(parts, c.id, PartGross()), direction, explicit, gross, Taking(clock, at, open)(c), SumReal(composed, Taking(clock, at, open)))
  }

  ghost predicate LineSpread(c: InvoiceLine, given: real, direction: Direction, explicit: Option<seq<ExplicitShare>>, gross: real, taking: real, total: real) {
    var signed := if direction == Reversal then -given else given;
    if explicit.Some? then signed == SumReal(explicit.value, AskedOn(c.id)) else signed * total == gross * taking
  }

  function RemainingFn(q: AllocationInput): InvoiceLine -> real {
    (c: InvoiceLine) => RemainingOn(q, c.id)
  }

  lemma {:induction false} GivenIs(composed: seq<InvoiceLine>, raw: seq<LineAllocation>, id: string)
    ensures On(Map(raw, Matched(composed)), id, PartGross()) == SumReal(raw, PartGrossOn(id))
  {
    SumRealMap(raw, Matched(composed), At(id, PartGross()), PartGrossOn(id));
  }

  lemma {:induction false} TakingIs(clock: string -> real, q: AllocationInput, composed: seq<InvoiceLine>, r: Request)
    requires r == RequestOf(clock, q, composed)
    ensures forall c :: BalanceOf(r)(ReceiptLineOf(clock, q)(c)) == Taking(clock, q.effectiveAt, RemainingFn(q))(c)
    ensures SumReal(r.lines, BalanceOf(r)) == SumReal(composed, Taking(clock, q.effectiveAt, RemainingFn(q)))
  {
    SumRealMap(composed, ReceiptLineOf(clock, q), BalanceOf(r), Taking(clock, q.effectiveAt, RemainingFn(q)));
  }

  lemma ExplicitLine(r: Request, c: InvoiceLine, given: real, taking: real, total: real)
    requires Allocate(r).Some? && r.explicit.Some? && given == SumReal(Allocate(r).value, PartGrossOn(c.id))
    ensures LineSpread(c, given, r.direction, r.explicit, r.receipt, taking, total)
  {
    ExplicitSpread(r, c.id);
  }

  lemma ProRataLine(c: InvoiceLine, r: Request, given: real, taking: real, total: real)
    requires r.explicit.None? && Signed(r, given) * total == r.receipt * taking
    ensures LineSpread(c, given, r.direction, r.explicit, r.receipt, taking, total)
  {
  }

  lemma RequestProRata(r: Request, l: ReceiptLine, c: InvoiceLine, given: real, taking: real, total: real)
    requires Allocate(r).Some? && r.explicit.None? && l in r.lines && l.id == c.id && taking == BalanceOf(r)(l)
    requires given == SumReal(Allocate(r).value, PartGrossOn(l.id)) && total == SumReal(r.lines, BalanceOf(r))
    ensures LineSpread(c, given, r.direction, r.explicit, r.receipt, taking, total)
  {
    ProRataSpread(r, l, given, taking, total);
    ProRataLine(c, r, given, taking, total);
  }

  lemma RequestSpreads(r: Request, l: ReceiptLine, c: InvoiceLine, given: real, taking: real, total: real)
    requires Allocate(r).Some? && l in r.lines && l.id == c.id && taking == BalanceOf(r)(l)
    requires given == SumReal(Allocate(r).value, PartGrossOn(l.id)) && total == SumReal(r.lines, BalanceOf(r))
    ensures LineSpread(c, given, r.direction, r.explicit, r.receipt, taking, total)
  {
    if r.explicit.Some? {
      ExplicitLine(r, c, given, taking, total);
    } else {
      RequestProRata(r, l, c, given, taking, total);
    }
  }

  lemma {:induction false} LineSpreads(clock: string -> real, q: AllocationInput, composed: seq<InvoiceLine>, k: nat, raw: seq<LineAllocation>, given: real, total: real)
    requires k < |composed| && Allocate(RequestOf(clock, q, composed)) == Some(raw)
    requires given == On(Map(raw, Matched(composed)), composed[k].id, PartGross())
    requires total == SumReal(composed, Taking(clock, q.effectiveAt, RemainingFn(q)))
    ensures LineSpread(composed[k], given, q.direction, q.explicit, q.gross, Taking(clock, q.effectiveAt, RemainingFn(q))(composed[k]), total)
  {
    var r, c := RequestOf(clock, q, composed), composed[k];
    GivenIs(composed, raw, c.id);
    TakingIs(clock, q, composed, r);
    assert r.lines[k] in r.lines && r.lines[k] == ReceiptLineOf(clock, q)(c);
    RequestSpreads(r, r.lines[k], c, given, Taking(clock, q.effectiveAt, RemainingFn(q))(c), total);
  }

  lemma AllocationSpreads(clock: string -> real, q: AllocationInput)
    requires AllocateBilling(clock, q).Ok?
    ensures SpreadOver(clock, q.invoice.composition.value.lines, AllocateBilling(clock, q).value, q.direction, q.explicit,
                       q.effectiveAt, q.gross, RemainingFn(q))
  {
    var composed := q.invoice.composition.value.lines;
    var raw := Allocate(RequestOf(clock, q, composed)).value;
    forall c | c in composed
      ensures LineSpread(c, On(AllocateBilling(clock, q).value, c.id, PartGross()), q.direction, q.explicit, q.gross,
                         Taking(clock, q.effectiveAt, RemainingFn(q))(c), SumReal(composed, Taking(clock, q.effectiveAt, RemainingFn(q))))
    {
      var k :| 0 <= k < |composed| && composed[k] == c;
      LineSpreads(clock, q, composed, k, raw, On(Map(raw, Matched(composed)), c.id, PartGross()),
                  SumReal(composed, Taking(clock, q.effectiveAt, RemainingFn(q))));
    }
  }

  /** Only what the invoice's lines can take matters. */
  lemma SpreadAgrees(clock: string -> real, composed: seq<InvoiceLine>, parts: seq<BillingAllocation>, direction: Direction,
                     explicit: Option<seq<ExplicitShare>>, at: real, gross: real, open: InvoiceLine -> real, other: InvoiceLine -> real)
    requires SpreadOver(clock, composed, parts, direction, explicit, at, gross, open)
    requires forall c :: c in composed ==> Taking(clock, at, open)(c) == Taking(clock, at, other)(c)
    ensures SpreadOver(clock, composed, parts, direction, explicit, at, gross, other)
  {
    SumRealAgree(composed, Taking(clock, at, open), Taking(clock, at, other));
  }

  // ----- one posting -----

  /** What a fact credits on the line before the instant. */
  function CreditedBefore(clock: string -> real, invoiceId: string, id: string, at: real): Status -> int {
    (e: Status) => if clock(e.effectiveAt) < at then CreditsGross(invoiceId, id)(e) else 0
  }

  /** Billed, less the credits before the instant and the earlier postings. */
  function OpenBefore(clock: string -> real, invoiceId: string, facts: seq<Status>, earlier: seq<Posting>, at: real): InvoiceLine -> real {
    (c: InvoiceLine) =>
      c.amounts.gross as real - SumBy(facts, CreditedBefore(clock, invoiceId, c.id, at)) as real - SumReal(earlier, PostedOn(c.id))
  }

  /** What the earlier postings left of a movement: its receipt less its reversals. */
  function LeftBefore(earlier: seq<Posting>, movement: string): InvoiceLine -> real {
    (c: InvoiceLine) => SumReal(earlier, FamilyOn(movement, c.id, PartGross()))
  }

  /** A receipt is spread over what is open on the invoice, a reversal over what is left of its receipt. */
  ghost predicate PostingSpread(clock: string -> real, invoice: Status, facts: seq<Status>, earlier: seq<Posting>, e: Status, p: Posting)
    requires invoice.composition.Some?
  {
    var at, gross := clock(e.effectiveAt), e.amount.gross as real;
    if e.factType == Paid then
      SpreadOver(clock, invoice.composition.value.lines, p.parts, Receipt, e.explicit, at, gross, OpenBefore(clock, invoice.eventId, facts, earlier, at))
    else
      && p.originalRef.Some?
      && SpreadOver(clock, invoice.composition.value.lines, p.parts, Reversal, e.explicit, at, gross, LeftBefore(earlier, p.originalRef.value))
  }

  ghost predicate CreditsTold(invoiceId: string, done: seq<Status>, lines: seq<LedgerLine>) {
    forall l :: l in lines ==> l.creditedGross == SumBy(done, CreditsGross(invoiceId, l.lineId)) as real
  }

  lemma {:induction false} AllBefore(clock: string -> real, invoiceId: string, id: string, done: seq<Status>, e: Status)
    requires Follows(clock, done, e)
    ensures SumBy(done + [e], CreditedBefore(clock, invoiceId, id, clock(e.effectiveAt))) == SumBy(done, CreditsGross(invoiceId, id))
  {
    var f := CreditedBefore(clock, invoiceId, id, clock(e.effectiveAt));
    SumByAppend(done, [e], f);
    assert [e][1..] == [];
    SumByAgree(done, f, CreditsGross(invoiceId, id));
  }

  lemma {:induction false} NoneLater(clock: string -> real, invoiceId: string, id: string, done: seq<Status>, e: Status, at: real)
    requires at <= clock(e.effectiveAt)
    ensures SumBy(done + [e], CreditedBefore(clock, invoiceId, id, at)) == SumBy(done, CreditedBefore(clock, invoiceId, id, at))
  {
    SumByAppend(done, [e], CreditedBefore(clock, invoiceId, id, at));
    assert [e][1..] == [];
  }

  lemma OpenIs(clock: string -> real, invoice: Status, done: seq<Status>, b: Books, e: Status, k: nat)
    requires Sized(invoice, b) && Conserved(invoice.composition.value.lines, b) && LineIdsDiffer(b.lines) && k < |b.lines|
    requires CreditsTold(invoice.eventId, done, b.lines) && Follows(clock, done, e)
    ensures var c := invoice.composition.value.lines[k];
            RemainingOn(InputOf(clock, invoice, b, e, None), c.id)
            == Positive(OpenBefore(clock, invoice.eventId, done + [e], b.postings, clock(e.effectiveAt))(c))
  {
    var composed := invoice.composition.value.lines;
    OpenOn(composed, b.lines, k);
    AllBefore(clock, invoice.eventId, composed[k].id, done, e);
    assert b.lines[k] in b.lines && LineKept(composed[k], b.lines[k]);
  }

  lemma OpenTaken(clock: string -> real, invoice: Status, done: seq<Status>, b: Books, e: Status)
    requires Sized(invoice, b) && ValidComposed(invoice.composition.value.lines) && Conserved(invoice.composition.value.lines, b)
    requires CreditsTold(invoice.eventId, done, b.lines) && Follows(clock, done, e)
    ensures forall c :: c in invoice.composition.value.lines ==>
              Taking(clock, clock(e.effectiveAt), RemainingFn(InputOf(clock, invoice, b, e, None)))(c)
              == Taking(clock, clock(e.effectiveAt), OpenBefore(clock, invoice.eventId, done + [e], b.postings, clock(e.effectiveAt)))(c)
  {
    var composed := invoice.composition.value.lines;
    IdsDiffer(composed, b.lines);
    forall c | c in composed
      ensures RemainingOn(InputOf(clock, invoice, b, e, None), c.id)
              == Positive(OpenBefore(clock, invoice.eventId, done + [e], b.postings, clock(e.effectiveAt))(c))
    {
      var k :| 0 <= k < |composed| && composed[k] == c;
      OpenIs(clock, invoice, done, b, e, k);
    }
  }

  lemma ReceiptSpreads(clock: string -> real, invoice: Status, done: seq<Status>, b: Books, e: Status, p: Posting)
    requires Sized(invoice, b) && ValidComposed(invoice.composition.value.lines) && Conserved(invoice.composition.value.lines, b)
    requires CreditsTold(invoice.eventId, done, b.lines) && Follows(clock, done, e) && e.factType == Paid
    requires AllocateBilling(clock, InputOf(clock, invoice, b, e, None)) == Ok(p.parts)
    ensures PostingSpread(clock, invoice, done + [e], b.postings, e, p)
  {
    var q, at := InputOf(clock, invoice, b, e, None), clock(e.effectiveAt);
    AllocationSpreads(clock, q);
    OpenTaken(clock, invoice, done, b, e);
    SpreadAgrees(clock, invoice.composition.value.lines, p.parts, Receipt, e.explicit, at, e.amount.gross as real, RemainingFn(q),
                 OpenBefore(clock, invoice.eventId, done + [e], b.postings, at));
  }

  lemma LeftIs(clock: string -> real, invoice: Status, b: Books, e: Status, k: nat, c: InvoiceLine)
    requires Sized(invoice, b) && Conserved(invoice.composition.value.lines, b) && k < |b.accounts|
    ensures RemainingOn(InputOf(clock, invoice, b, e, Some(k)), c.id) == LeftBefore(b.postings, b.accounts[k].movement)(c)
  {
    var a := b.accounts[k];
    assert a in b.accounts && AccountKept(invoice.composition.value.lines, a);
    OnIsPart(a.remaining, c.id, PartGross());
    assert On(a.remaining, c.id, PartGross()) == SumReal(b.postings, FamilyOn(a.movement, c.id, PartGross()));
  }

  lemma ReversalSpreads(clock: string -> real, invoice: Status, done: seq<Status>, b: Books, e: Status, k: nat, p: Posting)
    requires Sized(invoice, b) && Conserved(invoice.composition.value.lines, b) && k < |b.accounts| && e.factType == PaymentReversed
    requires AllocateBilling(clock, InputOf(clock, invoice, b, e, Some(k))) == Ok(p.parts) && p.originalRef == Some(b.accounts[k].movement)
    ensures PostingSpread(clock, invoice, done + [e], b.postings, e, p)
  {
    var composed, q, at := invoice.composition.value.lines, InputOf(clock, invoice, b, e, Some(k)), clock(e.effectiveAt);
    var left := LeftBefore(b.postings, b.accounts[k].movement);
    AllocationSpreads(clock, q);
    forall c | c in composed
      ensures Taking(clock, at, RemainingFn(q))(c) == Taking(clock, at, left)(c)
    {
      LeftIs(clock, invoice, b, e, k, c);
    }
    SpreadAgrees(clock, composed, p.parts, Reversal, e.explicit, at, e.amount.gross as real, RemainingFn(q), left);
  }

  // ----- all postings -----

  /** Every settlement fact's posting is spread as the facts and the postings before it ask. */
  ghost predicate SpreadTold(clock: string -> real, invoice: Status, done: seq<Status>, postings: seq<Posting>)
    requires invoice.composition.Some?
  {
    forall j, e :: 0 <= j < |postings| && e in done && Settlement(e.factType) && e.eventId == postings[j].sourceRef ==>
      PostingSpread(clock, invoice, done, postings[..j], e, postings[j])
  }

  predicate SourceKnown(done: seq<Status>, p: Posting) {
    exists e :: e in done && Settlement(e.factType) && e.eventId == p.sourceRef
  }

  lemma SpreadStays(clock: string -> real, invoice: Status, done: seq<Status>, e: Status, earlier: seq<Posting>, d: Status, p: Posting)
    requires invoice.composition.Some? && Follows(clock, done, e) && d in done
    requires PostingSpread(clock, invoice, done, earlier, d, p)
    ensures PostingSpread(clock, invoice, done + [e], earlier, d, p)
  {
    if d.factType == Paid {
      var composed, at := invoice.composition.value.lines, clock(d.effectiveAt);
      var open, after := OpenBefore(clock, invoice.eventId, done, earlier, at), OpenBefore(clock, invoice.eventId, done + [e], earlier, at);
      forall c | c in composed
        ensures Taking(clock, at, open)(c) == Taking(clock, at, after)(c)
      {
        NoneLater(clock, invoice.eventId, c.id, done, e, at);
      }
      SpreadAgrees(clock, composed, p.parts, Receipt, d.explicit, at, d.amount.gross as real, open, after);
    }
  }

  /** The facts done tell the credits and how every posting was spread. */
  ghost predicate Replayed(clock: string -> real, invoice: Status, done: seq<Status>, b: Books)
    requires invoice.composition.Some?
  {
    && LineIdsDiffer(b.lines) && CreditsTold(invoice.eventId, done, b.lines) && SpreadTold(clock, invoice, done, b.postings)
    && forall p :: p in b.postings ==> SourceKnown(done, p)
  }

  lemma SourcesStay(done: seq<Status>, e: Status, postings: seq<Posting>)
    requires forall p :: p in postings ==> SourceKnown(done, p)
    ensures forall p :: p in postings ==> SourceKnown(done + [e], p)
  {
    forall p | p in postings
      ensures SourceKnown(done + [e], p)
    {
      var d :| d in done && Settlement(d.factType) && d.eventId == p.sourceRef;
      assert d in done + [e];
    }
  }

  lemma SpreadsStay(clock: string -> real, invoice: Status, done: seq<Status>, e: Status, postings: seq<Posting>)
    requires invoice.composition.Some? && Follows(clock, done, e) && SpreadTold(clock, invoice, done, postings)
    requires forall p :: p in postings ==> SourceKnown(done, p)
    ensures SpreadTold(clock, invoice, done + [e], postings)
  {
    forall j, d | 0 <= j < |postings| && d in done + [e] && Settlement(d.factType) && d.eventId == postings[j].sourceRef
      ensures PostingSpread(clock, invoice, done + [e], postings[..j], d, postings[j])
    {
      assert postings[j] in postings;
      var x :| x in done && Settlement(x.factType) && x.eventId == postings[j].sourceRef;
      assert d in done;
      SpreadStays(clock, invoice, done, e, postings[..j], d, postings[j]);
    }
  }

  lemma SpreadsGrow(clock: string -> real, invoice: Status, done: seq<Status>, e: Status, postings: seq<Posting>, p: Posting)
    requires invoice.composition.Some? && Follows(clock, done, e) && SpreadTold(clock, invoice, done, postings) && Settlement(e.factType)
    requires forall q :: q in postings ==> SourceKnown(done, q)
    requires p.sourceRef == e.eventId && PostingSpread(clock, invoice, done + [e], postings, e, p)
    ensures SpreadTold(clock, invoice, done + [e], postings + [p]) && SourceKnown(done + [e], p)
  {
    SpreadsStay(clock, invoice, done, e, postings);
    assert e in done + [e];
    forall j, d | 0 <= j < |postings + [p]| && d in done + [e] && Settlement(d.factType) && d.eventId == (postings + [p])[j].sourceRef
      ensures PostingSpread(clock, invoice, done + [e], (postings + [p])[..j], d, (postings + [p])[j])
    {
      if j < |postings| {
        assert (postings + [p])[..j] == postings[..j];
      } else {
        assert (postings + [p])[..j] == postings;
        assert d == e;
      }
    }
  }

  lemma CreditsGrow(invoiceId: string, done: seq<Status>, e: Status, lines: seq<LedgerLine>, after: seq<LedgerLine>)
    requires CreditsTold(invoiceId, done, lines) && |after| == |lines|
    requires forall i :: 0 <= i < |lines| ==> Adds(invoiceId, e, lines[i], after[i])
    ensures CreditsTold(invoiceId, done + [e], after)
  {
    forall l | l in after
      ensures l.creditedGross == SumBy(done + [e], CreditsGross(invoiceId, l.lineId)) as real
    {
      var i :| 0 <= i < |after| && after[i] == l;
      assert Adds(invoiceId, e, lines[i], after[i]) && lines[i] in lines;
      SumByAppend(done, [e], CreditsGross(invoiceId, l.lineId));
      assert [e][1..] == [];
    }
  }

  lemma StepCredits(clock: string -> real, invoice: Status, observers: map<string, set<string>>, done: seq<Status>, b: Books, e: Status)
    requires Sized(invoice, b) && LineIdsDiffer(b.lines) && CreditsTold(invoice.eventId, done, b.lines)
    requires Step(clock, invoice, observers, b, e).Ok?
    ensures var after := Step(clock, invoice, observers, b, e).value;
            LineIdsDiffer(after.lines) && CreditsTold(invoice.eventId, done + [e], after.lines)
  {
    var after := Step(clock, invoice, observers, b, e).value;
    if b.lines != [] {
      StepAdds(clock, invoice, observers, b, e, 0);
    }
    forall i | 0 <= i < |b.lines|
      ensures Adds(invoice.eventId, e, b.lines[i], after.lines[i])
    {
      StepAdds(clock, invoice, observers, b, e, i);
    }
    CreditsGrow(invoice.eventId, done, e, b.lines, after.lines);
  }

  /** The posting a step adds, if it adds one. */
  lemma StepPosts(clock: string -> real, invoice: Status, observers: map<string, set<string>>, b: Books, e: Status)
    requires Sized(invoice, b) && Step(clock, invoice, observers, b, e).Ok?
    ensures var after := Step(clock, invoice, observers, b, e).value;
            || after.postings == b.postings
            || exists p :: after.postings == b.postings + [p] && p.sourceRef == e.eventId
                 && ((e.factType == Paid && AllocateBilling(clock, InputOf(clock, invoice, b, e, None)) == Ok(p.parts))
                     || (e.factType == PaymentReversed && Reversed(b, e).Some? && p.originalRef == Some(b.accounts[Reversed(b, e).value].movement)
                         && AllocateBilling(clock, InputOf(clock, invoice, b, e, Reversed(b, e))) == Ok(p.parts)))
  {
    var after := Step(clock, invoice, observers, b, e).value;
    if after.postings != b.postings {
      assert after.postings == b.postings + [after.postings[|b.postings|]];
    }
  }

  lemma StepSpreads(clock: string -> real, invoice: Status, observers: map<string, set<string>>, done: seq<Status>, b: Books, e: Status)
    requires Sized(invoice, b) && ValidComposed(invoice.composition.value.lines) && Conserved(invoice.composition.value.lines, b)
    requires Replayed(clock, invoice, done, b) && Follows(clock, done, e) && Step(clock, invoice, observers, b, e).Ok?
    ensures var after := Step(clock, invoice, observers, b, e).value;
            SpreadTold(clock, invoice, done + [e], after.postings) && forall p :: p in after.postings ==> SourceKnown(done + [e], p)
  {
    var after := Step(clock, invoice, observers, b, e).value;
    StepPosts(clock, invoice, observers, b, e);
    SourcesStay(done, e, b.postings);
    if after.postings == b.postings {
      SpreadsStay(clock, invoice, done, e, b.postings);
    } else {
      var p := after.postings[|b.postings|];
      if e.factType == Paid {
        ReceiptSpreads(clock, invoice, done, b, e, p);
      } else {
        ReversalSpreads(clock, invoice, done, b, e, Reversed(b, e).value, p);
      }
      SpreadsGrow(clock, invoice, done, e, b.postings, p);
    }
  }

  /** No receipt still to come is for a movement already received. */
  ghost predicate Fresh(b: Books, rest: seq<Status>) {
    ReceiptsDiffer(rest) && forall e :: e in rest && e.factType == Paid ==> NewMovement(b, e.eventId)
  }

  lemma StaysFresh(clock: string -> real, invoice: Status, observers: map<string, set<string>>, b: Books, rest: seq<Status>)
    requires Sized(invoice, b) && rest != [] && Fresh(b, rest) && Step(clock, invoice, observers, b, rest[0]).Ok?
    ensures Fresh(Step(clock, invoice, observers, b, rest[0]).value, rest[1..])
  {
    var next := Step(clock, invoice, observers, b, rest[0]).value;
    forall x | x in rest[1..] && x.factType == Paid
      ensures NewMovement(next, x.eventId)
    {
      var j :| 1 <= j < |rest| && rest[j] == x;
      StepMovements(clock, invoice, observers, b, rest[0], x.eventId);
    }
    assert forall j :: 0 <= j < |rest[1..]| ==> rest[1..][j] == rest[j + 1];
  }

  lemma StepReplays(clock: string -> real, invoice: Status, observers: map<string, set<string>>, done: seq<Status>, b: Books, e: Status)
    requires Sized(invoice, b) && ValidComposed(invoice.composition.value.lines) && Conserved(invoice.composition.value.lines, b)
    requires Replayed(clock, invoice, done, b) && Follows(clock, done, e) && Step(clock, invoice, observers, b, e).Ok?
    requires Admissible(e) && (e.factType == Paid ==> NewMovement(b, e.eventId))
    ensures var next := Step(clock, invoice, observers, b, e).value;
            Replayed(clock, invoice, done + [e], next) && Conserved(invoice.composition.value.lines, next)
  {
    StepCredits(clock, invoice, observers, done, b, e);
    StepSpreads(clock, invoice, observers, done, b, e);
    StepConserved(clock, invoice, observers, b, e);
  }

  lemma {:induction false} RunReplays(clock: string -> real, invoice: Status, observers: map<string, set<string>>, done: seq<Status>, b: Books, rest: seq<Status>)
    requires Sized(invoice, b) && ValidComposed(invoice.composition.value.lines) && Conserved(invoice.composition.value.lines, b)
    requires Replayed(clock, invoice, done, b) && Chronicle(clock, done, rest) && Run(clock, invoice, observers, b, rest).Ok?
    requires (forall e :: e in rest ==> Admissible(e)) && Fresh(b, rest)
    ensures Replayed(clock, invoice, done + rest, Run(clock, invoice, observers, b, rest).value)
    decreases |rest|
  {
    if rest == [] {
      assert done + rest == done;
    } else {
      assert rest[0] in rest && forall x :: x in rest[1..] ==> x in rest;
      ChronicleNext(clock, done, rest);
      StepReplays(clock, invoice, observers, done, b, rest[0]);
      StaysFresh(clock, invoice, observers, b, rest);
      RunReplays(clock, invoice, observers, done + [rest[0]], Step(clock, invoice, observers, b, rest[0]).value, rest[1..]);
    }
  }

  // ----- from the order back to the facts -----

  /** Every posting of a settled ledger is spread over what is open, or left of its receipt, by then. */
  ghost predicate PostingsSpread(clock: string -> real, invoice: Status, pending: seq<Status>, postings: seq<Posting>)
    requires invoice.composition.Some?
  {
    forall j, e :: 0 <= j < |postings| && e in pending && Settlement(e.factType) && e.reconciliation == Some(postings[j].sourceRef) ==>
      PostingSpread(clock, invoice, pending, postings[..j], e, postings[j])
  }

  lemma SpreadRepresents(clock: string -> real, invoice: Status, facts: seq<Status>, earlier: seq<Posting>, e: Status, x: Status, p: Posting)
    requires invoice.composition.Some? && Represents(e, x) && PostingSpread(clock, invoice, facts, earlier, e, p)
    ensures PostingSpread(clock, invoice, facts, earlier, x, p)
  {
    assert e.factType == x.factType && e.explicit == x.explicit && e.amount == x.amount && e.effectiveAt == x.effectiveAt;
  }

  /** Facts that credit the lines alike are alike to a posting. */
  lemma {:induction false} SpreadCredits(clock: string -> real, invoice: Status, a: seq<Status>, b: seq<Status>, earlier: seq<Posting>, e: Status, p: Posting)
    requires invoice.composition.Some? && PostingSpread(clock, invoice, a, earlier, e, p)
    requires forall c :: c in invoice.composition.value.lines ==>
               SumBy(a, CreditedBefore(clock, invoice.eventId, c.id, clock(e.effectiveAt)))
               == SumBy(b, CreditedBefore(clock, invoice.eventId, c.id, clock(e.effectiveAt)))
    ensures PostingSpread(clock, invoice, b, earlier, e, p)
  {
    if e.factType == Paid {
      var at := clock(e.effectiveAt);
      SpreadAgrees(clock, invoice.composition.value.lines, p.parts, Receipt, e.explicit, at, e.amount.gross as real,
                   OpenBefore(clock, invoice.eventId, a, earlier, at), OpenBefore(clock, invoice.eventId, b, earlier, at));
    }
  }

  lemma {:induction false} CreditsLifted(clock: string -> real, invoiceId: string, pending: seq<Status>, ms: seq<Movement>, id: string, at: real)
    requires Grouped(ms, Filter(pending, IsIdentified()))
    ensures SumBy(Ordered(clock, Filter(pending, IsOther()), ms), CreditedBefore(clock, invoiceId, id, at))
            == SumBy(pending, CreditedBefore(clock, invoiceId, id, at))
  {
    forall e: Status | Settlement(e.factType)
      ensures CreditedBefore(clock, invoiceId, id, at)(e) == 0
    {
      assert CreditsGross(invoiceId, id)(e) == 0;
    }
    OrderedSum(clock, pending, ms, CreditedBefore(clock, invoiceId, id, at));
  }

  lemma {:induction false} SpreadLifted(clock: string -> real, invoice: Status, pending: seq<Status>, ms: seq<Movement>, ordered: seq<Status>, earlier: seq<Posting>,
                     e: Status, x: Status, p: Posting)
    requires invoice.composition.Some? && Represents(e, x)
    requires Grouped(ms, Filter(pending, IsIdentified())) && ordered == Ordered(clock, Filter(pending, IsOther()), ms)
    requires PostingSpread(clock, invoice, ordered, earlier, e, p)
    ensures PostingSpread(clock, invoice, pending, earlier, x, p)
  {
    forall c | c in invoice.composition.value.lines
      ensures SumBy(ordered, CreditedBefore(clock, invoice.eventId, c.id, clock(e.effectiveAt)))
              == SumBy(pending, CreditedBefore(clock, invoice.eventId, c.id, clock(e.effectiveAt)))
    {
      CreditsLifted(clock, invoice.eventId, pending, ms, c.id, clock(e.effectiveAt));
    }
    SpreadCredits(clock, invoice, ordered, pending, earlier, e, p);
    SpreadRepresents(clock, invoice, pending, earlier, e, x, p);
  }

  lemma OpeningReplayed(clock: string -> real, invoice: Status, holds: seq<Hold>)
    requires invoice.composition.Some? && KeysDiffer(invoice.composition.value.lines, LineKey())
    ensures Replayed(clock, invoice, [], OpeningBooks(invoice.composition.value.lines, holds))
  {
    OpeningApart(invoice.composition.value.lines);
  }

  lemma {:induction false} SettledReplay(clock: string -> real, invoice: Status, pending: seq<Status>, ms: seq<Movement>, ordered: seq<Status>)
    requires invoice.composition.Some? && ValidComposed(invoice.composition.value.lines) && forall e :: e in pending ==> Admissible(e)
    requires Grouped(ms, Filter(pending, IsIdentified())) && ordered == Ordered(clock, Filter(pending, IsOther()), ms)
    requires Unambiguous(clock, invoice, ordered)
    requires Run(clock, invoice, Observers(ms), OpeningBooks(invoice.composition.value.lines, HeldFirst(pending)), ordered).Ok?
    ensures Replayed(clock, invoice, ordered,
                     Run(clock, invoice, Observers(ms), OpeningBooks(invoice.composition.value.lines, HeldFirst(pending)), ordered).value)
  {
    var opening := OpeningBooks(invoice.composition.value.lines, HeldFirst(pending));
    OrderedReceipts(clock, Filter(pending, IsOther()), ms);
    OrderedChronicle(clock, invoice, Filter(pending, IsOther()), ms);
    FactsAdmissible(clock, pending, ms);
    OpeningConserved(invoice.composition.value.lines, HeldFirst(pending));
    OpeningReplayed(clock, invoice, HeldFirst(pending));
    assert [] + ordered == ordered;
    RunReplays(clock, invoice, Observers(ms), [], opening, ordered);
  }

  /**
   * A settled ledger spreads each receipt over what is then open on the invoice's lines, and each reversal
   * over what is left of its receipt: by the explicit shares, or in proportion.
   */
  lemma SettledSpread(clock: string -> real, invoice: Status, pending: seq<Status>)
    requires invoice.composition.Some? && ValidComposed(invoice.composition.value.lines) && forall e :: e in pending ==> Admissible(e)
    requires Settle(clock, invoice, pending).Ok?
    ensures PostingsSpread(clock, invoice, pending, Settle(clock, invoice, pending).value.postings)
  {
    var ms, ordered := SettledRun(clock, invoice, pending);
    var postings := Settle(clock, invoice, pending).value.postings;
    SettledReplay(clock, invoice, pending, ms, ordered);
    OrderedMirrors(clock, pending, ms);
    AllLifted(clock, invoice, pending, ms, ordered, postings);
  }

  lemma {:induction false} AllLifted(clock: string -> real, invoice: Status, pending: seq<Status>, ms: seq<Movement>, ordered: seq<Status>, postings: seq<Posting>)
    requires invoice.composition.Some? && Mirrors(Observers(ms), pending, ordered)
    requires Grouped(ms, Filter(pending, IsIdentified())) && ordered == Ordered(clock, Filter(pending, IsOther()), ms)
    requires SpreadTold(clock, invoice, ordered, postings)
    ensures PostingsSpread(clock, invoice, pending, postings)
  {
    forall j, x | 0 <= j < |postings| && x in pending && Settlement(x.factType) && x.reconciliation == Some(postings[j].sourceRef)
      ensures PostingSpread(clock, invoice, pending, postings[..j], x, postings[j])
    {
      var e := ReplayOf(ordered, x).value;
      SpreadLifted(clock, invoice, pending, ms, ordered, postings[..j], e, x, postings[j]);
    }
  }
}
