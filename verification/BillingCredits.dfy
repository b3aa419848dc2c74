/** What every line of a settled invoice has been credited and whether it is rejected, read off the facts. */
module BillingCredits {
  import opened Prelude
  import opened Sorting
  import opened Billing
  import opened BillingLedger
  import opened BillingOrder
  import opened BillingConservation

  function NetOn(id: string): Adjustment -> int {
    (d: Adjustment) => if d.lineId == id then d.amounts.net else 0
  }

  function GrossOn(id: string): Adjustment -> int {
    (d: Adjustment) => if d.lineId == id then d.amounts.gross else 0
  }

  /** The net amount a fact credits on a line of the invoice: nothing unless it is a credit naming the invoice. */
  function CreditsNet(invoiceId: string, id: string): Status -> int {
    (e: Status) => if e.factType == Credited && e.original == Some(invoiceId) then SumBy(e.adjustments, NetOn(id)) else 0
  }

  function CreditsGross(invoiceId: string, id: string): Status -> int {
    (e: Status) => if e.factType == Credited && e.original == Some(invoiceId) then SumBy(e.adjustments, GrossOn(id)) else 0
  }

  predicate Lists(details: seq<Adjustment>, id: string) {
    exists d :: d in details && d.lineId == id
  }

  predicate RejectsLine(invoiceId: string, id: string, e: Status) {
    e.factType == Rejected && e.original == Some(invoiceId) && Lists(e.adjustments, id)
  }

  /** Every line is credited exactly what the credits naming the invoice say of it, and rejected exactly if a rejection lists it. */
  ghost predicate CreditsBooked(invoiceId: string, pending: seq<Status>, lines: seq<LedgerLine>) {
    forall l :: l in lines ==> LineBooked(invoiceId, pending, l)
  }

  ghost predicate LineBooked(invoiceId: string, pending: seq<Status>, l: LedgerLine) {
    && l.creditedNet == SumBy(pending, CreditsNet(invoiceId, l.lineId)) as real
    && l.creditedGross == SumBy(pending, CreditsGross(invoiceId, l.lineId)) as real
    && (l.rejected <==> exists e :: e in pending && RejectsLine(invoiceId, l.lineId, e))
  }

  // ----- one fact -----

  lemma {:induction false} DetailAdds(clock: string -> real, composed: seq<InvoiceLine>, e: Status, lines: seq<LedgerLine>, d: Adjustment, i: nat)
    requires LineIdsDiffer(lines) && i < |lines| && ApplyDetail(clock, composed, e, lines, d).Some?
    ensures var l, after := lines[i], ApplyDetail(clock, composed, e, lines, d).value;
            && |after| == |lines| && LineIdsDiffer(after) && after[i].lineId == l.lineId
            && after[i] == if e.factType == Rejected then l.(rejected := l.rejected || d.lineId == l.lineId)
                           else l.(creditedNet := l.creditedNet + NetOn(l.lineId)(d) as real,
                                   creditedGross := l.creditedGross + GrossOn(l.lineId)(d) as real)
  {
    LineAt(lines, i);
  }

  lemma {:induction false} DetailsAdd(clock: string -> real, composed: seq<InvoiceLine>, e: Status, lines: seq<LedgerLine>, details: seq<Adjustment>, i: nat)
    requires LineIdsDiffer(lines) && i < |lines| && ApplyDetails(clock, composed, e, lines, details).Some?
    ensures var l, after := lines[i], ApplyDetails(clock, composed, e, lines, details).value;
            && |after| == |lines| && LineIdsDiffer(after)
            && after[i] == if e.factType == Rejected then l.(rejected := l.rejected || Lists(details, l.lineId))
                           else l.(creditedNet := l.creditedNet + SumBy(details, NetOn(l.lineId)) as real,
                                   creditedGross := l.creditedGross + SumBy(details, GrossOn(l.lineId)) as real)
    decreases |details|
  {
    if details != [] {
      var next := ApplyDetail(clock, composed, e, lines, details[0]).value;
      DetailAdds(clock, composed, e, lines, details[0], i);
      DetailsAdd(clock, composed, e, next, details[1..], i);
      assert Lists(details, lines[i].lineId) <==> details[0].lineId == lines[i].lineId || Lists(details[1..], lines[i].lineId) by {
        assert forall d :: d in details <==> d == details[0] || d in details[1..];
      }
    }
  }

  lemma {:induction false} PayCreditsNothing(lines: seq<LedgerLine>, parts: seq<BillingAllocation>, i: nat)
    requires LineIdsDiffer(lines) && i < |lines|
    ensures var l, after := lines[i], Pay(lines, parts);
            && |after| == |lines| && LineIdsDiffer(after) && after[i].lineId == l.lineId
            && after[i].creditedNet == l.creditedNet && after[i].creditedGross == l.creditedGross && after[i].rejected == l.rejected
  {
    PayAdds(lines, parts, i);
  }

  /** What one fact adds to one line. */
  ghost predicate Adds(invoiceId: string, e: Status, l: LedgerLine, after: LedgerLine) {
    && after.lineId == l.lineId
    && after.creditedNet == l.creditedNet + CreditsNet(invoiceId, l.lineId)(e) as real
    && after.creditedGross == l.creditedGross + CreditsGross(invoiceId, l.lineId)(e) as real
    && (after.rejected <==> l.rejected || RejectsLine(invoiceId, l.lineId, e))
  }

  lemma StepAdds(clock: string -> real, invoice: Status, observers: map<string, set<string>>, b: Books, e: Status, i: nat)
    requires Sized(invoice, b) && LineIdsDiffer(b.lines) && i < |b.lines| && Step(clock, invoice, observers, b, e).Ok?
    ensures var after := Step(clock, invoice, observers, b, e).value.lines;
            |after| == |b.lines| && LineIdsDiffer(after) && Adds(invoice.eventId, e, b.lines[i], after[i])
  {
    if e.factType == Credited || e.factType == Rejected {
      if e.original == Some(invoice.eventId) && e.adjustments != [] {
        DetailsAdd(clock, invoice.composition.value.lines, e, b.lines, e.adjustments, i);
      }
    } else if e.factType == Paid {
      PayCreditsNothing(b.lines, AllocateBilling(clock, InputOf(clock, invoice, b, e, None)).value, i);
    } else if Reversed(b, e).Some? {
      PayCreditsNothing(b.lines, AllocateBilling(clock, InputOf(clock, invoice, b, e, Reversed(b, e))).value, i);
    }
  }

  // ----- all facts -----

  lemma {:induction false} RunAdds(clock: string -> real, invoice: Status, observers: map<string, set<string>>, b: Books, ordered: seq<Status>, i: nat)
    requires Sized(invoice, b) && LineIdsDiffer(b.lines) && i < |b.lines| && Run(clock, invoice, observers, b, ordered).Ok?
    ensures var l, after := b.lines[i], Run(clock, invoice, observers, b, ordered).value.lines;
            && |after| == |b.lines| && after[i].lineId == l.lineId
            && after[i].creditedNet == l.creditedNet + SumBy(ordered, CreditsNet(invoice.eventId, l.lineId)) as real
            && after[i].creditedGross == l.creditedGross + SumBy(ordered, CreditsGross(invoice.eventId, l.lineId)) as real
            && (after[i].rejected <==> l.rejected || exists e :: e in ordered && RejectsLine(invoice.eventId, l.lineId, e))
    decreases |ordered|
  {
    if ordered != [] {
      var next := Step(clock, invoice, observers, b, ordered[0]).value;
      StepAdds(clock, invoice, observers, b, ordered[0], i);
      RunAdds(clock, invoice, observers, next, ordered[1..], i);
      assert forall e :: e in ordered <==> e == ordered[0] || e in ordered[1..];
    }
  }

  lemma {:induction false} FilterSum(s: seq<Status>, p: Status -> bool, f: Status -> int)
    requires forall e :: e in s && !p(e) ==> f(e) == 0
    ensures SumBy(Filter(s, p), f) == SumBy(s, f)
  {
    if s != [] {
      FilterSum(s[1..], p, f);
    }
  }

  lemma {:induction false} NothingAdded(s: seq<Status>, f: Status -> int)
    requires forall e :: e in s ==> f(e) == 0
    ensures SumBy(s, f) == 0
  {
    if s != [] {
      NothingAdded(s[1..], f);
    }
  }

  /** The replay goes over the other facts as they are, and over settlements one for each movement. */
  lemma {:induction false} OrderedMembers(clock: string -> real, pending: seq<Status>, ms: seq<Movement>)
    requires Grouped(ms, Filter(pending, IsIdentified()))
    ensures forall e: Status :: !Settlement(e.factType) ==>
              (e in Ordered(clock, Filter(pending, IsOther()), ms) <==> e in pending)
  {
    var others, es := Filter(pending, IsOther()), Map(ms, Economic());
    SortPermutes(others + es, ByInstant(clock));
    MembersPermuted(others + es, Ordered(clock, others, ms));
    forall e | e in es
      ensures Settlement(e.factType)
    {
      var k :| 0 <= k < |ms| && es[k] == e;
      assert ms[k].event in Filter(pending, IsIdentified());
    }
  }

  lemma {:induction false} OrderedSum(clock: string -> real, pending: seq<Status>, ms: seq<Movement>, f: Status -> int)
    requires Grouped(ms, Filter(pending, IsIdentified()))
    requires forall e: Status :: Settlement(e.factType) ==> f(e) == 0
    ensures SumBy(Ordered(clock, Filter(pending, IsOther()), ms), f) == SumBy(pending, f)
  {
    var others, es := Filter(pending, IsOther()), Map(ms, Economic());
    SortPermutes(others + es, ByInstant(clock));
    SumByPermuted(others + es, Ordered(clock, others, ms), f);
    SumByAppend(others, es, f);
    FilterSum(pending, IsOther(), f);
    forall e | e in es
      ensures f(e) == 0
    {
      var k :| 0 <= k < |ms| && es[k] == e;
      assert ms[k].event in Filter(pending, IsIdentified());
    }
    NothingAdded(es, f);
  }

  function HeldFirst(pending: seq<Status>): seq<Hold> {
    Map(Filter(pending, IsUnidentified()), UnidentifiedHold())
  }

  /** How a ledger is settled: over grouped movements, in an unambiguous order, from the opening books. */
  lemma SettledRun(clock: string -> real, invoice: Status, pending: seq<Status>) returns (ms: seq<Movement>, ordered: seq<Status>)
    requires invoice.composition.Some? && Settle(clock, invoice, pending).Ok?
    ensures ObserveAll([], Filter(pending, IsIdentified())) == Some(ms)
    ensures Grouped(ms, Filter(pending, IsIdentified())) && ordered == Ordered(clock, Filter(pending, IsOther()), ms)
    ensures Unambiguous(clock, invoice, ordered)
    ensures var run := Run(clock, invoice, Observers(ms), OpeningBooks(invoice.composition.value.lines, HeldFirst(pending)), ordered);
            run.Ok? && Settle(clock, invoice, pending).value == LedgerOf(run.value)
  {
    var seen := Filter(pending, IsIdentified());
    assert [] + seen == seen;
    ObserveAllMeaning([], [], seen);
    ms := ObserveAll([], seen).value;
    ordered := Ordered(clock, Filter(pending, IsOther()), ms);
  }

  lemma {:induction false} LineCredited(clock: string -> real, invoice: Status, pending: seq<Status>, ms: seq<Movement>, ordered: seq<Status>, after: LedgerLine, id: string)
    requires Grouped(ms, Filter(pending, IsIdentified())) && ordered == Ordered(clock, Filter(pending, IsOther()), ms)
    requires after.lineId == id
    requires after.creditedNet == SumBy(ordered, CreditsNet(invoice.eventId, id)) as real
    requires after.creditedGross == SumBy(ordered, CreditsGross(invoice.eventId, id)) as real
    requires after.rejected <==> exists e :: e in ordered && RejectsLine(invoice.eventId, id, e)
    ensures LineBooked(invoice.eventId, pending, after)
  {
    OrderedMembers(clock, pending, ms);
    OrderedSum(clock, pending, ms, CreditsNet(invoice.eventId, id));
    OrderedSum(clock, pending, ms, CreditsGross(invoice.eventId, id));
  }

  /** In a settled ledger every credit is booked on its lines, in net and gross, and every rejection marks its lines. */
  lemma SettledCredits(clock: string -> real, invoice: Status, pending: seq<Status>)
    requires invoice.composition.Some? && KeysDiffer(invoice.composition.value.lines, LineKey())
    requires Settle(clock, invoice, pending).Ok?
    ensures CreditsBooked(invoice.eventId, pending, Settle(clock, invoice, pending).value.lines)
  {
    var ms, ordered := SettledRun(clock, invoice, pending);
    var opening, lines := OpeningBooks(invoice.composition.value.lines, HeldFirst(pending)), Settle(clock, invoice, pending).value.lines;
    OpeningApart(invoice.composition.value.lines);
    RunKeepsSize(clock, invoice, Observers(ms), opening, ordered);
    forall i | 0 <= i < |lines|
      ensures LineBooked(invoice.eventId, pending, lines[i])
    {
      RunAdds(clock, invoice, Observers(ms), opening, ordered, i);
      LineCredited(clock, invoice, pending, ms, ordered, lines[i], opening.lines[i].lineId);
    }
  }

  lemma {:induction false} RunKeepsSize(clock: string -> real, invoice: Status, observers: map<string, set<string>>, b: Books, ordered: seq<Status>)
    requires Sized(invoice, b) && Run(clock, invoice, observers, b, ordered).Ok?
    ensures |Run(clock, invoice, observers, b, ordered).value.lines| == |b.lines|
  {
    assert Sized(invoice, Run(clock, invoice, observers, b, ordered).value);
  }

  lemma OpeningApart(composed: seq<InvoiceLine>)
    requires KeysDiffer(composed, LineKey())
    ensures LineIdsDiffer(Map(composed, OpeningLine()))
  {
    forall i, j | 0 <= i < j < |composed|
      ensures composed[i].id != composed[j].id
    {
      assert LineKey()(composed[i]) != LineKey()(composed[j]);
    }
  }
}
