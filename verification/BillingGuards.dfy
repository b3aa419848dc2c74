/** Which facts the derivation settles at all: what it refuses as ambiguous or contradictory, read off the facts. */
module BillingGuards {
  import opened Prelude
  import opened Sorting
  import opened Billing
  import opened BillingLedger
  import opened BillingOrder
  import opened BillingConservation
  import opened BillingCredits
  import opened BillingPostings

  /** A fact that is replayed: any but a settlement without a movement identity. */
  predicate Live(e: Status) {
    e.factType == Paid || e.factType == PaymentReversed ==> e.reconciliation.Some?
  }

  /** Two observations of one movement. */
  predicate SameMovement(a: Status, b: Status) {
    Settlement(a.factType) && Settlement(b.factType) && a.reconciliation.Some? && a.reconciliation == b.reconciliation
  }

  /** Every replayed fact comes after the invoice, and at an instant of its own or of its movement. */
  ghost predicate InstantsApart(clock: string -> real, invoice: Status, pending: seq<Status>) {
    && (forall e :: e in pending && Live(e) ==> clock(invoice.effectiveAt) < clock(e.effectiveAt))
    && (forall a, b :: a in pending && b in pending && Live(a) && Live(b) && clock(a.effectiveAt) == clock(b.effectiveAt) ==>
          a == b || SameMovement(a, b))
  }

  /** Where the replay of a live fact stands. */
  lemma Replaces(clock: string -> real, pending: seq<Status>, ms: seq<Movement>, ordered: seq<Status>, x: Status) returns (i: nat)
    requires Mirrors(Observers(ms), pending, ordered) && x in pending && Live(x)
    ensures i < |ordered| && ordered[i].effectiveAt == x.effectiveAt
    ensures if Settlement(x.factType) then Represents(ordered[i], x) else ordered[i] == x
  {
    if Settlement(x.factType) {
      var e := ReplayOf(ordered, x).value;
      i :| 0 <= i < |ordered| && ordered[i] == e;
    } else {
      i :| 0 <= i < |ordered| && ordered[i] == x;
    }
  }

  lemma UnambiguousApart(clock: string -> real, invoice: Status, pending: seq<Status>, ms: seq<Movement>, ordered: seq<Status>)
    requires Mirrors(Observers(ms), pending, ordered) && Unambiguous(clock, invoice, ordered) && Sorted(ordered, ByInstant(clock))
    ensures InstantsApart(clock, invoice, pending)
  {
    forall e | e in pending && Live(e)
      ensures clock(invoice.effectiveAt) < clock(e.effectiveAt)
    {
      var i := Replaces(clock, pending, ms, ordered, e);
    }
    forall a, b | a in pending && b in pending && Live(a) && Live(b) && clock(a.effectiveAt) == clock(b.effectiveAt)
      ensures a == b || SameMovement(a, b)
    {
      var i := Replaces(clock, pending, ms, ordered, a);
      var j := Replaces(clock, pending, ms, ordered, b);
      if i < j {
        StrictlyLater(clock, invoice, ordered, i, j);
      } else if j < i {
        StrictlyLater(clock, invoice, ordered, j, i);
      }
    }
  }

  lemma OrderedDistinct(clock: string -> real, others: seq<Status>, ms: seq<Movement>)
    requires Distinct(others) && DistinctIds(ms) && (forall e :: e in others ==> !Settlement(e.factType))
    requires forall m :: m in ms ==> Settlement(m.event.factType)
    ensures Distinct(Ordered(clock, others, ms))
  {
    var es := Map(ms, Economic());
    EconomicDiffer(ms);
    forall i | 0 <= i < |es|
      ensures Settlement(es[i].factType)
    {
      assert ms[i] in ms;
    }
    forall i, j | 0 <= i < j < |others + es|
      ensures (others + es)[i] != (others + es)[j]
    {
      if i < |others| <= j {
        assert others[i] in others;
      }
    }
    SortPermutes(others + es, ByInstant(clock));
    DistinctPermuted(others + es, Ordered(clock, others, ms));
  }

  /** What a fact in order stands for. */
  lemma StandsFor(pending: seq<Status>, ms: seq<Movement>, ordered: seq<Status>, e: Status) returns (x: Status)
    requires Mirrors(Observers(ms), pending, ordered) && e in ordered
    ensures x in pending && Live(x) && x.effectiveAt == e.effectiveAt && x.factType == e.factType
    ensures if Settlement(e.factType) then Represents(e, x) else e == x
  {
    if Settlement(e.factType) {
      x := ObservationOf(pending, e).value;
    } else {
      x := e;
    }
  }

  lemma ApartUnambiguous(clock: string -> real, invoice: Status, pending: seq<Status>, ms: seq<Movement>, ordered: seq<Status>)
    requires Mirrors(Observers(ms), pending, ordered) && Distinct(ordered) && InstantsApart(clock, invoice, pending)
    requires forall x, y :: x in ordered && y in ordered && Settlement(x.factType) && Settlement(y.factType) && x.eventId == y.eventId ==> x == y
    ensures Unambiguous(clock, invoice, ordered)
  {
    forall i | 0 <= i < |ordered|
      ensures clock(invoice.effectiveAt) < clock(ordered[i].effectiveAt)
      ensures i > 0 ==> clock(ordered[i - 1].effectiveAt) != clock(ordered[i].effectiveAt)
    {
      var x := StandsFor(pending, ms, ordered, ordered[i]);
      if i > 0 {
        var y := StandsFor(pending, ms, ordered, ordered[i - 1]);
        assert ordered[i - 1] != ordered[i];
      }
    }
  }

  /** The order is unambiguous exactly if the instants are apart. */
  lemma {:induction false} InstantsExactly(clock: string -> real, invoice: Status, pending: seq<Status>, ms: seq<Movement>)
    requires Distinct(pending) && Grouped(ms, Filter(pending, IsIdentified()))
    ensures Unambiguous(clock, invoice, Ordered(clock, Filter(pending, IsOther()), ms)) <==> InstantsApart(clock, invoice, pending)
  {
    var others := Filter(pending, IsOther());
    var ordered := Ordered(clock, others, ms);
    OrderedMirrors(clock, pending, ms);
    if Unambiguous(clock, invoice, ordered) {
      SortSorts(others + Map(ms, Economic()), ByInstant(clock));
      UnambiguousApart(clock, invoice, pending, ms, ordered);
    }
    if InstantsApart(clock, invoice, pending) {
      OrderedOnce(clock, pending, ms);
      ApartUnambiguous(clock, invoice, pending, ms, ordered);
    }
  }

  lemma {:induction false} DistinctFiltered(s: seq<Status>, p: Status -> bool)
    requires Distinct(s)
    ensures Distinct(Filter(s, p))
  {
    if s != [] {
      assert Distinct(s[1..]);
      DistinctFiltered(s[1..], p);
    }
  }

  lemma {:induction false} OrderedOnce(clock: string -> real, pending: seq<Status>, ms: seq<Movement>)
    requires Distinct(pending) && Grouped(ms, Filter(pending, IsIdentified()))
    ensures var ordered := Ordered(clock, Filter(pending, IsOther()), ms);
            && Distinct(ordered)
            && forall x, y :: x in ordered && y in ordered && Settlement(x.factType) && Settlement(y.factType) && x.eventId == y.eventId ==> x == y
  {
    var others, es := Filter(pending, IsOther()), Map(ms, Economic());
    DistinctFiltered(pending, IsOther());
    forall m | m in ms
      ensures Settlement(m.event.factType)
    {
      var k :| 0 <= k < |ms| && ms[k] == m;
      assert ms[k].event in Filter(pending, IsIdentified());
    }
    OrderedDistinct(clock, others, ms);
    EconomicDiffer(ms);
    SortPermutes(others + es, ByInstant(clock));
    MembersPermuted(others + es, Ordered(clock, others, ms));
  }

  // ----- what the replay accepts -----

  /** The adjustment is about a line of the invoice that existed by then. */
  ghost predicate AboutLine(clock: string -> real, composed: seq<InvoiceLine>, at: real, d: Adjustment) {
    exists c :: c in composed && c.id == d.lineId && clock(c.existedAt) <= at
  }

  /** The fact repeats no other composition, and details only lines of the invoice. */
  ghost predicate Fits(clock: string -> real, invoice: Status, e: Status)
    requires invoice.composition.Some?
  {
    && (e.composition.Some? ==> e.composition == invoice.composition)
    && (e.factType == Credited || e.factType == Rejected ==>
          e.original == Some(invoice.eventId) ==>
            forall d :: d in e.adjustments ==> AboutLine(clock, invoice.composition.value.lines, clock(e.effectiveAt), d))
  }

  lemma {:induction false} DetailsFit(clock: string -> real, composed: seq<InvoiceLine>, e: Status, lines: seq<LedgerLine>, details: seq<Adjustment>)
    requires ApplyDetails(clock, composed, e, lines, details).Some?
    ensures forall d :: d in details ==> AboutLine(clock, composed, clock(e.effectiveAt), d)
    decreases |details|
  {
    if details != [] {
      LineOfFound(composed, details[0].lineId);
      DetailsFit(clock, composed, e, ApplyDetail(clock, composed, e, lines, details[0]).value, details[1..]);
      assert forall d :: d in details <==> d == details[0] || d in details[1..];
    }
  }

  lemma StepFits(clock: string -> real, invoice: Status, observers: map<string, set<string>>, b: Books, e: Status)
    requires Sized(invoice, b) && Step(clock, invoice, observers, b, e).Ok?
    ensures Fits(clock, invoice, e)
  {
    if (e.factType == Credited || e.factType == Rejected) && e.original == Some(invoice.eventId) && e.adjustments != [] {
      DetailsFit(clock, invoice.composition.value.lines, e, b.lines, e.adjustments);
    }
  }

  lemma {:induction false} RunFits(clock: string -> real, invoice: Status, observers: map<string, set<string>>, b: Books, ordered: seq<Status>)
    requires Sized(invoice, b) && Run(clock, invoice, observers, b, ordered).Ok?
    ensures forall e :: e in ordered ==> Fits(clock, invoice, e)
    decreases |ordered|
  {
    if ordered != [] {
      StepFits(clock, invoice, observers, b, ordered[0]);
      RunFits(clock, invoice, observers, Step(clock, invoice, observers, b, ordered[0]).value, ordered[1..]);
    }
  }

  /** Observations of one movement agree in all but their event ids and remittance references. */
  ghost predicate ObservationsAgree(pending: seq<Status>) {
    forall x, y :: x in pending && y in pending && SameMovement(x, y) ==> y == x.(eventId := y.eventId, remittance := y.remittance)
  }

  lemma {:induction false} AgreeExactly(pending: seq<Status>)
    ensures Agree(Filter(pending, IsIdentified())) <==> ObservationsAgree(pending)
  {
    forall x, y | x in pending && y in pending && SameMovement(x, y)
      ensures Signature(x) == Signature(y) <==> y == x.(eventId := y.eventId, remittance := y.remittance)
    {
    }
    var seen := Filter(pending, IsIdentified());
    forall x, y | x in seen && y in seen && x.reconciliation == y.reconciliation
      ensures SameMovement(x, y)
    {
    }
    if Agree(seen) {
      forall x, y | x in pending && y in pending && SameMovement(x, y)
        ensures y == x.(eventId := y.eventId, remittance := y.remittance)
      {
        assert x in seen && y in seen;
      }
    }
  }

  /** What the derivation asks of the facts it settles. */
  ghost predicate Settleable(clock: string -> real, invoice: Status, pending: seq<Status>)
    requires invoice.composition.Some?
  {
    && ObservationsAgree(pending) && InstantsApart(clock, invoice, pending)
    && forall e :: e in pending && Live(e) ==> Fits(clock, invoice, e)
  }

  lemma AllFit(clock: string -> real, invoice: Status, pending: seq<Status>, ms: seq<Movement>, ordered: seq<Status>)
    requires invoice.composition.Some? && Mirrors(Observers(ms), pending, ordered) && forall e :: e in ordered ==> Fits(clock, invoice, e)
    ensures forall e :: e in pending && Live(e) ==> Fits(clock, invoice, e)
  {
    forall x | x in pending && Live(x)
      ensures Fits(clock, invoice, x)
    {
      var i := Replaces(clock, pending, ms, ordered, x);
      assert ordered[i] in ordered;
    }
  }

  /** Only settleable facts are settled. */
  lemma SettledLawfully(clock: string -> real, invoice: Status, pending: seq<Status>)
    requires invoice.composition.Some? && Distinct(pending) && Settle(clock, invoice, pending).Ok?
    ensures Settleable(clock, invoice, pending)
  {
    var ms, ordered := SettledRun(clock, invoice, pending);
    GroupedAgrees(ms, Filter(pending, IsIdentified()));
    AgreeExactly(pending);
    InstantsExactly(clock, invoice, pending, ms);
    OrderedMirrors(clock, pending, ms);
    RunFits(clock, invoice, Observers(ms), OpeningBooks(invoice.composition.value.lines, HeldFirst(pending)), ordered);
    AllFit(clock, invoice, pending, ms, ordered);
  }

  /** Disagreeing observations are refused as a conflict, and instants that are not apart as undecided. */
  lemma SettleRefuses(clock: string -> real, invoice: Status, pending: seq<Status>)
    requires invoice.composition.Some? && Distinct(pending)
    ensures !ObservationsAgree(pending) ==> Settle(clock, invoice, pending) == Err(Conflict)
    ensures ObservationsAgree(pending) && !InstantsApart(clock, invoice, pending) ==> Settle(clock, invoice, pending) == Err(PolicyHeld)
  {
    var seen := Filter(pending, IsIdentified());
    assert [] + seen == seen;
    ObserveAllMeaning([], [], seen);
    AgreeExactly(pending);
    if ObservationsAgree(pending) {
      InstantsExactly(clock, invoice, pending, ObserveAll([], seen).value);
    }
  }
}
