/** What the derivation guarantees of the ledger it returns, from the raw facts on. */
module BillingSettlement {
  import opened Prelude
  import opened Sorting
  import opened Billing
  import opened BillingLedger
  import opened BillingOrder
  import opened BillingConservation
  import opened BillingCredits
  import opened BillingPostings
  import opened BillingSpread
  import opened BillingGuards

  // ----- what deduplication keeps -----

  ghost predicate KeptIn(unique: seq<Status>, f: Status) {
    exists e :: e in unique && SameFact(e, f)
  }

  lemma RememberKeeps(unique: seq<Status>, n: Status, digest: Status -> string)
    requires IdentityUnique(unique) && Remember(unique, n, digest).Ok?
    ensures IdentityUnique(Remember(unique, n, digest).value)
    ensures forall e :: e in Remember(unique, n, digest).value ==> e == n || e in unique
    ensures forall f :: f == n || KeptIn(unique, f) ==> KeptIn(Remember(unique, n, digest).value, f)
  {
    var k := IndexOfFact(unique, n);
    if k == |unique| {
      var next := unique + [n];
      forall i, j | 0 <= i < j < |next|
        ensures !SameFact(next[i], next[j])
      {
      }
      assert n in next;
      forall f | KeptIn(unique, f)
        ensures KeptIn(next, f)
      {
        var e :| e in unique && SameFact(e, f);
        assert e in next;
      }
    } else {
      var next := unique[k := n];
      forall i, j | 0 <= i < j < |next|
        ensures !SameFact(next[i], next[j])
      {
        assert !SameFact(unique[i], unique[j]);
      }
      assert next[k] in next && SameFact(next[k], n);
      forall f | KeptIn(unique, f)
        ensures KeptIn(next, f)
      {
        var i :| 0 <= i < |unique| && SameFact(unique[i], f);
        assert next[i] in next && SameFact(next[i], f);
      }
    }
  }

  /** The facts kept are readings of the raw facts, one for each identity, whatever the digest. */
  lemma {:induction false} DedupeKeeps(raws: seq<Status>, unique: seq<Status>, normal: Status -> Option<Status>, digest: Status -> string)
    requires IdentityUnique(unique) && Dedupe(raws, unique, normal, digest).Ok?
    ensures IdentityUnique(Dedupe(raws, unique, normal, digest).value)
    ensures forall e :: e in Dedupe(raws, unique, normal, digest).value ==> e in unique || e in FactsOf(raws, normal)
    ensures forall f :: KeptIn(unique, f) || f in FactsOf(raws, normal) ==> KeptIn(Dedupe(raws, unique, normal, digest).value, f)
    decreases |raws|
  {
    if raws != [] {
      var n := normal(raws[0]).value;
      var next := Remember(unique, n, digest).value;
      RememberKeeps(unique, n, digest);
      DedupeKeeps(raws[1..], next, normal, digest);
      assert raws[0] in raws && n in FactsOf(raws, normal);
      forall e | e in FactsOf(raws[1..], normal)
        ensures e in FactsOf(raws, normal)
      {
        var r :| r in raws[1..] && normal(r) == Some(e);
        assert r in raws;
      }
      forall f | f in FactsOf(raws, normal)
        ensures f == n || f in FactsOf(raws[1..], normal)
      {
        var r :| r in raws && normal(r) == Some(f);
        assert r == raws[0] || r in raws[1..];
      }
    }
  }

  ghost predicate EventsDiffer(pending: seq<Status>) {
    forall x, y :: x in pending && y in pending && x.eventId == y.eventId ==> x == y
  }

  lemma ContextEventsDiffer(events: seq<Status>)
    requires IdentityUnique(events) && OneContext(events)
    ensures EventsDiffer(events)
  {
    forall x, y | x in events && y in events && x.eventId == y.eventId
      ensures x == y
    {
      var i :| 0 <= i < |events| && events[i] == x;
      var j :| 0 <= j < |events| && events[j] == y;
      SamePlace(events, i, j);
    }
  }

  // ----- shared balances of a settled invoice -----

  /** The books a settled invoice's ledger is taken from. */
  function BooksOf(clock: string -> real, invoice: Status, pending: seq<Status>): Books
    requires invoice.composition.Some? && Settle(clock, invoice, pending).Ok?
  {
    var ms := ObserveAll([], Filter(pending, IsIdentified())).value;
    Run(clock, invoice, Observers(ms),
        OpeningBooks(invoice.composition.value.lines, Map(Filter(pending, IsUnidentified()), UnidentifiedHold())),
        Ordered(clock, Filter(pending, IsOther()), ms)).value
  }

  /** Every observation of a received movement reaches that movement's one account. */
  ghost predicate OneBalanceEach(pending: seq<Status>, b: Books) {
    forall k, e :: 0 <= k < |b.accounts| && e in pending && Settlement(e.factType) && e.reconciliation == Some(b.accounts[k].movement) ==>
      e.eventId in b.owner && b.owner[e.eventId] == k
  }

  lemma OrderedIdentified(clock: string -> real, others: seq<Status>, ms: seq<Movement>, seen: seq<Status>)
    requires Grouped(ms, seen) && forall e :: e in others ==> !Settlement(e.factType)
    ensures forall e :: e in Ordered(clock, others, ms) ==> BillingConservation.Identified(e)
  {
    var facts := others + Map(ms, Economic());
    SortPermutes(facts, ByInstant(clock));
    MembersPermuted(facts, Ordered(clock, others, ms));
    forall e | e in facts
      ensures BillingConservation.Identified(e)
    {
      if e !in others {
        var k :| 0 <= k < |ms| && Map(ms, Economic())[k] == e;
        assert ms[k].event.reconciliation == Some(ms[k].id);
      }
    }
  }

  lemma {:induction false} KnownMovement(ms: seq<Movement>, id: string)
    requires IndexOfMovement(ms, id) < |ms|
    ensures id in MovementIds(ms)
  {
    assert ms[IndexOfMovement(ms, id)] in ms;
  }

  lemma AmongObservers(ms: seq<Movement>, seen: seq<Status>, e: Status, id: string)
    requires Grouped(ms, seen) && e in seen && e.reconciliation == Some(id)
    ensures id in Observers(ms) && e.eventId in Observers(ms)[id]
  {
    assert CoveredBy(ms, e);
    KnownMovement(ms, id);
    GroupedObservers(ms, seen, id);
    assert e.eventId in Observed(seen, id);
  }

  lemma ReachesAccount(ms: seq<Movement>, seen: seq<Status>, b: Books, e: Status, k: nat)
    requires Grouped(ms, seen) && Together(Observers(ms), b) && k < |b.accounts|
    requires e in seen && e.reconciliation == Some(b.accounts[k].movement)
    ensures e.eventId in b.owner && b.owner[e.eventId] == k
  {
    AmongObservers(ms, seen, e, b.accounts[k].movement);
  }

  lemma {:induction false} SharedByObservers(pending: seq<Status>, seen: seq<Status>, ms: seq<Movement>, b: Books)
    requires forall e :: e in pending && Settlement(e.factType) && e.reconciliation.Some? ==> e in seen
    requires Grouped(ms, seen) && Together(Observers(ms), b)
    ensures OneBalanceEach(pending, b)
  {
    forall k, e | 0 <= k < |b.accounts| && e in pending && Settlement(e.factType) && e.reconciliation == Some(b.accounts[k].movement)
      ensures e.eventId in b.owner && b.owner[e.eventId] == k
    {
      ReachesAccount(ms, seen, b, e, k);
    }
  }

  /**
   * Reversal balances of a settled invoice: all observation ids of one movement share one account, and
   * in gross, net and matched amounts, line by line, it holds the receipt plus every reversal posted.
   */
  lemma SettledShares(clock: string -> real, invoice: Status, pending: seq<Status>)
    requires invoice.composition.Some? && ValidComposed(invoice.composition.value.lines)
    requires (forall e :: e in pending ==> Admissible(e)) && EventsDiffer(pending)
    requires Settle(clock, invoice, pending).Ok?
    ensures var b := BooksOf(clock, invoice, pending);
            Settle(clock, invoice, pending) == Ok(LedgerOf(b)) && OneBalanceEach(pending, b) && AccountsBalanced(b)
  {
    var composed, seen, others := invoice.composition.value.lines, Filter(pending, IsIdentified()), Filter(pending, IsOther());
    assert [] + seen == seen;
    ObserveAllMeaning([], [], seen);
    var ms := ObserveAll([], seen).value;
    var holds := Map(Filter(pending, IsUnidentified()), UnidentifiedHold());
    OrderedReceipts(clock, others, ms);
    FactsAdmissible(clock, pending, ms);
    OrderedIdentified(clock, others, ms, seen);
    OpeningConserved(composed, holds);
    ObserversApart(ms, seen);
    RunShares(clock, invoice, Observers(ms), OpeningBooks(composed, holds), Ordered(clock, others, ms));
    SharedByObservers(pending, seen, ms, BooksOf(clock, invoice, pending));
  }

  // ----- from raw facts -----

  lemma ValidInvoice(rules: TextRules, e: Status)
    requires ValidStatus(rules, e)
    ensures Admissible(e) && (e.composition.Some? ==> ValidComposed(e.composition.value.lines))
  {
  }

  lemma FactsValid(rules: TextRules, raws: seq<Status>)
    requires Sane(rules)
    ensures forall e :: e in FactsOf(raws, Normalizer(rules)) ==> ValidStatus(rules, e)
  {
    forall e | e in FactsOf(raws, Normalizer(rules))
      ensures ValidStatus(rules, e)
    {
      var r :| r in raws && Normalizer(rules)(r) == Some(e);
      NormalizeTwice(rules, r);
    }
  }

  /** Every fact read is kept once: one reading for each identity. */
  ghost predicate KeptOf(kept: seq<Status>, facts: set<Status>) {
    IdentityUnique(kept) && (forall e :: e in kept ==> e in facts) && (forall f :: f in facts ==> KeptIn(kept, f))
  }

  ghost function EmptyReason(kept: seq<Status>): HoldReason {
    if exists i :: i in kept && i.factType == Invoiced then CompositionRequired else InvoiceRequired
  }

  /** No composed invoice: the ledger is empty and every fact held, for want of an invoice or of its composition. */
  ghost predicate NothingSettled(kept: seq<Status>, ledger: Ledger) {
    && (forall e :: e in kept && e.factType == Invoiced ==> e.composition.None?)
    && ledger.lines == [] && ledger.postings == [] && ledger.totals == Totals(0.0, 0.0, 0.0, 0.0, 0.0)
    && (forall h :: h in ledger.held <==> exists e :: e in kept && h == Hold(e.eventId, EmptyReason(kept)))
  }

  /**
   * The ledger of the one invoice: conserved, taken from books with one balance for each movement, and
   * with every credit, posting and hold the other facts ask for and no other.
   */
  ghost predicate SettlesOne(clock: string -> real, kept: seq<Status>, invoice: Status, pending: seq<Status>, ledger: Ledger) {
    && invoice in kept && invoice.factType == Invoiced && invoice.composition.Some?
    && (forall e :: e in kept && e.factType == Invoiced ==> e == invoice)
    && (forall e :: e in pending <==> e in kept && e.factType != Invoiced)
    && Settle(clock, invoice, pending) == Ok(ledger) && LedgerConserved(invoice.composition.value.lines, ledger)
    && OneBalanceEach(pending, BooksOf(clock, invoice, pending)) && AccountsBalanced(BooksOf(clock, invoice, pending))
    && CreditsBooked(invoice.eventId, pending, ledger.lines)
    && PostingsExplained(clock, pending, ledger.postings) && HoldsExplained(clock, invoice.eventId, pending, ledger.held)
    && PostingsSpread(clock, invoice, pending, ledger.postings) && Settleable(clock, invoice, pending)
  }

  lemma {:induction false} SettledOne(rules: TextRules, clock: string -> real, events: seq<Status>, invoice: Status)
    requires (forall e :: e in events ==> ValidStatus(rules, e)) && IdentityUnique(events)
    requires SettleAll(clock, events).Ok? && Filter(events, IsInvoice()) == [invoice] && invoice.composition.Some?
    ensures SettlesOne(clock, events, invoice, Filter(events, IsPending()), SettleAll(clock, events).value)
  {
    var pending := Filter(events, IsPending());
    assert invoice in [invoice];
    ContextEventsDiffer(events);
    ValidInvoice(rules, invoice);
    forall e | e in pending
      ensures Admissible(e)
    {
      ValidInvoice(rules, e);
    }
    SettledConserved(clock, invoice, pending);
    SettledShares(clock, invoice, pending);
    SettledCredits(clock, invoice, pending);
    SettledPostings(clock, invoice, pending);
    SettledSpread(clock, invoice, pending);
    UniqueIsDistinct(events);
    DistinctFiltered(events, IsPending());
    SettledLawfully(clock, invoice, pending);
    OnlyInvoice(events, invoice);
  }

  lemma {:induction false} OnlyInvoice(events: seq<Status>, invoice: Status)
    requires Filter(events, IsInvoice()) == [invoice]
    ensures forall e :: e in events && e.factType == Invoiced ==> e == invoice
  {
    forall e | e in events && e.factType == Invoiced
      ensures e == invoice
    {
      assert e in Filter(events, IsInvoice());
    }
  }

  lemma HeldAllFor(events: seq<Status>, reason: HoldReason)
    ensures forall h :: h in EmptyLedger(events, reason).held <==> exists e :: e in events && h == Hold(e.eventId, reason)
  {
    var holds := Map(events, AllHeld(reason));
    HeldAlike(holds);
    forall h
      ensures h in holds <==> exists e :: e in events && h == Hold(e.eventId, reason)
    {
      if h in holds {
        var k :| 0 <= k < |events| && holds[k] == h;
        assert events[k] in events;
      }
      if e :| e in events && h == Hold(e.eventId, reason) {
        var k :| 0 <= k < |events| && events[k] == e;
        assert holds[k] == h;
      }
    }
  }

  lemma {:induction false} SettledNone(clock: string -> real, events: seq<Status>)
    requires SettleAll(clock, events).Ok? && (Filter(events, IsInvoice()) == [] || Filter(events, IsInvoice())[0].composition.None?)
    ensures NothingSettled(events, SettleAll(clock, events).value)
  {
    var invoices := Filter(events, IsInvoice());
    assert forall e :: e in invoices <==> e in events && e.factType == Invoiced;
    if invoices == [] {
      HeldAllFor(events, InvoiceRequired);
    } else {
      assert invoices == [invoices[0]] && invoices[0] in invoices;
      OnlyInvoice(events, invoices[0]);
      HeldAllFor(events, CompositionRequired);
    }
  }

  /** The ledger of the facts kept. */
  ghost predicate LedgerFor(clock: string -> real, kept: seq<Status>, ledger: Ledger) {
    OneContext(kept) && (NothingSettled(kept, ledger) || exists invoice, pending :: SettlesOne(clock, kept, invoice, pending, ledger))
  }

  lemma SettledFor(rules: TextRules, clock: string -> real, kept: seq<Status>)
    requires (forall e :: e in kept ==> ValidStatus(rules, e)) && IdentityUnique(kept) && SettleAll(clock, kept).Ok?
    ensures LedgerFor(clock, kept, SettleAll(clock, kept).value)
  {
    var invoices := Filter(kept, IsInvoice());
    if invoices == [] || invoices[0].composition.None? {
      SettledNone(clock, kept);
    } else {
      assert invoices == [invoices[0]];
      SettledOne(rules, clock, kept, invoices[0]);
    }
  }

  lemma DerivedFor(rules: TextRules, clock: string -> real, facts: set<Status>, kept: seq<Status>)
    requires (forall e :: e in facts ==> ValidStatus(rules, e)) && KeptOf(kept, facts) && SettleAll(clock, kept).Ok?
    ensures exists k :: KeptOf(k, facts) && LedgerFor(clock, k, SettleAll(clock, kept).value)
  {
    SettledFor(rules, clock, kept);
  }

  /**
   * Every derived ledger is either empty, with all facts held because none is a composed invoice, or the
   * ledger of the only invoice among the facts that were read, as SettlesOne says.
   */
  lemma DeriveConserved(rules: TextRules, digest: Status -> string, clock: string -> real, raws: seq<Status>)
    requires Sane(rules) && Derive(Normalizer(rules), digest, clock, raws).Ok?
    ensures exists kept :: KeptOf(kept, FactsOf(raws, Normalizer(rules))) && LedgerFor(clock, kept, Derive(Normalizer(rules), digest, clock, raws).value)
  {
    DedupeKeeps(raws, [], Normalizer(rules), digest);
    FactsValid(rules, raws);
    DerivedFor(rules, clock, FactsOf(raws, Normalizer(rules)), Dedupe(raws, [], Normalizer(rules), digest).value);
  }
}
