/** Which facts a settled ledger posts and which it holds, and why, read off the facts. */
module BillingPostings {
  import opened Prelude
  import opened Sorting
  import opened Billing
  import opened BillingLedger
  import opened BillingOrder
  import opened BillingConservation
  import opened BillingCredits

  // ----- over the facts in economic order -----

  /** A credit or rejection that does not say which lines of this invoice it is about. */
  predicate LacksDetail(invoiceId: string, e: Status) {
    (e.factType == Credited || e.factType == Rejected) && (e.original != Some(invoiceId) || e.adjustments == [])
  }

  predicate Receives(observers: map<string, set<string>>, d: Status, o: string) {
    d.factType == Paid && o in ObserversOf(observers, d)
  }

  /** The reversal names an observation of the earlier receipt. */
  predicate Undoes(clock: string -> real, observers: map<string, set<string>>, e: Status, d: Status) {
    && e.factType == PaymentReversed && e.original.Some? && Receives(observers, d, e.original.value)
    && clock(d.effectiveAt) < clock(e.effectiveAt)
  }

  ghost predicate Orphan(clock: string -> real, observers: map<string, set<string>>, facts: seq<Status>, e: Status) {
    e.factType == PaymentReversed && forall d :: d in facts ==> !Undoes(clock, observers, e, d)
  }

  ghost predicate HeldFor(clock: string -> real, invoiceId: string, observers: map<string, set<string>>, facts: seq<Status>, e: Status, h: Hold) {
    || (LacksDetail(invoiceId, e) && h == Hold(e.eventId, LineDetailRequired))
    || (Orphan(clock, observers, facts, e) && h == Hold(e.eventId, OriginalMovementRequired))
  }

  ghost predicate PostedAs(clock: string -> real, observers: map<string, set<string>>, facts: seq<Status>, e: Status, p: Posting) {
    && p.sourceRef == e.eventId
    && ((e.factType == Paid && p.originalRef == None)
        || exists d :: d in facts && Undoes(clock, observers, e, d) && p.originalRef == Some(d.eventId))
  }

  ghost predicate OwnersTold(observers: map<string, set<string>>, done: seq<Status>, b: Books) {
    && (forall d, o :: d in done && Receives(observers, d, o) ==> o in b.owner)
    && (forall o :: o in b.owner ==>
          b.owner[o] < |b.accounts| && exists d :: d in done && Receives(observers, d, o) && b.accounts[b.owner[o]].movement == d.eventId)
  }

  ghost predicate HoldsTold(clock: string -> real, invoiceId: string, observers: map<string, set<string>>, first: seq<Hold>, done: seq<Status>, b: Books) {
    forall h :: h in b.held <==> h in first || exists e :: e in done && HeldFor(clock, invoiceId, observers, done, e, h)
  }

  ghost predicate PostingsTold(clock: string -> real, observers: map<string, set<string>>, done: seq<Status>, b: Books) {
    && (forall p :: p in b.postings ==> exists e :: e in done && PostedAs(clock, observers, done, e, p))
    && (forall e :: e in done && Settlement(e.factType) && !Orphan(clock, observers, done, e) ==>
          exists p :: p in b.postings && PostedAs(clock, observers, done, e, p))
    && (forall i, j :: 0 <= i < j < |b.postings| ==> b.postings[i].sourceRef != b.postings[j].sourceRef)
  }

  ghost predicate Told(clock: string -> real, invoiceId: string, observers: map<string, set<string>>, first: seq<Hold>, done: seq<Status>, b: Books) {
    && OwnersTold(observers, done, b) && HoldsTold(clock, invoiceId, observers, first, done, b)
    && PostingsTold(clock, observers, done, b)
  }

  /** The fact comes after all those done, and is not another settlement under one of their identities. */
  ghost predicate Follows(clock: string -> real, done: seq<Status>, e: Status) {
    forall d :: d in done ==>
      && clock(d.effectiveAt) < clock(e.effectiveAt)
      && (Settlement(d.factType) && Settlement(e.factType) ==> d.eventId != e.eventId)
  }

  lemma StillUndoes(clock: string -> real, observers: map<string, set<string>>, done: seq<Status>, e: Status, x: Status)
    requires Follows(clock, done, e) && (x in done || x == e)
    ensures Orphan(clock, observers, done + [e], x) <==> Orphan(clock, observers, done, x)
    ensures forall p :: PostedAs(clock, observers, done + [e], x, p) <==> PostedAs(clock, observers, done, x, p)
  {
    assert !Undoes(clock, observers, x, e);
    assert forall d :: d in done + [e] <==> d in done || d == e;
  }

  // ----- one fact -----

  /** What one fact does to postings, holds and accounts. */
  ghost predicate Entered(clock: string -> real, invoiceId: string, observers: map<string, set<string>>, b: Books, e: Status, after: Books) {
    if LacksDetail(invoiceId, e) then after == HoldBack(b, e, LineDetailRequired)
    else if e.factType == Credited || e.factType == Rejected then after == b.(lines := after.lines)
    else if e.factType == PaymentReversed && Reversed(b, e).None? then after == HoldBack(b, e, OriginalMovementRequired)
    else if e.factType == PaymentReversed then
      && Reversed(b, e).value < |b.accounts| == |after.accounts| && after.held == b.held && after.owner == b.owner
      && (forall k :: 0 <= k < |b.accounts| ==> after.accounts[k].movement == b.accounts[k].movement)
      && exists p :: after.postings == b.postings + [p] && p.sourceRef == e.eventId
                     && p.originalRef == Some(b.accounts[Reversed(b, e).value].movement)
    else
      && e.factType == Paid && after.held == b.held
      && (exists p :: after.postings == b.postings + [p] && p.sourceRef == e.eventId && p.originalRef == None)
      && |after.accounts| == |b.accounts| + 1 && after.accounts[|b.accounts|].movement == e.eventId
      && (forall k :: 0 <= k < |b.accounts| ==> after.accounts[k] == b.accounts[k])
      && after.owner == b.owner + map o | o in ObserversOf(observers, e) :: |b.accounts|
  }

  lemma StepEnters(clock: string -> real, invoice: Status, observers: map<string, set<string>>, b: Books, e: Status)
    requires Sized(invoice, b) && Step(clock, invoice, observers, b, e).Ok?
    ensures Entered(clock, invoice.eventId, observers, b, e, Step(clock, invoice, observers, b, e).value)
  {
    var after := Step(clock, invoice, observers, b, e).value;
    if Settlement(e.factType) && !(e.factType == PaymentReversed && Reversed(b, e).None?) {
      assert after.postings == b.postings + [after.postings[|b.postings|]];
    }
  }

  lemma OwnersGrow(clock: string -> real, invoiceId: string, observers: map<string, set<string>>, done: seq<Status>, b: Books, e: Status, after: Books)
    requires OwnersTold(observers, done, b) && Entered(clock, invoiceId, observers, b, e, after)
    ensures OwnersTold(observers, done + [e], after)
  {
    assert forall d :: d in done + [e] <==> d in done || d == e;
    forall o | o in after.owner
      ensures after.owner[o] < |after.accounts|
      ensures exists d :: d in done + [e] && Receives(observers, d, o) && after.accounts[after.owner[o]].movement == d.eventId
    {
      if e.factType == Paid && o in ObserversOf(observers, e) {
        assert Receives(observers, e, o);
      } else {
        var d :| d in done && Receives(observers, d, o) && b.accounts[b.owner[o]].movement == d.eventId;
        assert d in done + [e];
      }
    }
  }

  /** A reversal finds its account exactly if it undoes an earlier receipt. */
  lemma ReversedExactly(clock: string -> real, observers: map<string, set<string>>, done: seq<Status>, b: Books, e: Status)
    requires OwnersTold(observers, done, b) && Follows(clock, done, e) && e.factType == PaymentReversed
    ensures Reversed(b, e).None? <==> Orphan(clock, observers, done, e)
    ensures Reversed(b, e).Some? ==>
              && Reversed(b, e).value < |b.accounts|
              && exists d :: d in done && Undoes(clock, observers, e, d) && b.accounts[Reversed(b, e).value].movement == d.eventId
  {
    if Reversed(b, e).Some? {
      var d :| d in done && Receives(observers, d, e.original.value) && b.accounts[b.owner[e.original.value]].movement == d.eventId;
      assert Undoes(clock, observers, e, d);
    }
  }

  lemma HoldsGrow(clock: string -> real, invoiceId: string, observers: map<string, set<string>>, first: seq<Hold>, done: seq<Status>, b: Books, e: Status, after: Books)
    requires OwnersTold(observers, done, b) && HoldsTold(clock, invoiceId, observers, first, done, b)
    requires Follows(clock, done, e) && Entered(clock, invoiceId, observers, b, e, after)
    ensures HoldsTold(clock, invoiceId, observers, first, done + [e], after)
  {
    if e.factType == PaymentReversed {
      ReversedExactly(clock, observers, done, b, e);
    }
    forall x | x in done || x == e
      ensures Orphan(clock, observers, done + [e], x) <==> Orphan(clock, observers, done, x)
    {
      StillUndoes(clock, observers, done, e, x);
    }
    forall h
      ensures h in after.held <==> h in b.held || HeldFor(clock, invoiceId, observers, done, e, h)
    {
    }
    forall h
      ensures h in after.held <==> h in first || exists x :: x in done + [e] && HeldFor(clock, invoiceId, observers, done + [e], x, h)
    {
      if x :| x in done && HeldFor(clock, invoiceId, observers, done, x, h) {
        assert x in done + [e] && HeldFor(clock, invoiceId, observers, done + [e], x, h);
      }
      if HeldFor(clock, invoiceId, observers, done, e, h) {
        assert e in done + [e] && HeldFor(clock, invoiceId, observers, done + [e], e, h);
      }
    }
  }

  lemma PostingAdded(clock: string -> real, observers: map<string, set<string>>, done: seq<Status>, b: Books, e: Status, after: Books, p: Posting)
    requires PostingsTold(clock, observers, done, b) && Follows(clock, done, e) && Settlement(e.factType)
    requires after.postings == b.postings + [p] && PostedAs(clock, observers, done, e, p)
    ensures PostingsTold(clock, observers, done + [e], after)
  {
    forall x | x in done || x == e
      ensures Orphan(clock, observers, done + [e], x) <==> Orphan(clock, observers, done, x)
      ensures forall q :: PostedAs(clock, observers, done + [e], x, q) <==> PostedAs(clock, observers, done, x, q)
    {
      StillUndoes(clock, observers, done, e, x);
    }
    forall q | q in after.postings
      ensures exists x :: x in done + [e] && PostedAs(clock, observers, done + [e], x, q)
    {
      if q in b.postings {
        var x :| x in done && PostedAs(clock, observers, done, x, q);
        assert x in done + [e];
      } else {
        assert e in done + [e];
      }
    }
    forall x | x in done + [e] && Settlement(x.factType) && !Orphan(clock, observers, done + [e], x)
      ensures exists q :: q in after.postings && PostedAs(clock, observers, done + [e], x, q)
    {
      if x in done {
        var q :| q in b.postings && PostedAs(clock, observers, done, x, q);
        assert q in after.postings;
      } else {
        assert p in after.postings;
      }
    }
    forall i | 0 <= i < |b.postings|
      ensures b.postings[i].sourceRef != p.sourceRef
    {
      assert b.postings[i] in b.postings;
      var x :| x in done && PostedAs(clock, observers, done, x, b.postings[i]);
    }
  }

  lemma PostingsStay(clock: string -> real, observers: map<string, set<string>>, done: seq<Status>, b: Books, e: Status, after: Books)
    requires PostingsTold(clock, observers, done, b) && Follows(clock, done, e) && after.postings == b.postings
    requires Settlement(e.factType) ==> Orphan(clock, observers, done, e)
    ensures PostingsTold(clock, observers, done + [e], after)
  {
    forall x | x in done || x == e
      ensures Orphan(clock, observers, done + [e], x) <==> Orphan(clock, observers, done, x)
      ensures forall q :: PostedAs(clock, observers, done + [e], x, q) <==> PostedAs(clock, observers, done, x, q)
    {
      StillUndoes(clock, observers, done, e, x);
    }
    forall q | q in after.postings
      ensures exists x :: x in done + [e] && PostedAs(clock, observers, done + [e], x, q)
    {
      var x :| x in done && PostedAs(clock, observers, done, x, q);
      assert x in done + [e];
    }
    forall x | x in done + [e] && Settlement(x.factType) && !Orphan(clock, observers, done + [e], x)
      ensures exists q :: q in after.postings && PostedAs(clock, observers, done + [e], x, q)
    {
      assert x in done;
      var q :| q in b.postings && PostedAs(clock, observers, done, x, q);
    }
  }

  lemma PostingsGrow(clock: string -> real, invoiceId: string, observers: map<string, set<string>>, done: seq<Status>, b: Books, e: Status, after: Books)
    requires OwnersTold(observers, done, b) && PostingsTold(clock, observers, done, b)
    requires Follows(clock, done, e) && Entered(clock, invoiceId, observers, b, e, after)
    ensures PostingsTold(clock, observers, done + [e], after)
  {
    if e.factType == PaymentReversed {
      ReversedExactly(clock, observers, done, b, e);
      if Reversed(b, e).None? {
        PostingsStay(clock, observers, done, b, e, after);
      } else {
        var p :| after.postings == b.postings + [p] && p.sourceRef == e.eventId
                 && p.originalRef == Some(b.accounts[Reversed(b, e).value].movement);
        PostingAdded(clock, observers, done, b, e, after, p);
      }
    } else if e.factType == Paid {
      var p :| after.postings == b.postings + [p] && p.sourceRef == e.eventId && p.originalRef == None;
      PostingAdded(clock, observers, done, b, e, after, p);
    } else {
      PostingsStay(clock, observers, done, b, e, after);
    }
  }

  // ----- all facts -----

  lemma StepTold(clock: string -> real, invoice: Status, observers: map<string, set<string>>, first: seq<Hold>, done: seq<Status>, b: Books, e: Status)
    requires Sized(invoice, b) && Told(clock, invoice.eventId, observers, first, done, b) && Follows(clock, done, e)
    requires Step(clock, invoice, observers, b, e).Ok?
    ensures Told(clock, invoice.eventId, observers, first, done + [e], Step(clock, invoice, observers, b, e).value)
  {
    StepEnters(clock, invoice, observers, b, e);
    EnteredTold(clock, invoice.eventId, observers, first, done, b, e, Step(clock, invoice, observers, b, e).value);
  }

  lemma EnteredTold(clock: string -> real, invoiceId: string, observers: map<string, set<string>>, first: seq<Hold>, done: seq<Status>, b: Books, e: Status, after: Books)
    requires Told(clock, invoiceId, observers, first, done, b) && Follows(clock, done, e) && Entered(clock, invoiceId, observers, b, e, after)
    ensures Told(clock, invoiceId, observers, first, done + [e], after)
  {
    OwnersGrow(clock, invoiceId, observers, done, b, e, after);
    HoldsGrow(clock, invoiceId, observers, first, done, b, e, after);
    PostingsGrow(clock, invoiceId, observers, done, b, e, after);
  }

  /** Each of the facts to come follows those done and those before it. */
  ghost predicate Chronicle(clock: string -> real, done: seq<Status>, rest: seq<Status>) {
    forall i :: 0 <= i < |rest| ==> Follows(clock, done + rest[..i], rest[i])
  }

  lemma ChronicleNext(clock: string -> real, done: seq<Status>, rest: seq<Status>)
    requires rest != [] && Chronicle(clock, done, rest)
    ensures Follows(clock, done, rest[0]) && Chronicle(clock, done + [rest[0]], rest[1..])
    ensures (done + [rest[0]]) + rest[1..] == done + rest
  {
    assert done + rest[..0] == done;
    forall i | 0 <= i < |rest[1..]|
      ensures Follows(clock, (done + [rest[0]]) + rest[1..][..i], rest[1..][i])
    {
      assert (done + [rest[0]]) + rest[1..][..i] == done + rest[..i + 1];
      assert Follows(clock, done + rest[..i + 1], rest[i + 1]);
    }
  }

  lemma {:induction false} RunTold(clock: string -> real, invoice: Status, observers: map<string, set<string>>, first: seq<Hold>, done: seq<Status>,
                                   b: Books, rest: seq<Status>)
    requires Sized(invoice, b) && Told(clock, invoice.eventId, observers, first, done, b) && Chronicle(clock, done, rest)
    requires Run(clock, invoice, observers, b, rest).Ok?
    ensures Told(clock, invoice.eventId, observers, first, done + rest, Run(clock, invoice, observers, b, rest).value)
    decreases |rest|
  {
    if rest == [] {
      assert done + rest == done;
    } else {
      ChronicleNext(clock, done, rest);
      StepTold(clock, invoice, observers, first, done, b, rest[0]);
      RunTold(clock, invoice, observers, first, done + [rest[0]], Step(clock, invoice, observers, b, rest[0]).value, rest[1..]);
    }
  }

  // ----- from the order back to the facts -----

  /** The fact replayed for the movement the observation belongs to. */
  predicate Represents(e: Status, x: Status) {
    x.reconciliation == Some(e.eventId) && Signature(e) == Signature(x)
  }

  /** The fact in order that an observation is replayed as. */
  function ReplayOf(ordered: seq<Status>, x: Status): (e: Option<Status>)
    ensures e.Some? ==> e.value in ordered && Represents(e.value, x)
    ensures e.None? ==> forall d :: d in ordered ==> !Represents(d, x)
  {
    if ordered == [] then None else if Represents(ordered[0], x) then Some(ordered[0]) else ReplayOf(ordered[1..], x)
  }

  /** An observation that a fact in order stands for. */
  function ObservationOf(pending: seq<Status>, e: Status): (x: Option<Status>)
    ensures x.Some? ==> x.value in pending && Represents(e, x.value)
    ensures x.None? ==> forall y :: y in pending ==> !Represents(e, y)
  {
    if pending == [] then None else if Represents(e, pending[0]) then Some(pending[0]) else ObservationOf(pending[1..], e)
  }

  /** How the facts in order mirror the facts as they are. */
  ghost predicate Mirrors(observers: map<string, set<string>>, pending: seq<Status>, ordered: seq<Status>) {
    && (forall e: Status :: !Settlement(e.factType) ==> (e in ordered <==> e in pending))
    && (forall x {:trigger ReplayOf(ordered, x)} ::
          x in pending && Settlement(x.factType) && x.reconciliation.Some? ==> ReplayOf(ordered, x).Some?)
    && (forall e {:trigger ObservationOf(pending, e)} ::
          e in ordered && Settlement(e.factType) ==> ObservationOf(pending, e).Some?)
    && (forall d, o :: d in ordered && d.factType == Paid ==>
          (Receives(observers, d, o) <==> exists x :: x in pending && Represents(d, x) && x.eventId == o))
  }

  lemma EconomicRepresents(ms: seq<Movement>, seen: seq<Status>, x: Status)
    requires Grouped(ms, seen) && x in seen
    ensures exists e :: e in Map(ms, Economic()) && Represents(e, x)
  {
    assert CoveredBy(ms, x);
    var k := IndexOfMovement(ms, x.reconciliation.value);
    assert ms[k].event in seen && Map(ms, Economic())[k] in Map(ms, Economic());
    assert Represents(Map(ms, Economic())[k], x);
  }

  lemma EconomicRepresented(ms: seq<Movement>, seen: seq<Status>, e: Status) returns (x: Status)
    requires Grouped(ms, seen) && e in Map(ms, Economic())
    ensures x in seen && Represents(e, x) && e.reconciliation == Some(e.eventId) && e.eventId in MovementIds(ms)
  {
    var k :| 0 <= k < |ms| && Map(ms, Economic())[k] == e;
    x := ms[k].event;
    assert ms[k] in ms;
  }

  lemma EconomicReceives(ms: seq<Movement>, seen: seq<Status>, d: Status, o: string)
    requires Grouped(ms, seen) && d in Map(ms, Economic()) && d.factType == Paid
    ensures Receives(Observers(ms), d, o) <==> exists x :: x in seen && Represents(d, x) && x.eventId == o
  {
    var y := EconomicRepresented(ms, seen, d);
    GroupedObservers(ms, seen, d.eventId);
    GroupedAgrees(ms, seen);
    if Receives(Observers(ms), d, o) {
      assert o in Observed(seen, d.eventId);
      var x :| x in seen && x.reconciliation == Some(d.eventId) && x.eventId == o;
      assert Signature(x) == Signature(y);
      assert Represents(d, x);
    }
  }

  lemma {:induction false} OrderedMirrors(clock: string -> real, pending: seq<Status>, ms: seq<Movement>)
    requires Grouped(ms, Filter(pending, IsIdentified()))
    ensures Mirrors(Observers(ms), pending, Ordered(clock, Filter(pending, IsOther()), ms))
  {
    var seen, others, es := Filter(pending, IsIdentified()), Filter(pending, IsOther()), Map(ms, Economic());
    var ordered := Ordered(clock, others, ms);
    OrderedMembers(clock, pending, ms);
    SortPermutes(others + es, ByInstant(clock));
    MembersPermuted(others + es, ordered);
    forall e | e in ordered && Settlement(e.factType)
      ensures e in es && ObservationOf(pending, e).Some?
    {
      assert e in es;
      var x := EconomicRepresented(ms, seen, e);
    }
    forall x | x in pending && Settlement(x.factType) && x.reconciliation.Some?
      ensures ReplayOf(ordered, x).Some?
    {
      EconomicRepresents(ms, seen, x);
      var e :| e in es && Represents(e, x);
      assert e in ordered;
    }
    forall d, o | d in ordered && d.factType == Paid
      ensures Receives(Observers(ms), d, o) <==> exists x :: x in pending && Represents(d, x) && x.eventId == o
    {
      EconomicReceives(ms, seen, d, o);
    }
  }

  lemma OrderedChronicle(clock: string -> real, invoice: Status, others: seq<Status>, ms: seq<Movement>)
    requires DistinctIds(ms) && (forall e :: e in others ==> !Settlement(e.factType))
    requires Unambiguous(clock, invoice, Ordered(clock, others, ms))
    ensures Chronicle(clock, [], Ordered(clock, others, ms))
  {
    var es, ordered := Map(ms, Economic()), Ordered(clock, others, ms);
    EconomicDiffer(ms);
    SortPermutes(others + es, ByInstant(clock));
    SortSorts(others + es, ByInstant(clock));
    MembersPermuted(others + es, ordered);
    forall i | 0 <= i < |ordered|
      ensures Follows(clock, [] + ordered[..i], ordered[i])
    {
      forall d | d in [] + ordered[..i]
        ensures clock(d.effectiveAt) < clock(ordered[i].effectiveAt)
        ensures Settlement(d.factType) && Settlement(ordered[i].factType) ==> d.eventId != ordered[i].eventId
      {
        var j :| 0 <= j < i && ordered[j] == d;
        StrictlyLater(clock, invoice, ordered, j, i);
        assert d in others + es && ordered[i] in others + es;
      }
    }
  }

  // ----- over the facts themselves -----

  /** The reversal names the earlier receipt. */
  predicate Undone(clock: string -> real, e: Status, x: Status) {
    && e.factType == PaymentReversed && x.factType == Paid && x.reconciliation.Some? && e.original == Some(x.eventId)
    && clock(x.effectiveAt) < clock(e.effectiveAt)
  }

  /** A settlement without a movement identity, a credit or rejection without line detail, a reversal of nothing received before. */
  ghost predicate HoldDue(clock: string -> real, invoiceId: string, pending: seq<Status>, e: Status, h: Hold) {
    if (e.factType == Paid || e.factType == PaymentReversed) && e.reconciliation.None? then h == Hold(e.eventId, MovementIdentityRequired)
    else if e.factType == Credited || e.factType == Rejected then
      (e.original != Some(invoiceId) || e.adjustments == []) && h == Hold(e.eventId, LineDetailRequired)
    else
      && e.factType == PaymentReversed && (forall x :: x in pending ==> !Undone(clock, e, x))
      && h == Hold(e.reconciliation.value, OriginalMovementRequired)
  }

  /** The posting of an identified settlement: under its movement's identity, whole, a reversal naming the receipt it takes from. */
  ghost predicate PostingDue(clock: string -> real, pending: seq<Status>, e: Status, p: Posting) {
    && e.reconciliation == Some(p.sourceRef)
    && if e.factType == Paid then p.originalRef == None && SumReal(p.parts, PartGross()) == e.amount.gross as real
       else SumReal(p.parts, PartGross()) == -(e.amount.gross as real)
            && exists x :: x in pending && Undone(clock, e, x) && p.originalRef == x.reconciliation
  }

  ghost predicate HoldsExplained(clock: string -> real, invoiceId: string, pending: seq<Status>, held: seq<Hold>) {
    forall h :: h in held <==> exists e :: e in pending && HoldDue(clock, invoiceId, pending, e, h)
  }

  /** Every receipt and every reversal of one is posted, nothing else is, and no movement is posted twice. */
  ghost predicate PostingsExplained(clock: string -> real, pending: seq<Status>, postings: seq<Posting>) {
    && (forall p :: p in postings ==> exists e :: e in pending && PostingDue(clock, pending, e, p))
    && (forall e :: e in pending && e.reconciliation.Some? && e.factType == Paid ==>
          exists p :: p in postings && PostingDue(clock, pending, e, p))
    && (forall e, x :: e in pending && e.reconciliation.Some? && x in pending && Undone(clock, e, x) ==>
          exists p :: p in postings && PostingDue(clock, pending, e, p))
    && (forall i, j :: 0 <= i < j < |postings| ==> postings[i].sourceRef != postings[j].sourceRef)
  }

  lemma OrphanExactly(clock: string -> real, observers: map<string, set<string>>, pending: seq<Status>, ordered: seq<Status>, e: Status, x: Status)
    requires Mirrors(observers, pending, ordered) && Represents(e, x) && e.factType == PaymentReversed
    ensures Orphan(clock, observers, ordered, e) <==> forall y :: y in pending ==> !Undone(clock, x, y)
  {
    if d :| d in ordered && Undoes(clock, observers, e, d) {
      var y := UndoneBy(clock, observers, pending, ordered, e, d, x);
      assert y in pending && Undone(clock, x, y);
    }
    if y :| y in pending && Undone(clock, x, y) {
      var d := ReplayOf(ordered, y).value;
      assert Receives(observers, d, y.eventId);
      assert Undoes(clock, observers, e, d);
    }
  }

  lemma UndoneBy(clock: string -> real, observers: map<string, set<string>>, pending: seq<Status>, ordered: seq<Status>, e: Status, d: Status, x: Status)
    returns (y: Status)
    requires Mirrors(observers, pending, ordered) && Represents(e, x) && d in ordered && Undoes(clock, observers, e, d)
    ensures y in pending && Undone(clock, x, y) && y.reconciliation == Some(d.eventId)
  {
    y :| y in pending && Represents(d, y) && y.eventId == e.original.value;
  }

  lemma HoldsLifted(clock: string -> real, invoiceId: string, observers: map<string, set<string>>, pending: seq<Status>, ordered: seq<Status>, b: Books)
    requires Mirrors(observers, pending, ordered) && (forall e :: e in pending ==> e.factType != Invoiced)
    requires HoldsTold(clock, invoiceId, observers, HeldFirst(pending), ordered, b)
    ensures HoldsExplained(clock, invoiceId, pending, b.held)
  {
    forall h
      ensures h in b.held <==> exists e :: e in pending && HoldDue(clock, invoiceId, pending, e, h)
    {
      if h in HeldFirst(pending) {
        var e := UnidentifiedOf(pending, h);
        assert HoldDue(clock, invoiceId, pending, e, h);
      }
      if e :| e in ordered && HeldFor(clock, invoiceId, observers, ordered, e, h) {
        if Settlement(e.factType) {
          var x := ObservationOf(pending, e).value;
          OrphanExactly(clock, observers, pending, ordered, e, x);
          assert HoldDue(clock, invoiceId, pending, x, h);
        } else {
          assert HoldDue(clock, invoiceId, pending, e, h);
        }
      }
      if x :| x in pending && HoldDue(clock, invoiceId, pending, x, h) {
        DueHeld(clock, invoiceId, observers, pending, ordered, x, h);
      }
    }
  }

  lemma UnidentifiedOf(pending: seq<Status>, h: Hold) returns (e: Status)
    requires h in HeldFirst(pending)
    ensures e in pending && Settlement(e.factType) && e.reconciliation.None? && h == Hold(e.eventId, MovementIdentityRequired)
  {
    var late := Filter(pending, IsUnidentified());
    var k :| 0 <= k < |late| && HeldFirst(pending)[k] == h;
    e := late[k];
    assert e in late;
  }

  lemma DueHeld(clock: string -> real, invoiceId: string, observers: map<string, set<string>>, pending: seq<Status>, ordered: seq<Status>, x: Status, h: Hold)
    requires Mirrors(observers, pending, ordered) && x in pending && x.factType != Invoiced && HoldDue(clock, invoiceId, pending, x, h)
    ensures h in HeldFirst(pending) || exists e :: e in ordered && HeldFor(clock, invoiceId, observers, ordered, e, h)
  {
    if Settlement(x.factType) && x.reconciliation.None? {
      var late := Filter(pending, IsUnidentified());
      assert x in late;
      var k :| 0 <= k < |late| && late[k] == x;
      assert HeldFirst(pending)[k] == h;
    } else if Settlement(x.factType) {
      var e := ReplayOf(ordered, x).value;
      OrphanExactly(clock, observers, pending, ordered, e, x);
      assert HeldFor(clock, invoiceId, observers, ordered, e, h);
    } else {
      assert HeldFor(clock, invoiceId, observers, ordered, x, h);
    }
  }

  lemma DuePosted(clock: string -> real, observers: map<string, set<string>>, pending: seq<Status>, ordered: seq<Status>, e: Status, x: Status, p: Posting)
    requires Mirrors(observers, pending, ordered) && Represents(e, x)
    requires PostedAs(clock, observers, ordered, e, p) && WholePosting(p, e)
    ensures PostingDue(clock, pending, x, p)
  {
    if e.factType == PaymentReversed {
      var d :| d in ordered && Undoes(clock, observers, e, d) && p.originalRef == Some(d.eventId);
      var y := UndoneBy(clock, observers, pending, ordered, e, d, x);
      assert y in pending && Undone(clock, x, y) && p.originalRef == y.reconciliation;
    }
  }

  lemma PostingsLifted(clock: string -> real, observers: map<string, set<string>>, pending: seq<Status>, ordered: seq<Status>, b: Books)
    requires Mirrors(observers, pending, ordered) && PostingsTold(clock, observers, ordered, b)
    requires forall p, e :: p in b.postings && e in ordered && PostedAs(clock, observers, ordered, e, p) ==> WholePosting(p, e)
    ensures PostingsExplained(clock, pending, b.postings)
  {
    forall p | p in b.postings
      ensures exists x :: x in pending && PostingDue(clock, pending, x, p)
    {
      var e :| e in ordered && PostedAs(clock, observers, ordered, e, p);
      var x := ObservationOf(pending, e).value;
      DuePosted(clock, observers, pending, ordered, e, x, p);
    }
    forall x | x in pending && x.reconciliation.Some? && (x.factType == Paid || exists y :: y in pending && Undone(clock, x, y))
      ensures exists p :: p in b.postings && PostingDue(clock, pending, x, p)
    {
      var e := ReplayOf(ordered, x).value;
      if e.factType == PaymentReversed {
        OrphanExactly(clock, observers, pending, ordered, e, x);
      }
      var p :| p in b.postings && PostedAs(clock, observers, ordered, e, p);
      DuePosted(clock, observers, pending, ordered, e, x, p);
    }
  }

  lemma PostedWhole(clock: string -> real, observers: map<string, set<string>>, ordered: seq<Status>, postings: seq<Posting>, p: Posting, e: Status)
    requires Chronicle(clock, [], ordered) && PostedFrom(postings, ordered)
    requires p in postings && e in ordered && PostedAs(clock, observers, ordered, e, p)
    ensures WholePosting(p, e)
  {
    var d :| d in ordered && WholePosting(p, d);
    var i :| 0 <= i < |ordered| && ordered[i] == d;
    var j :| 0 <= j < |ordered| && ordered[j] == e;
    assert Follows(clock, [] + ordered[..i], ordered[i]) && Follows(clock, [] + ordered[..j], ordered[j]);
  }

  /** The replay of a settled ledger, as its facts in order tell it. */
  lemma SettledTold(clock: string -> real, invoice: Status, pending: seq<Status>) returns (ms: seq<Movement>, ordered: seq<Status>, b: Books)
    requires invoice.composition.Some? && Settle(clock, invoice, pending).Ok?
    ensures ObserveAll([], Filter(pending, IsIdentified())) == Some(ms) && ordered == Ordered(clock, Filter(pending, IsOther()), ms)
    ensures Settle(clock, invoice, pending) == Ok(LedgerOf(b)) && Chronicle(clock, [], ordered) && Mirrors(Observers(ms), pending, ordered)
    ensures Told(clock, invoice.eventId, Observers(ms), HeldFirst(pending), ordered, b)
  {
    ms, ordered := SettledRun(clock, invoice, pending);
    OrderedMirrors(clock, pending, ms);
    OrderedChronicle(clock, invoice, Filter(pending, IsOther()), ms);
    b := ReplayTold(clock, invoice, pending, ms, ordered);
  }

  lemma ReplayTold(clock: string -> real, invoice: Status, pending: seq<Status>, ms: seq<Movement>, ordered: seq<Status>) returns (b: Books)
    requires invoice.composition.Some? && Chronicle(clock, [], ordered)
    requires Run(clock, invoice, Observers(ms), OpeningBooks(invoice.composition.value.lines, HeldFirst(pending)), ordered).Ok?
    ensures Run(clock, invoice, Observers(ms), OpeningBooks(invoice.composition.value.lines, HeldFirst(pending)), ordered) == Ok(b)
    ensures Told(clock, invoice.eventId, Observers(ms), HeldFirst(pending), ordered, b)
  {
    var opening := OpeningBooks(invoice.composition.value.lines, HeldFirst(pending));
    assert [] + ordered == ordered;
    RunTold(clock, invoice, Observers(ms), HeldFirst(pending), [], opening, ordered);
    b := Run(clock, invoice, Observers(ms), opening, ordered).value;
  }

  lemma AllWhole(clock: string -> real, observers: map<string, set<string>>, ordered: seq<Status>, postings: seq<Posting>)
    requires Chronicle(clock, [], ordered) && PostedFrom(postings, ordered)
    ensures forall p, e :: p in postings && e in ordered && PostedAs(clock, observers, ordered, e, p) ==> WholePosting(p, e)
  {
    forall p, e | p in postings && e in ordered && PostedAs(clock, observers, ordered, e, p)
      ensures WholePosting(p, e)
    {
      PostedWhole(clock, observers, ordered, postings, p, e);
    }
  }

  /** A settled ledger posts every identified receipt and every reversal of one, whole, and holds each other fact exactly for its reason. */
  lemma SettledPostings(clock: string -> real, invoice: Status, pending: seq<Status>)
    requires invoice.composition.Some? && ValidComposed(invoice.composition.value.lines)
    requires (forall e :: e in pending ==> Admissible(e)) && (forall e :: e in pending ==> e.factType != Invoiced)
    requires Settle(clock, invoice, pending).Ok?
    ensures PostingsExplained(clock, pending, Settle(clock, invoice, pending).value.postings)
    ensures HoldsExplained(clock, invoice.eventId, pending, Settle(clock, invoice, pending).value.held)
  {
    var ms, ordered, b := SettledTold(clock, invoice, pending);
    SettledConserved(clock, invoice, pending);
    AllWhole(clock, Observers(ms), ordered, b.postings);
    PostingsLifted(clock, Observers(ms), pending, ordered, b);
    HoldsLifted(clock, invoice.eventId, Observers(ms), pending, ordered, b);
    HeldAlike(b.held);
  }

  lemma {:induction false} HeldAlike(held: seq<Hold>)
    ensures forall h :: h in held <==> h in Sort(held, ByText(HoldId()))
  {
    SortPermutes(held, ByText(HoldId()));
    MembersPermuted(held, Sort(held, ByText(HoldId())));
  }
}
