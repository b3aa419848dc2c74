/** The derived ledger does not depend on the order, or the repetition, in which facts arrive. */
module BillingOrder {
  import opened Prelude
  import opened Sorting
  import opened Billing
  import opened BillingLedger

  // ----- deduplication -----

  ghost function FactsOf(raws: seq<Status>, normal: Status -> Option<Status>): set<Status> {
    set r | r in raws && normal(r).Some? :: normal(r).value
  }

  /** How the raw facts read: their normal forms, and None if one is unreadable. */
  ghost function Readings(raws: seq<Status>, normal: Status -> Option<Status>): set<Option<Status>> {
    set r | r in raws :: normal(r)
  }

  ghost predicate Coherent(facts: set<Status>) {
    forall x, y :: x in facts && y in facts && SameFact(x, y) ==> x == y
  }

  ghost predicate AllNormal(raws: seq<Status>, normal: Status -> Option<Status>) {
    forall r :: r in raws ==> normal(r).Some?
  }

  ghost predicate IdentityUnique(facts: seq<Status>) {
    forall i, j :: 0 <= i < j < |facts| ==> !SameFact(facts[i], facts[j])
  }

  ghost predicate Injective(digest: Status -> string) {
    forall x, y :: digest(x) == digest(y) ==> x == y
  }

  ghost function Elements<T(!new)>(s: seq<T>): set<T> {
    set x | x in s
  }

  lemma SamePlace(facts: seq<Status>, i: nat, j: nat)
    requires IdentityUnique(facts) && i < |facts| && j < |facts| && SameFact(facts[i], facts[j])
    ensures i == j
  {
  }

  lemma RememberMeaning(unique: seq<Status>, n: Status, digest: Status -> string)
    requires Injective(digest) && IdentityUnique(unique)
    ensures var r := Remember(unique, n, digest);
            && (r.Err? ==> r.error == Conflict && exists u :: u in unique && SameFact(u, n) && u != n)
            && (r.Ok? ==> IdentityUnique(r.value) && Elements(r.value) == Elements(unique) + {n})
            && (r.Ok? ==> forall u :: u in unique && SameFact(u, n) ==> u == n)
  {
    var k := IndexOfFact(unique, n);
    if k < |unique| {
      assert unique[k] in unique;
      if digest(unique[k]) == digest(n) {
        assert unique[k := n] == unique;
        forall u | u in unique && SameFact(u, n)
          ensures u == n
        {
          var i :| 0 <= i < |unique| && unique[i] == u;
          SamePlace(unique, i, k);
        }
      }
    } else {
      forall u | u in unique
        ensures !SameFact(u, n)
      {
        var i :| 0 <= i < |unique| && unique[i] == u;
      }
    }
  }

  /** Deduplication succeeds exactly when every fact is readable and none contradicts another. */
  lemma {:induction false} DedupeMeaning(raws: seq<Status>, unique: seq<Status>, normal: Status -> Option<Status>, digest: Status -> string)
    requires Injective(digest) && IdentityUnique(unique)
    ensures var r := Dedupe(raws, unique, normal, digest);
            && (r.Ok? <==> AllNormal(raws, normal) && Coherent(Elements(unique) + FactsOf(raws, normal)))
            && (r.Ok? ==> IdentityUnique(r.value) && Elements(r.value) == Elements(unique) + FactsOf(raws, normal))
            && (r.Err? && AllNormal(raws, normal) ==> r.error == Conflict)
    decreases |raws|
  {
    if raws == [] {
      assert FactsOf(raws, normal) == {};
      assert Elements(unique) + {} == Elements(unique);
      assert Coherent(Elements(unique)) by {
        forall x, y | x in unique && y in unique && SameFact(x, y)
          ensures x == y
        {
          var i :| 0 <= i < |unique| && unique[i] == x;
          var j :| 0 <= j < |unique| && unique[j] == y;
          SamePlace(unique, i, j);
        }
      }
    } else {
      var n := normal(raws[0]);
      assert raws[0] in raws && forall r :: r in raws[1..] ==> r in raws;
      assert forall r :: r in raws <==> r == raws[0] || r in raws[1..];
      if n.Some? {
        RememberMeaning(unique, n.value, digest);
        var next := Remember(unique, n.value, digest);
        assert FactsOf(raws, normal) == {n.value} + FactsOf(raws[1..], normal);
        if next.Ok? {
          DedupeMeaning(raws[1..], next.value, normal, digest);
          assert Elements(unique) + FactsOf(raws, normal) == Elements(next.value) + FactsOf(raws[1..], normal);
        } else {
          var u :| u in unique && SameFact(u, n.value) && u != n.value;
          assert u in Elements(unique) + FactsOf(raws, normal) && n.value in Elements(unique) + FactsOf(raws, normal);
        }
      }
    }
  }

  lemma CoherentRemembers(unique: seq<Status>, n: Status, digest: Status -> string, facts: set<Status>)
    requires Injective(digest) && IdentityUnique(unique) && Coherent(facts) && n in facts && forall u :: u in unique ==> u in facts
    ensures Remember(unique, n, digest).Ok?
  {
    RememberMeaning(unique, n, digest);
  }

  /** A pile whose readable facts do not contradict each other is only ever refused as unreadable. */
  lemma {:induction false} CoherentNeverConflicts(raws: seq<Status>, unique: seq<Status>, normal: Status -> Option<Status>, digest: Status -> string)
    requires Injective(digest) && IdentityUnique(unique) && Coherent(Elements(unique) + FactsOf(raws, normal))
    ensures var r := Dedupe(raws, unique, normal, digest); r.Err? ==> r.error == InvalidInput
    decreases |raws|
  {
    if raws != [] && normal(raws[0]).Some? {
      var n := normal(raws[0]).value;
      assert forall r :: r in raws <==> r == raws[0] || r in raws[1..];
      assert FactsOf(raws, normal) == {n} + FactsOf(raws[1..], normal);
      CoherentRemembers(unique, n, digest, Elements(unique) + FactsOf(raws, normal));
      RememberMeaning(unique, n, digest);
      var next := Remember(unique, n, digest).value;
      assert Elements(unique) + FactsOf(raws, normal) == Elements(next) + FactsOf(raws[1..], normal);
      CoherentNeverConflicts(raws[1..], next, normal, digest);
    }
  }

  // ----- grouping movements -----

  ghost predicate Agree(seen: seq<Status>) {
    forall x, y :: x in seen && y in seen && x.reconciliation == y.reconciliation ==> Signature(x) == Signature(y)
  }

  ghost predicate Identified(seen: seq<Status>) {
    forall e :: e in seen ==> e.reconciliation.Some?
  }

  /** The observation ids of one movement. */
  function Observed(seen: seq<Status>, id: string): set<string> {
    set e | e in seen && e.reconciliation == Some(id) :: e.eventId
  }

  ghost predicate DistinctIds(ms: seq<Movement>) {
    forall i, j :: 0 <= i < j < |ms| ==> ms[i].id != ms[j].id
  }

  /** Every movement carries one of its own facts. */
  ghost predicate Represented(ms: seq<Movement>, seen: seq<Status>) {
    forall i :: 0 <= i < |ms| ==>
      ms[i].event in seen && ms[i].event.reconciliation == Some(ms[i].id) && ms[i].signature == Signature(ms[i].event)
  }

  /** Every movement lists exactly its observations. */
  ghost predicate Listed(ms: seq<Movement>, seen: seq<Status>) {
    forall i :: 0 <= i < |ms| ==> Elements(ms[i].observations) == Observed(seen, ms[i].id)
  }

  predicate CoveredBy(ms: seq<Movement>, e: Status) {
    e.reconciliation.Some? &&
    var k := IndexOfMovement(ms, e.reconciliation.value);
    k < |ms| && ms[k].signature == Signature(e)
  }

  /** Every fact seen belongs to a movement with its signature. */
  ghost predicate Covers(ms: seq<Movement>, seen: seq<Status>) {
    forall e :: e in seen ==> CoveredBy(ms, e)
  }

  /** What a grouping of the facts seen so far amounts to. */
  ghost predicate Grouped(ms: seq<Movement>, seen: seq<Status>) {
    DistinctIds(ms) && Represented(ms, seen) && Listed(ms, seen) && Covers(ms, seen)
  }

  lemma {:induction false} MovementAt(ms: seq<Movement>, id: string, k: nat)
    requires k < |ms| && ms[k].id == id && forall i :: 0 <= i < k ==> ms[i].id != id
    ensures IndexOfMovement(ms, id) == k
  {
  }

  lemma ObservedGrows(seen: seq<Status>, e: Status, id: string)
    ensures Observed(seen + [e], id) == Observed(seen, id) + (if e.reconciliation == Some(id) then {e.eventId} else {})
  {
    assert forall x :: x in seen + [e] <==> x in seen || x == e;
  }

  lemma {:induction false} NotObserved(ms: seq<Movement>, seen: seq<Status>, id: string)
    requires Covers(ms, seen) && IndexOfMovement(ms, id) == |ms|
    ensures Observed(seen, id) == {}
  {
    forall e | e in seen
      ensures e.reconciliation != Some(id)
    {
      assert CoveredBy(ms, e);
    }
  }

  lemma {:induction false} CoversNew(ms: seq<Movement>, seen: seq<Status>, e: Status, added: Movement)
    requires Covers(ms, seen) && e.reconciliation == Some(added.id) && added.signature == Signature(e)
    requires IndexOfMovement(ms, added.id) == |ms|
    ensures Covers(ms + [added], seen + [e])
  {
    var ms' := ms + [added];
    forall x | x in seen + [e]
      ensures CoveredBy(ms', x)
    {
      if x in seen {
        assert CoveredBy(ms, x);
        MovementAt(ms', x.reconciliation.value, IndexOfMovement(ms, x.reconciliation.value));
      } else {
        MovementAt(ms', added.id, |ms|);
      }
    }
  }

  lemma StillCovered(ms: seq<Movement>, k: nat, grown: Movement, x: Status)
    requires CoveredBy(ms, x) && k < |ms| && grown.id == ms[k].id && grown.signature == ms[k].signature
    ensures CoveredBy(ms[k := grown], x)
  {
    MovementAt(ms[k := grown], x.reconciliation.value, IndexOfMovement(ms, x.reconciliation.value));
  }

  lemma {:induction false} CoversKnown(ms: seq<Movement>, seen: seq<Status>, e: Status, k: nat, grown: Movement)
    requires Covers(ms, seen) && k < |ms| && grown.id == ms[k].id && grown.signature == ms[k].signature == Signature(e)
    requires e.reconciliation == Some(grown.id) && IndexOfMovement(ms, grown.id) == k
    ensures Covers(ms[k := grown], seen + [e])
  {
    var ms' := ms[k := grown];
    forall x | x in seen + [e]
      ensures CoveredBy(ms', x)
    {
      if x in seen {
        StillCovered(ms, k, grown, x);
      } else {
        MovementAt(ms', grown.id, k);
      }
    }
  }

  lemma ListedGrows(ms: seq<Movement>, seen: seq<Status>, e: Status, ms': seq<Movement>, k: nat)
    requires Listed(ms, seen) && DistinctIds(ms') && k < |ms'| && e.reconciliation == Some(ms'[k].id)
    requires forall i :: 0 <= i < |ms'| && i != k ==> i < |ms| && ms'[i] == ms[i]
    requires Elements(ms'[k].observations) == Observed(seen, ms'[k].id) + {e.eventId}
    ensures Listed(ms', seen + [e])
  {
    forall i | 0 <= i < |ms'|
      ensures Elements(ms'[i].observations) == Observed(seen + [e], ms'[i].id)
    {
      ObservedGrows(seen, e, ms'[i].id);
    }
  }

  /** A movement seen for the first time. */
  lemma {:induction false} NewKeeps(ms: seq<Movement>, seen: seq<Status>, e: Status, id: string)
    requires Grouped(ms, seen) && e.reconciliation == Some(id) && IndexOfMovement(ms, id) == |ms|
    ensures Grouped(ms + [Movement(id, Signature(e), e, [e.eventId])], seen + [e])
  {
    var ms' := ms + [Movement(id, Signature(e), e, [e.eventId])];
    NotObserved(ms, seen, id);
    assert Elements([e.eventId]) == {e.eventId};
    CoversNew(ms, seen, e, ms'[|ms|]);
    ListedGrows(ms, seen, e, ms', |ms|);
  }

  /** Another observation of a known movement. */
  lemma {:induction false} KnownKeeps(ms: seq<Movement>, seen: seq<Status>, e: Status, k: nat, grown: Movement)
    requires Grouped(ms, seen) && k < |ms| && e.reconciliation == Some(ms[k].id) && IndexOfMovement(ms, ms[k].id) == k
    requires ms[k].signature == Signature(e) && grown == ms[k].(observations := ms[k].observations + [e.eventId])
    ensures Grouped(ms[k := grown], seen + [e])
  {
    assert Elements(grown.observations) == Elements(ms[k].observations) + {e.eventId};
    CoversKnown(ms, seen, e, k, grown);
    ListedGrows(ms, seen, e, ms[k := grown], k);
  }

  lemma ObserveKeeps(ms: seq<Movement>, seen: seq<Status>, e: Status)
    requires Grouped(ms, seen) && e.reconciliation.Some?
    ensures Observe(ms, e).Some? ==> Grouped(Observe(ms, e).value, seen + [e])
  {
    var id := e.reconciliation.value;
    var k := IndexOfMovement(ms, id);
    if Observe(ms, e).Some? {
      if k == |ms| {
        NewKeeps(ms, seen, e, id);
      } else {
        KnownKeeps(ms, seen, e, k, ms[k].(observations := ms[k].observations + [e.eventId]));
      }
    }
  }

  lemma ObserveRefuses(ms: seq<Movement>, seen: seq<Status>, e: Status) returns (x: Status)
    requires Grouped(ms, seen) && e.reconciliation.Some? && Observe(ms, e).None?
    ensures x in seen && x.reconciliation == e.reconciliation && Signature(x) != Signature(e)
  {
    x := ms[IndexOfMovement(ms, e.reconciliation.value)].event;
  }

  /** Grouping succeeds exactly when observations of one movement agree. */
  lemma {:induction false} ObserveAllMeaning(ms: seq<Movement>, seen: seq<Status>, rest: seq<Status>)
    requires Grouped(ms, seen) && Identified(rest)
    ensures ObserveAll(ms, rest).Some? ==> Grouped(ObserveAll(ms, rest).value, seen + rest)
    ensures ObserveAll(ms, rest).Some? <==> Agree(seen + rest)
    decreases |rest|
  {
    if rest == [] {
      assert seen + rest == seen;
      GroupedAgrees(ms, seen);
    } else {
      var e := rest[0];
      assert e in rest && forall x :: x in rest[1..] ==> x in rest;
      assert seen + rest == (seen + [e]) + rest[1..];
      if Observe(ms, e).Some? {
        ObserveKeeps(ms, seen, e);
        ObserveAllMeaning(Observe(ms, e).value, seen + [e], rest[1..]);
      } else {
        var x := ObserveRefuses(ms, seen, e);
        assert x in seen + rest && e in seen + rest;
      }
    }
  }

  lemma GroupedAgrees(ms: seq<Movement>, seen: seq<Status>)
    requires Covers(ms, seen)
    ensures Agree(seen)
  {
    forall x, y | x in seen && y in seen && x.reconciliation == y.reconciliation
      ensures Signature(x) == Signature(y)
    {
      assert CoveredBy(ms, x) && CoveredBy(ms, y);
    }
  }

  // ----- what the replay does not look at -----

  /** A fact without its remittance reference, the one field two observations may disagree on. */
  function Plain(): Status -> Status {
    (e: Status) => e.(remittance := None)
  }

  lemma InputIgnoresRemittance(clock: string -> real, invoice: Status, b: Books, e: Status)
    requires Sized(invoice, b)
    ensures Reversed(b, Plain()(e)) == Reversed(b, e)
    ensures InputOf(clock, invoice, b, Plain()(e), Reversed(b, e)) == InputOf(clock, invoice, b, e, Reversed(b, e))
  {
  }

  lemma StepIgnoresRemittance(clock: string -> real, invoice: Status, observers: map<string, set<string>>, b: Books, e: Status)
    requires Sized(invoice, b)
    ensures Step(clock, invoice, observers, b, e) == Step(clock, invoice, observers, b, Plain()(e))
  {
    if e.factType == Credited || e.factType == Rejected {
      DetailsIgnoreRemittance(clock, invoice.composition.value.lines, e, b.lines, e.adjustments);
    } else {
      InputIgnoresRemittance(clock, invoice, b, e);
    }
  }

  lemma {:induction false} DetailsIgnoreRemittance(clock: string -> real, composed: seq<InvoiceLine>, e: Status, lines: seq<LedgerLine>, details: seq<Adjustment>)
    ensures ApplyDetails(clock, composed, e, lines, details) == ApplyDetails(clock, composed, Plain()(e), lines, details)
    decreases |details|
  {
    if details != [] && ApplyDetail(clock, composed, e, lines, details[0]).Some? {
      DetailsIgnoreRemittance(clock, composed, e, ApplyDetail(clock, composed, e, lines, details[0]).value, details[1..]);
    }
  }

  lemma {:induction false} RunIgnoresRemittance(clock: string -> real, invoice: Status, observers: map<string, set<string>>, b: Books, ordered: seq<Status>)
    requires Sized(invoice, b)
    ensures Run(clock, invoice, observers, b, ordered) == Run(clock, invoice, observers, b, Map(ordered, Plain()))
    decreases |ordered|
  {
    if ordered != [] {
      StepIgnoresRemittance(clock, invoice, observers, b, ordered[0]);
      var next := Step(clock, invoice, observers, b, ordered[0]);
      assert Map(ordered, Plain())[1..] == Map(ordered[1..], Plain());
      if next.Ok? {
        RunIgnoresRemittance(clock, invoice, observers, next.value, ordered[1..]);
      }
    }
  }

  /** The books with more holds already made. */
  function InFront(holds: seq<Hold>, b: Books): Books {
    b.(held := holds + b.held)
  }

  function AllInFront(holds: seq<Hold>, r: Result<Books, BillingError>): Result<Books, BillingError> {
    if r.Ok? then Ok(InFront(holds, r.value)) else r
  }

  lemma StepKeepsFront(clock: string -> real, invoice: Status, observers: map<string, set<string>>, b: Books, e: Status, holds: seq<Hold>)
    requires Sized(invoice, b)
    ensures Step(clock, invoice, observers, InFront(holds, b), e) == AllInFront(holds, Step(clock, invoice, observers, b, e))
  {
    assert forall h: Hold :: holds + (b.held + [h]) == (holds + b.held) + [h];
  }

  lemma {:induction false} RunKeepsFront(clock: string -> real, invoice: Status, observers: map<string, set<string>>, b: Books, ordered: seq<Status>, holds: seq<Hold>)
    requires Sized(invoice, b)
    ensures Run(clock, invoice, observers, InFront(holds, b), ordered) == AllInFront(holds, Run(clock, invoice, observers, b, ordered))
    decreases |ordered|
  {
    if ordered != [] {
      StepKeepsFront(clock, invoice, observers, b, ordered[0], holds);
      var next := Step(clock, invoice, observers, b, ordered[0]);
      if next.Ok? {
        RunKeepsFront(clock, invoice, observers, next.value, ordered[1..], holds);
      }
    }
  }

  // ----- permuted pending facts -----

  lemma PermutedObserved(a: seq<Status>, b: seq<Status>, id: string)
    requires multiset(a) == multiset(b)
    ensures Observed(a, id) == Observed(b, id)
  {
    MembersPermuted(a, b);
  }

  lemma GroupedObservers(ms: seq<Movement>, seen: seq<Status>, id: string)
    requires Grouped(ms, seen) && id in MovementIds(ms)
    ensures ObservedBy(ms, id) == Observed(seen, id)
  {
    var m :| m in ms && m.id == id;
    var k :| 0 <= k < |ms| && ms[k] == m;
    forall n, o | n in ms && n.id == id && o in n.observations
      ensures o in Observed(seen, id)
    {
      var j :| 0 <= j < |ms| && ms[j] == n;
      assert o in Elements(ms[j].observations);
    }
    forall o | o in Observed(seen, id)
      ensures o in ObservedBy(ms, id)
    {
      assert o in Elements(ms[k].observations);
    }
  }

  lemma MatchingMovement(a: seq<Movement>, seenA: seq<Status>, b: seq<Movement>, seenB: seq<Status>, m: Movement) returns (n: Movement)
    requires Grouped(a, seenA) && Grouped(b, seenB) && multiset(seenA) == multiset(seenB) && m in a
    ensures n in b && n.id == m.id && n.signature == m.signature
  {
    MembersPermuted(seenA, seenB);
    var k :| 0 <= k < |a| && a[k] == m;
    assert CoveredBy(b, a[k].event);
    n := b[IndexOfMovement(b, m.id)];
  }

  lemma SameObservers(a: seq<Movement>, seenA: seq<Status>, b: seq<Movement>, seenB: seq<Status>)
    requires Grouped(a, seenA) && Grouped(b, seenB) && multiset(seenA) == multiset(seenB)
    ensures Observers(a) == Observers(b)
  {
    forall id
      ensures id in MovementIds(a) <==> id in MovementIds(b)
    {
      if id in MovementIds(a) {
        var m :| m in a && m.id == id;
        var n := MatchingMovement(a, seenA, b, seenB, m);
      }
      if id in MovementIds(b) {
        var m :| m in b && m.id == id;
        var n := MatchingMovement(b, seenB, a, seenA, m);
      }
    }
    forall id | id in MovementIds(a)
      ensures ObservedBy(a, id) == ObservedBy(b, id)
    {
      GroupedObservers(a, seenA, id);
      GroupedObservers(b, seenB, id);
      PermutedObserved(seenA, seenB, id);
    }
  }

  /** A movement's fact without the fields observations may disagree on. */
  function PlainEconomic(): Movement -> Status {
    (m: Movement) => m.event.(eventId := m.id, remittance := None)
  }

  lemma PlainFromSignature(ms: seq<Movement>, seen: seq<Status>, m: Movement)
    requires Represented(ms, seen) && m in ms
    ensures PlainEconomic()(m) == m.signature.(eventId := m.id)
  {
    var k :| 0 <= k < |ms| && ms[k] == m;
  }

  lemma SamePlainMovements(a: seq<Movement>, seenA: seq<Status>, b: seq<Movement>, seenB: seq<Status>)
    requires Grouped(a, seenA) && Grouped(b, seenB) && multiset(seenA) == multiset(seenB)
    ensures multiset(Map(a, PlainEconomic())) == multiset(Map(b, PlainEconomic()))
  {
    PlainMovementsIncluded(a, seenA, b, seenB);
    PlainMovementsIncluded(b, seenB, a, seenA);
    PlainMovementsDistinct(a);
    PlainMovementsDistinct(b);
    DistinctSameElements(Map(a, PlainEconomic()), Map(b, PlainEconomic()));
  }

  lemma PlainMovementsDistinct(ms: seq<Movement>)
    requires DistinctIds(ms)
    ensures Distinct(Map(ms, PlainEconomic()))
  {
    var mapped := Map(ms, PlainEconomic());
    forall i, j | 0 <= i < j < |ms|
      ensures mapped[i] != mapped[j]
    {
      assert mapped[i].eventId == ms[i].id && mapped[j].eventId == ms[j].id;
    }
  }

  lemma PlainMovementsIncluded(a: seq<Movement>, seenA: seq<Status>, b: seq<Movement>, seenB: seq<Status>)
    requires Grouped(a, seenA) && Grouped(b, seenB) && multiset(seenA) == multiset(seenB)
    ensures forall x :: x in Map(a, PlainEconomic()) ==> x in Map(b, PlainEconomic())
  {
    forall x | x in Map(a, PlainEconomic())
      ensures x in Map(b, PlainEconomic())
    {
      var k :| 0 <= k < |a| && PlainEconomic()(a[k]) == x;
      var n := MatchingMovement(a, seenA, b, seenB, a[k]);
      PlainFromSignature(a, seenA, a[k]);
      PlainFromSignature(b, seenB, n);
      var j :| 0 <= j < |b| && b[j] == n;
      assert Map(b, PlainEconomic())[j] == x;
    }
  }

  function Instant(clock: string -> real): Status -> real {
    (e: Status) => clock(e.effectiveAt)
  }

  function RealLe(): (real, real) -> bool {
    (x: real, y: real) => x <= y
  }

  /** The facts to order, without their remittance references. */
  function PlainFacts(others: seq<Status>, ms: seq<Movement>): seq<Status> {
    Map(others, Plain()) + Map(ms, PlainEconomic())
  }

  lemma PlainOrdered(clock: string -> real, others: seq<Status>, ms: seq<Movement>)
    ensures Map(Ordered(clock, others, ms), Plain()) == Sort(PlainFacts(others, ms), ByInstant(clock))
    ensures Map(Ordered(clock, others, ms), Instant(clock)) == Sort(Map(PlainFacts(others, ms), Instant(clock)), RealLe())
  {
    var facts := others + Map(ms, Economic());
    MapAppend(others, Map(ms, Economic()), Plain());
    assert Map(Map(ms, Economic()), Plain()) == Map(ms, PlainEconomic());
    SortMap(facts, Plain(), ByInstant(clock), ByInstant(clock));
    SortMap(facts, Instant(clock), ByInstant(clock), RealLe());
    assert Map(facts, Instant(clock)) == Map(PlainFacts(others, ms), Instant(clock));
  }

  lemma UnambiguousByInstants(clock: string -> real, invoice: Status, a: seq<Status>, b: seq<Status>)
    requires Map(a, Instant(clock)) == Map(b, Instant(clock))
    ensures Unambiguous(clock, invoice, a) == Unambiguous(clock, invoice, b)
  {
    var x, y := Map(a, Instant(clock)), Map(b, Instant(clock));
    assert |a| == |x| == |y| == |b|;
    forall i | 0 <= i < |a|
      ensures clock(a[i].effectiveAt) == clock(b[i].effectiveAt)
    {
      assert x[i] == y[i];
    }
  }

  lemma {:induction false} StrictlyLater(clock: string -> real, invoice: Status, ordered: seq<Status>, i: nat, j: nat)
    requires Unambiguous(clock, invoice, ordered) && Sorted(ordered, ByInstant(clock)) && i < j < |ordered|
    ensures clock(ordered[i].effectiveAt) < clock(ordered[j].effectiveAt)
  {
    SortedAt(ordered, ByInstant(clock), j - 1, j);
    if i < j - 1 {
      SortedAt(ordered, ByInstant(clock), i, j - 1);
    }
  }

  lemma {:induction false} UnambiguousTieFree(clock: string -> real, invoice: Status, facts: seq<Status>)
    requires Unambiguous(clock, invoice, Sort(facts, ByInstant(clock)))
    ensures TieFree(facts, ByInstant(clock))
  {
    var ordered := Sort(facts, ByInstant(clock));
    SortPermutes(facts, ByInstant(clock));
    SortSorts(facts, ByInstant(clock));
    MembersPermuted(facts, ordered);
    forall x, y | x in facts && y in facts && ByInstant(clock)(x, y) && ByInstant(clock)(y, x)
      ensures x == y
    {
      var i :| 0 <= i < |ordered| && ordered[i] == x;
      var j :| 0 <= j < |ordered| && ordered[j] == y;
      if i < j { StrictlyLater(clock, invoice, ordered, i, j); }
      if j < i { StrictlyLater(clock, invoice, ordered, j, i); }
    }
  }

  /** The economic order of permuted facts is refused together, and is the same order when it is not. */
  lemma OrderedPermuted(clock: string -> real, invoice: Status, othersA: seq<Status>, msA: seq<Movement>, othersB: seq<Status>, msB: seq<Movement>)
    requires multiset(othersA) == multiset(othersB)
    requires multiset(Map(msA, PlainEconomic())) == multiset(Map(msB, PlainEconomic()))
    ensures var a, b := Ordered(clock, othersA, msA), Ordered(clock, othersB, msB);
            && Unambiguous(clock, invoice, a) == Unambiguous(clock, invoice, b)
            && (Unambiguous(clock, invoice, a) ==> Map(a, Plain()) == Map(b, Plain()))
  {
    var a, b := Ordered(clock, othersA, msA), Ordered(clock, othersB, msB);
    var factsA, factsB := PlainFacts(othersA, msA), PlainFacts(othersB, msB);
    MapPermuted(othersA, othersB, Plain());
    assert multiset(factsA) == multiset(factsB);
    PlainOrdered(clock, othersA, msA);
    PlainOrdered(clock, othersB, msB);
    MapPermuted(factsA, factsB, Instant(clock));
    SortForgetsOrder(Map(factsA, Instant(clock)), Map(factsB, Instant(clock)), RealLe());
    UnambiguousByInstants(clock, invoice, a, b);
    if Unambiguous(clock, invoice, a) {
      assert Map(a, Instant(clock)) == Map(Map(a, Plain()), Instant(clock));
      UnambiguousByInstants(clock, invoice, a, Map(a, Plain()));
      UnambiguousTieFree(clock, invoice, factsA);
      SortForgetsOrder(factsA, factsB, ByInstant(clock));
    }
  }

  lemma HoldsTieFree(holds: seq<Hold>, reason: HoldReason)
    requires forall h :: h in holds ==> h.reason == reason
    ensures TieFree(holds, ByText(HoldId()))
  {
    ByTextTotal(HoldId());
  }

  lemma {:induction false} HeldSorted(a: seq<Hold>, b: seq<Hold>, rest: seq<Hold>, reason: HoldReason)
    requires multiset(a) == multiset(b) && forall h :: h in a ==> h.reason == reason
    ensures Sort(a + rest, ByText(HoldId())) == Sort(b + rest, ByText(HoldId()))
  {
    ByTextTotal(HoldId());
    HoldsTieFree(a, reason);
    SortForgetsFront(a, b, rest, ByText(HoldId()));
  }

  lemma UnidentifiedReason(events: seq<Status>)
    ensures forall h :: h in Map(events, UnidentifiedHold()) ==> h.reason == MovementIdentityRequired
  {
  }

  /** Replays that start from permuted holds end in the same ledger. */
  lemma {:induction false} RunsAgree(clock: string -> real, invoice: Status, observers: map<string, set<string>>, a: seq<Status>, b: seq<Status>, holdsA: seq<Hold>, holdsB: seq<Hold>)
    requires invoice.composition.Some? && Map(a, Plain()) == Map(b, Plain()) && multiset(holdsA) == multiset(holdsB)
    requires forall h :: h in holdsA ==> h.reason == MovementIdentityRequired
    ensures var lines := invoice.composition.value.lines;
            var x, y := Run(clock, invoice, observers, OpeningBooks(lines, holdsA), a), Run(clock, invoice, observers, OpeningBooks(lines, holdsB), b);
            && (x.Ok? <==> y.Ok?)
            && (x.Ok? ==> LedgerOf(x.value) == LedgerOf(y.value))
            && (x.Err? ==> x == y)
  {
    var start := OpeningBooks(invoice.composition.value.lines, []);
    assert holdsA + [] == holdsA && holdsB + [] == holdsB;
    RunIgnoresRemittance(clock, invoice, observers, start, a);
    RunIgnoresRemittance(clock, invoice, observers, start, b);
    RunKeepsFront(clock, invoice, observers, start, a, holdsA);
    RunKeepsFront(clock, invoice, observers, start, b, holdsB);
    var r := Run(clock, invoice, observers, start, a);
    if r.Ok? {
      HeldSorted(holdsA, holdsB, r.value.held, MovementIdentityRequired);
    }
  }

  // ----- permuted and repeated facts -----

  lemma SettlePermuted(clock: string -> real, invoice: Status, a: seq<Status>, b: seq<Status>)
    requires invoice.composition.Some? && multiset(a) == multiset(b)
    ensures Settle(clock, invoice, a) == Settle(clock, invoice, b)
  {
    var seenA, seenB := Filter(a, IsIdentified()), Filter(b, IsIdentified());
    FilterPermuted(a, b, IsIdentified());
    FilterPermuted(a, b, IsOther());
    FilterPermuted(a, b, IsUnidentified());
    MembersPermuted(seenA, seenB);
    assert [] + seenA == seenA && [] + seenB == seenB;
    ObserveAllMeaning([], [], seenA);
    ObserveAllMeaning([], [], seenB);
    assert Agree(seenA) <==> Agree(seenB);
    var msA, msB := ObserveAll([], seenA), ObserveAll([], seenB);
    if msA.Some? {
      SamePlainMovements(msA.value, seenA, msB.value, seenB);
      SameObservers(msA.value, seenA, msB.value, seenB);
      OrderedPermuted(clock, invoice, Filter(a, IsOther()), msA.value, Filter(b, IsOther()), msB.value);
      var orderedA, orderedB := Ordered(clock, Filter(a, IsOther()), msA.value), Ordered(clock, Filter(b, IsOther()), msB.value);
      var holdsA, holdsB := Map(Filter(a, IsUnidentified()), UnidentifiedHold()), Map(Filter(b, IsUnidentified()), UnidentifiedHold());
      if Unambiguous(clock, invoice, orderedA) {
        MapPermuted(Filter(a, IsUnidentified()), Filter(b, IsUnidentified()), UnidentifiedHold());
        UnidentifiedReason(Filter(a, IsUnidentified()));
        RunsAgree(clock, invoice, Observers(msA.value), orderedA, orderedB, holdsA, holdsB);
      }
    }
  }

  lemma EmptyPermuted(a: seq<Status>, b: seq<Status>, reason: HoldReason)
    requires multiset(a) == multiset(b)
    ensures EmptyLedger(a, reason) == EmptyLedger(b, reason)
  {
    MapPermuted(a, b, AllHeld(reason));
    ByTextTotal(HoldId());
    HoldsTieFree(Map(a, AllHeld(reason)), reason);
    SortForgetsOrder(Map(a, AllHeld(reason)), Map(b, AllHeld(reason)), ByText(HoldId()));
  }

  lemma {:induction false} SingleInvoice(a: seq<Status>, b: seq<Status>)
    requires multiset(a) == multiset(b)
    ensures var x, y := Filter(a, IsInvoice()), Filter(b, IsInvoice());
            |x| == |y| && (|x| == 1 ==> x[0] == y[0])
  {
    FilterPermuted(a, b, IsInvoice());
    var x, y := Filter(a, IsInvoice()), Filter(b, IsInvoice());
    MembersPermuted(x, y);
    if |x| == 1 {
      assert x[0] in y;
    }
  }

  lemma ContextPermuted(a: seq<Status>, b: seq<Status>)
    requires multiset(a) == multiset(b)
    ensures OneContext(a) == OneContext(b)
  {
    MembersPermuted(a, b);
  }

  lemma SettleAllPermuted(clock: string -> real, a: seq<Status>, b: seq<Status>)
    requires multiset(a) == multiset(b)
    ensures SettleAll(clock, a) == SettleAll(clock, b)
  {
    ContextPermuted(a, b);
    SingleInvoice(a, b);
    EmptyPermuted(a, b, InvoiceRequired);
    EmptyPermuted(a, b, CompositionRequired);
    var x := Filter(a, IsInvoice());
    if |x| == 1 && x[0].composition.Some? {
      FilterPermuted(a, b, IsPending());
      SettlePermuted(clock, x[0], Filter(a, IsPending()), Filter(b, IsPending()));
    }
  }

  lemma UniqueIsDistinct(facts: seq<Status>)
    requires IdentityUnique(facts)
    ensures Distinct(facts)
  {
  }

  /**
   * Order independence. Two piles of raw facts that normalize to the same facts, whatever their
   * order and repetitions, give the same ledger, or are both refused. When every fact is readable,
   * or no two readable facts contradict each other, even the refusal is the same.
   */
  lemma ArrivalIrrelevant(normal: Status -> Option<Status>, digest: Status -> string, clock: string -> real, a: seq<Status>, b: seq<Status>)
    requires Injective(digest) && |a| <= MAX_LINES && |b| <= MAX_LINES
    requires Readings(a, normal) == Readings(b, normal)
    ensures Derive(normal, digest, clock, a).Ok? <==> Derive(normal, digest, clock, b).Ok?
    ensures Derive(normal, digest, clock, a).Ok? ==> Derive(normal, digest, clock, a) == Derive(normal, digest, clock, b)
    ensures AllNormal(a, normal) || Coherent(FactsOf(a, normal)) ==> Derive(normal, digest, clock, a) == Derive(normal, digest, clock, b)
  {
    assert Elements<Status>([]) + FactsOf(a, normal) == FactsOf(a, normal) && Elements<Status>([]) + FactsOf(b, normal) == FactsOf(b, normal);
    if Coherent(FactsOf(a, normal)) {
      SameFacts(a, b, normal);
      SameFacts(b, a, normal);
      CoherentNeverConflicts(a, [], normal, digest);
      CoherentNeverConflicts(b, [], normal, digest);
    }
    DedupeMeaning(a, [], normal, digest);
    DedupeMeaning(b, [], normal, digest);
    SameFacts(a, b, normal);
    SameFacts(b, a, normal);
    assert Elements<Status>([]) + FactsOf(a, normal) == Elements<Status>([]) + FactsOf(b, normal);
    var x, y := Dedupe(a, [], normal, digest), Dedupe(b, [], normal, digest);
    if x.Ok? {
      UniqueIsDistinct(x.value);
      UniqueIsDistinct(y.value);
      forall e
        ensures e in x.value <==> e in y.value
      {
        assert e in Elements(x.value) <==> e in Elements(y.value);
      }
      DistinctSameElements(x.value, y.value);
      SettleAllPermuted(clock, x.value, y.value);
    }
  }

  lemma SameFacts(a: seq<Status>, b: seq<Status>, normal: Status -> Option<Status>)
    requires Readings(a, normal) == Readings(b, normal)
    ensures FactsOf(a, normal) <= FactsOf(b, normal)
    ensures AllNormal(b, normal) ==> AllNormal(a, normal)
  {
    forall r | r in a
      ensures exists t :: t in b && normal(t) == normal(r)
    {
      assert normal(r) in Readings(a, normal);
    }
  }

  // ----- what arrival does decide -----

  lemma SameReadings(a: seq<Status>, b: seq<Status>, normal: Status -> Option<Status>)
    requires multiset(a) == multiset(b)
    ensures Readings(a, normal) == Readings(b, normal)
  {
    MembersPermuted(a, b);
  }

  lemma BadFirst(normal: Status -> Option<Status>, digest: Status -> string, clock: string -> real, bad: Status, rest: seq<Status>)
    requires normal(bad) == None
    ensures Derive(normal, digest, clock, [bad] + rest) == Err(InvalidInput)
  {
  }

  lemma ContradictionFirst(normal: Status -> Option<Status>, digest: Status -> string, clock: string -> real,
                           x: Status, y: Status, rest: seq<Status>)
    requires normal(x).Some? && normal(y).Some? && |rest| + 2 <= MAX_LINES
    requires SameFact(normal(x).value, normal(y).value) && digest(normal(x).value) != digest(normal(y).value)
    ensures Derive(normal, digest, clock, [x, y] + rest) == Err(Conflict)
  {
    var raws, n := [x, y] + rest, normal(x).value;
    assert raws[1..] == [y] + rest && [] + [n] == [n];
    assert Remember([], n, digest) == Ok([n]);
    assert Remember([n], normal(y).value, digest) == Err(Conflict);
    assert Dedupe([y] + rest, [n], normal, digest) == Err(Conflict);
  }

  /** Two positions of a pile can be brought to its front. */
  lemma BroughtForward<T>(a: seq<T>, i: nat, j: nat) returns (rest: seq<T>)
    requires i < |a| && j < |a| && i != j
    ensures multiset([a[i], a[j]] + rest) == multiset(a) && |rest| + 2 == |a|
  {
    var others := a[..i] + a[i + 1..];
    var k := if j < i then j else j - 1;
    assert others[k] == a[j];
    rest := others[..k] + others[k + 1..];
    TakeOut(a, i);
    TakeOut(others, k);
    assert [a[i], a[j]] + rest == [a[i]] + ([a[j]] + rest);
  }

  lemma Unreadable(normal: Status -> Option<Status>, digest: Status -> string, clock: string -> real, a: seq<Status>) returns (b: seq<Status>)
    requires |a| <= MAX_LINES && !AllNormal(a, normal)
    ensures multiset(b) == multiset(a) && Derive(normal, digest, clock, b) == Err(InvalidInput)
  {
    var k :| 0 <= k < |a| && normal(a[k]).None?;
    TakeOut(a, k);
    b := [a[k]] + (a[..k] + a[k + 1..]);
    BadFirst(normal, digest, clock, a[k], a[..k] + a[k + 1..]);
  }

  lemma FindContradiction(normal: Status -> Option<Status>, a: seq<Status>) returns (i: nat, j: nat)
    requires !Coherent(FactsOf(a, normal))
    ensures i < |a| && j < |a| && normal(a[i]).Some? && normal(a[j]).Some?
    ensures SameFact(normal(a[i]).value, normal(a[j]).value) && normal(a[i]) != normal(a[j])
  {
    var m, n :| m in FactsOf(a, normal) && n in FactsOf(a, normal) && SameFact(m, n) && m != n;
    var x :| x in a && normal(x) == Some(m);
    var y :| y in a && normal(y) == Some(n);
    i :| 0 <= i < |a| && a[i] == x;
    j :| 0 <= j < |a| && a[j] == y;
  }

  lemma Contradictory(normal: Status -> Option<Status>, digest: Status -> string, clock: string -> real, a: seq<Status>) returns (c: seq<Status>)
    requires Injective(digest) && |a| <= MAX_LINES && !Coherent(FactsOf(a, normal))
    ensures multiset(c) == multiset(a) && Derive(normal, digest, clock, c) == Err(Conflict)
  {
    var i, j := FindContradiction(normal, a);
    var rest := BroughtForward(a, i, j);
    c := [a[i], a[j]] + rest;
    ContradictionFirst(normal, digest, clock, a[i], a[j], rest);
  }

  /**
   * Exactly when the whole answer, the kind of refusal included, does not depend on arrival: every
   * fact is readable, or no two readable facts contradict each other.
   */
  lemma AnswerFixedExactly(normal: Status -> Option<Status>, digest: Status -> string, clock: string -> real, a: seq<Status>)
    requires Injective(digest) && |a| <= MAX_LINES
    ensures (forall b :: multiset(b) == multiset(a) ==> Derive(normal, digest, clock, b) == Derive(normal, digest, clock, a))
            <==> AllNormal(a, normal) || Coherent(FactsOf(a, normal))
  {
    if AllNormal(a, normal) || Coherent(FactsOf(a, normal)) {
      forall b | multiset(b) == multiset(a)
        ensures Derive(normal, digest, clock, b) == Derive(normal, digest, clock, a)
      {
        assert |b| == |multiset(b)| && |a| == |multiset(a)|;
        SameReadings(a, b, normal);
        ArrivalIrrelevant(normal, digest, clock, a, b);
      }
    } else {
      var b := Unreadable(normal, digest, clock, a);
      var c := Contradictory(normal, digest, clock, a);
      assert Derive(normal, digest, clock, b) != Derive(normal, digest, clock, c);
    }
  }
}
