/**
 * The advisory evaluator (packages/core/src/commercial-integrity-v3.ts): nine rules over facts listed in
 * any order. Identities and finding keys are compared by abstract total orders and times are microsecond
 * counts. Two facts are alike when their canonical texts are equal: the canonical form reads the one list
 * a fact holds, an allocation's line ids, as a set.
 */
module Integrity {
  import opened Prelude
  import opened Sorting

  // ----- facts -----

  datatype Provenance = BuilderAttested | SyntheticSettled | PublishedFinalCheck | ServerRecorded
  datatype Source = Source(tenant: string, job: string, scope: string, id: string, sourceType: string, revision: string, hash: string,
                           recordedAt: int, provenance: Provenance)
  datatype Identity = Identity(tenant: string, job: string, scope: string, sourceType: string, id: string)

  datatype Basis = NetBasis | GrossBasis | UnknownBasis
  datatype Value = Value(pence: nat, basis: Basis)
  datatype QuoteStatus = Accepted | Cancelled | Revised | Draft
  datatype WorkKind = Finish | CancelFinish | Resume | Close | Reopen
  datatype CatchStatus = Confirmed | NotCompleted | DismissedOther
  datatype CompletionState = Verified | Pending | Invalidated | Rejected
  datatype Method = ExplicitUser | NormalAllocator
  datatype Sharing = Unexplained | Family | Company

  datatype Fact =
    | Lock(source: Source, account: Value, lockId: string, cutoff: int, contract: string)
    | Quote(source: Source, status: QuoteStatus, customer: string, site: string, binding: bool, value: Value, acceptedAt: int)
    | Activation(source: Source)
    | Activity(source: Source, isInvoice: bool)
    | Work(source: Source, kind: WorkKind, predecessor: Option<string>)
    | Assertion(source: Source, identifierKind: string, scopeId: string, subject: string, authority: string,
                validFrom: int, validUntil: int, sharing: Sharing)
    | Catch(source: Source, catchId: string, catchStatus: CatchStatus, included: bool, value: Value, line: Option<string>)
    | Completion(source: Source, catchId: string, state: CompletionState, original: bool,
                 objectVersion: string, byteLength: nat)
    | Receipt(source: Source, value: Value, reversed: bool)
    | Correction(source: Source, credit: bool, line: Option<string>, value: Value, actual: bool)
    | Allocation(source: Source, receiptId: string, method_: Method, reversed: bool, outstanding: Value, toCatches: Value, toOrdinary: Value,
                 lines: seq<string>)

  datatype LockState = LockAbsent | LockPresent | LockUnknown
  datatype Window = Window(start: int, end: int)
  datatype QuotePolicy = QuotePolicy(inclusive: bool)
  datatype Profile = Profile(version: string, ruleVersion: string, window: Window, minimumPayments: Option<nat>, wonDelay: Option<nat>,
                             quotePolicy: Option<QuotePolicy>, minimumCycles: Option<nat>)
  datatype Published = Published(lockId: string, contract: string, cutoff: int, lockSource: Source, account: Value,
                                 catches: seq<Fact>, completions: seq<Fact>, receipts: seq<Fact>, corrections: seq<Fact>, allocations: seq<Fact>)
  datatype Input = Input(tenant: string, job: string, scope: string, evaluatedAt: int, profile: Profile, lockState: LockState,
                         quotes: seq<Fact>, activations: seq<Fact>, activity: seq<Fact>, works: seq<Fact>, assertions: seq<Fact>,
                         published: Option<Published>)

  function IdentityOf(s: Source): Identity {
    Identity(s.tenant, s.job, s.scope, s.sourceType, s.id)
  }

  // ----- one representative per source -----

  /** An order of identities, total and without ties. */
  type Order = (Identity, Identity) -> bool

  ghost predicate OrderOk(order: Order) {
    TotalPreorder(order) && forall x, y :: order(x, y) && order(y, x) ==> x == y
  }

  function ByIdentity(order: Order): (Fact, Fact) -> bool {
    (f: Fact, g: Fact) => order(IdentityOf(f.source), IdentityOf(g.source))
  }

  predicate HasIdentity(facts: seq<Fact>, k: Identity) {
    exists i :: 0 <= i < |facts| && IdentityOf(facts[i].source) == k
  }

  /** The last fact of every source. */
  function Latest(facts: seq<Fact>): seq<Fact> {
    if facts == [] then []
    else if HasIdentity(facts[1..], IdentityOf(facts[0].source)) then Latest(facts[1..])
    else [facts[0]] + Latest(facts[1..])
  }

  /** One fact per source, in the order of their identities. */
  function Unique(order: Order, facts: seq<Fact>): seq<Fact> {
    Sort(Latest(facts), ByIdentity(order))
  }

  ghost predicate SameLines(a: seq<string>, b: seq<string>) {
    forall x :: x in a <==> x in b
  }

  /** Facts with the same canonical text: they differ at most in how their line ids are listed. */
  ghost predicate Alike(f: Fact, g: Fact) {
    if f.Allocation? && g.Allocation? then g == f.(lines := g.lines) && SameLines(f.lines, g.lines) else f == g
  }

  ghost predicate AlikeAll(a: seq<Fact>, b: seq<Fact>) {
    |a| == |b| && forall i :: 0 <= i < |a| ==> Alike(a[i], b[i])
  }

  lemma AlikeChain(f: Fact, g: Fact, h: Fact)
    ensures Alike(f, f) && (Alike(f, g) ==> Alike(g, f) && f.source == g.source) && (Alike(f, g) && Alike(g, h) ==> Alike(f, h))
  {
  }

  /** No source states two facts with different canonical texts. */
  ghost predicate Consistent(facts: seq<Fact>) {
    forall i, j :: 0 <= i < |facts| && 0 <= j < |facts| && IdentityOf(facts[i].source) == IdentityOf(facts[j].source) ==>
      Alike(facts[i], facts[j])
  }

  ghost predicate Lists(facts: seq<Fact>, f: Fact) {
    exists i :: 0 <= i < |facts| && Alike(facts[i], f)
  }

  /** The same facts up to their canonical texts, in any order and with any repetition. */
  ghost predicate SameFacts(a: seq<Fact>, b: seq<Fact>) {
    (forall f :: f in a ==> Lists(b, f)) && (forall f :: f in b ==> Lists(a, f))
  }

  ghost predicate OnePerSource(facts: seq<Fact>) {
    forall i, j :: 0 <= i < j < |facts| ==> IdentityOf(facts[i].source) != IdentityOf(facts[j].source)
  }

  lemma {:induction false} LatestMeaning(facts: seq<Fact>)
    ensures OnePerSource(Latest(facts))
    ensures forall f :: f in Latest(facts) ==> f in facts
    ensures forall k :: HasIdentity(Latest(facts), k) <==> HasIdentity(facts, k)
  {
    if facts != [] {
      var rest := facts[1..];
      LatestMeaning(rest);
      forall k
        ensures HasIdentity(Latest(facts), k) <==> HasIdentity(facts, k)
      {
        HasIdentityMore(facts[0], rest, k);
        HasIdentityMore(facts[0], Latest(rest), k);
        assert facts == [facts[0]] + rest;
      }
      if !HasIdentity(rest, IdentityOf(facts[0].source)) {
        var latest := Latest(facts);
        forall i, j | 0 <= i < j < |latest|
          ensures IdentityOf(latest[i].source) != IdentityOf(latest[j].source)
        {
          assert latest[j] == Latest(rest)[j - 1];
          assert HasIdentity(Latest(rest), IdentityOf(latest[j].source));
          assert i > 0 ==> latest[i] == Latest(rest)[i - 1];
        }
      }
    }
  }

  lemma HasIdentityMore(f: Fact, facts: seq<Fact>, k: Identity)
    ensures HasIdentity([f] + facts, k) <==> IdentityOf(f.source) == k || HasIdentity(facts, k)
  {
    var more := [f] + facts;
    if HasIdentity(more, k) && IdentityOf(f.source) != k {
      var i :| 0 <= i < |more| && IdentityOf(more[i].source) == k;
      assert facts[i - 1] == more[i];
    }
    if HasIdentity(facts, k) {
      var i :| 0 <= i < |facts| && IdentityOf(facts[i].source) == k;
      assert more[i + 1] == facts[i];
    }
    assert more[0] == f;
  }

  lemma OnePerSourceDistinct(facts: seq<Fact>)
    requires OnePerSource(facts)
    ensures Distinct(facts)
  {
  }

  lemma ByIdentityOk(order: Order, facts: seq<Fact>)
    requires OrderOk(order) && OnePerSource(facts)
    ensures TotalPreorder(ByIdentity(order)) && TieFree(facts, ByIdentity(order))
  {
    var le := ByIdentity(order);
    forall x, y
      ensures le(x, y) || le(y, x)
    {
      assert order(IdentityOf(x.source), IdentityOf(y.source)) || order(IdentityOf(y.source), IdentityOf(x.source));
    }
    forall x, y, z | le(x, y) && le(y, z)
      ensures le(x, z)
    {
      assert order(IdentityOf(x.source), IdentityOf(y.source)) && order(IdentityOf(y.source), IdentityOf(z.source));
    }
    forall f, g | f in facts && g in facts && ByIdentity(order)(f, g) && ByIdentity(order)(g, f)
      ensures f == g
    {
      var i :| 0 <= i < |facts| && facts[i] == f;
      var j :| 0 <= j < |facts| && facts[j] == g;
    }
  }

  function IdentityIn(): Fact -> Identity {
    (f: Fact) => IdentityOf(f.source)
  }

  lemma {:induction false} UniqueMeaning(order: Order, facts: seq<Fact>)
    requires OrderOk(order)
    ensures Map(Unique(order, facts), IdentityIn()) == Sort(Map(Latest(facts), IdentityIn()), order)
    ensures forall f :: f in Unique(order, facts) ==> f in facts
  {
    LatestMeaning(facts);
    SortMap(Latest(facts), IdentityIn(), ByIdentity(order), order);
    SortPermutes(Latest(facts), ByIdentity(order));
    MembersPermuted(Latest(facts), Unique(order, facts));
  }

  /** The identities of one fact per source, whichever facts they are. */
  lemma {:induction false} LatestIdentities(facts: seq<Fact>)
    ensures Distinct(Map(Latest(facts), IdentityIn()))
    ensures forall k :: k in Map(Latest(facts), IdentityIn()) <==> HasIdentity(facts, k)
  {
    LatestMeaning(facts);
    var ids := Map(Latest(facts), IdentityIn());
    forall k
      ensures k in ids <==> HasIdentity(facts, k)
    {
      if HasIdentity(Latest(facts), k) {
        var i :| 0 <= i < |Latest(facts)| && IdentityOf(Latest(facts)[i].source) == k;
        assert ids[i] == k;
      }
      if k in ids {
        var i :| 0 <= i < |ids| && ids[i] == k;
        assert IdentityOf(Latest(facts)[i].source) == k;
      }
    }
  }

  lemma SameIdentities(a: seq<Fact>, b: seq<Fact>, k: Identity)
    requires SameFacts(a, b) && HasIdentity(a, k)
    ensures HasIdentity(b, k)
  {
    var i :| 0 <= i < |a| && IdentityOf(a[i].source) == k;
    assert a[i] in a && Lists(b, a[i]);
    var j :| 0 <= j < |b| && Alike(b[j], a[i]);
    AlikeChain(b[j], a[i], a[i]);
  }

  lemma SameIdentitySets(a: seq<Fact>, b: seq<Fact>)
    requires SameFacts(a, b)
    ensures forall k :: HasIdentity(a, k) <==> HasIdentity(b, k)
  {
    forall k
      ensures HasIdentity(a, k) <==> HasIdentity(b, k)
    {
      if HasIdentity(a, k) { SameIdentities(a, b, k); }
      if HasIdentity(b, k) { SameIdentities(b, a, k); }
    }
  }

  lemma OneCanonicalText(a: seq<Fact>, b: seq<Fact>, f: Fact, g: Fact)
    requires Consistent(a) && SameFacts(a, b) && f in a && g in b && IdentityOf(f.source) == IdentityOf(g.source)
    ensures Alike(f, g)
  {
    var i :| 0 <= i < |a| && a[i] == f;
    assert Lists(a, g);
    var j :| 0 <= j < |a| && Alike(a[j], g);
    AlikeChain(a[j], g, g);
    AlikeChain(a[i], a[j], g);
  }

  /** Listing facts in another order, or some of them again, gives the same representatives up to their canonical texts. */
  lemma UniqueForgetsListing(order: Order, a: seq<Fact>, b: seq<Fact>)
    requires OrderOk(order) && Consistent(a) && SameFacts(a, b)
    ensures AlikeAll(Unique(order, a), Unique(order, b))
  {
    var x, y := Unique(order, a), Unique(order, b);
    UniqueMeaning(order, a);
    UniqueMeaning(order, b);
    LatestIdentities(a);
    LatestIdentities(b);
    SameIdentitySets(a, b);
    DistinctSameElements(Map(Latest(a), IdentityIn()), Map(Latest(b), IdentityIn()));
    SortForgetsOrder(Map(Latest(a), IdentityIn()), Map(Latest(b), IdentityIn()), order);
    assert Map(x, IdentityIn()) == Map(y, IdentityIn());
    forall i | 0 <= i < |x|
      ensures Alike(x[i], y[i])
    {
      assert Map(x, IdentityIn())[i] == Map(y, IdentityIn())[i];
      OneCanonicalText(a, b, x[i], y[i]);
    }
  }

  lemma ConsistentSame(a: seq<Fact>, b: seq<Fact>)
    requires Consistent(a) && SameFacts(a, b)
    ensures Consistent(b)
  {
    forall i, j | 0 <= i < |b| && 0 <= j < |b| && IdentityOf(b[i].source) == IdentityOf(b[j].source)
      ensures Alike(b[i], b[j])
    {
      assert b[i] in b && Lists(a, b[i]);
      var k :| 0 <= k < |a| && Alike(a[k], b[i]);
      AlikeChain(a[k], b[i], b[i]);
      OneCanonicalText(a, b, a[k], b[j]);
      AlikeChain(b[i], a[k], b[j]);
    }
  }

  /** Collects the last value of every source in a map, in the order the sources first appear, and sorts the values. */
  method UniqueFacts(order: Order, facts: seq<Fact>) returns (unique: seq<Fact>)
    requires OrderOk(order)
    ensures unique == Unique(order, facts)
  {
    var keys: seq<Identity> := [];
    var values: map<Identity, Fact> := map[];
    for i := 0 to |facts|
      invariant Distinct(keys) && (forall k :: k in keys <==> k in values)
      invariant forall k :: k in values ==> IdentityOf(values[k].source) == k && LastAt(facts[..i], k, values[k])
      invariant forall k :: k in values <==> HasIdentity(facts[..i], k)
    {
      var k := IdentityOf(facts[i].source);
      assert facts[..i + 1] == facts[..i] + [facts[i]];
      forall m
        ensures HasIdentity(facts[..i + 1], m) <==> m == k || HasIdentity(facts[..i], m)
      {
        HasIdentityLast(facts[..i], facts[i], m);
      }
      forall m | m in values && m != k
        ensures LastAt(facts[..i + 1], m, values[m])
      {
        LastStays(facts[..i], facts[i], m, values[m]);
      }
      LastHere(facts[..i], facts[i]);
      if k !in values { keys := keys + [k]; }
      values := values[k := facts[i]];
    }
    assert facts[..|facts|] == facts;
    var found := seq(|keys|, n requires 0 <= n < |keys| && keys[n] in values => values[keys[n]]);
    unique := Sort(found, ByIdentity(order));
    FoundIsLatest(facts, keys, values, found);
    LatestMeaning(facts);
    ByIdentityOk(order, Latest(facts));
    SortForgetsOrder(Latest(facts), found, ByIdentity(order));
  }

  /** The last fact of a source is some fact after which the source does not appear. */
  ghost predicate LastAt(facts: seq<Fact>, k: Identity, f: Fact) {
    exists i :: 0 <= i < |facts| && facts[i] == f && IdentityOf(f.source) == k && !HasIdentity(facts[i + 1..], k)
  }

  lemma HasIdentityLast(facts: seq<Fact>, f: Fact, k: Identity)
    ensures HasIdentity(facts + [f], k) <==> IdentityOf(f.source) == k || HasIdentity(facts, k)
  {
    var more := facts + [f];
    if HasIdentity(facts, k) {
      var i :| 0 <= i < |facts| && IdentityOf(facts[i].source) == k;
      assert more[i] == facts[i];
    }
    assert more[|facts|] == f;
  }

  lemma LastStays(facts: seq<Fact>, f: Fact, k: Identity, value: Fact)
    requires LastAt(facts, k, value) && IdentityOf(f.source) != k
    ensures LastAt(facts + [f], k, value)
  {
    var i :| 0 <= i < |facts| && facts[i] == value && IdentityOf(value.source) == k && !HasIdentity(facts[i + 1..], k);
    assert (facts + [f])[i + 1..] == facts[i + 1..] + [f] && (facts + [f])[i] == value;
    HasIdentityLast(facts[i + 1..], f, k);
  }

  lemma LastHere(facts: seq<Fact>, f: Fact)
    ensures LastAt(facts + [f], IdentityOf(f.source), f)
  {
    assert (facts + [f])[|facts|] == f && (facts + [f])[|facts| + 1..] == [];
  }

  lemma {:induction false} LatestIsLast(facts: seq<Fact>, f: Fact)
    ensures f in Latest(facts) <==> LastAt(facts, IdentityOf(f.source), f)
  {
    if facts != [] {
      var rest := facts[1..];
      var k := IdentityOf(f.source);
      LatestIsLast(rest, f);
      if LastAt(rest, k, f) {
        var i :| 0 <= i < |rest| && rest[i] == f && !HasIdentity(rest[i + 1..], k);
        assert facts[i + 1] == f && facts[i + 2..] == rest[i + 1..];
        assert LastAt(facts, k, f);
      }
      if LastAt(facts, k, f) {
        var i :| 0 <= i < |facts| && facts[i] == f && !HasIdentity(facts[i + 1..], k);
        if i > 0 {
          assert rest[i - 1] == f && rest[i..] == facts[i + 1..];
        }
      }
      if facts[0] == f && !HasIdentity(rest, k) {
        assert facts[0 + 1..] == rest;
      }
    }
  }

  lemma {:induction false} FoundIsLatest(facts: seq<Fact>, keys: seq<Identity>, values: map<Identity, Fact>, found: seq<Fact>)
    requires Distinct(keys) && (forall k :: k in keys <==> k in values)
    requires forall k :: k in values ==> IdentityOf(values[k].source) == k && LastAt(facts, k, values[k])
    requires forall k :: k in values <==> HasIdentity(facts, k)
    requires |found| == |keys| && forall n :: 0 <= n < |keys| ==> found[n] == values[keys[n]]
    ensures multiset(Latest(facts)) == multiset(found)
  {
    LatestMeaning(facts);
    forall i, j | 0 <= i < j < |found|
      ensures found[i] != found[j]
    {
      assert keys[i] in values && keys[j] in values && keys[i] != keys[j];
    }
    forall f
      ensures f in Latest(facts) <==> f in found
    {
      LatestIsLast(facts, f);
      var k := IdentityOf(f.source);
      if f in found {
        var n :| 0 <= n < |found| && found[n] == f;
        assert keys[n] in values;
      }
      if f in Latest(facts) {
        var n :| 0 <= n < |Latest(facts)| && Latest(facts)[n] == f;
        assert HasIdentity(Latest(facts), k);
        LastUnique(facts, k, f, values[k]);
        var m :| 0 <= m < |keys| && keys[m] == k;
        assert found[m] == f;
      }
    }
    OnePerSourceDistinct(Latest(facts));
    DistinctSameElements(Latest(facts), found);
  }

  lemma LastUnique(facts: seq<Fact>, k: Identity, f: Fact, g: Fact)
    requires LastAt(facts, k, f) && LastAt(facts, k, g)
    ensures f == g
  {
    var i :| 0 <= i < |facts| && facts[i] == f && IdentityOf(f.source) == k && !HasIdentity(facts[i + 1..], k);
    var j :| 0 <= j < |facts| && facts[j] == g && IdentityOf(g.source) == k && !HasIdentity(facts[j + 1..], k);
    HasLater(facts, i, j);
    HasLater(facts, j, i);
  }

  lemma HasLater(facts: seq<Fact>, i: int, j: int)
    ensures 0 <= i < j < |facts| ==> HasIdentity(facts[i + 1..], IdentityOf(facts[j].source))
  {
    if 0 <= i < j < |facts| {
      assert facts[i + 1..][j - i - 1] == facts[j];
    }
  }

  // ----- findings -----

  datatype Kind =
    | CompletedDismissal | ReceiptsExceed | LineCorrection | AllocationsAvoid | ActivityWithoutLock | NeverLive | RelatedQuotes
    | FinishRestart | IdentifierReuse
  datatype Reason = PolicyAbsent | SourceAbsent | LineSourceAbsent | BasisUnavailable | CreditBasisUnavailable

  /** What was compared, in the order the rule states it. */
  datatype Datum = Number(n: int) | Word(s: string) | Tag(b: Basis) | Nothing

  /** A rule's finding: its kind, the facts it rests on and what it compared. */
  datatype Found = Found(kind: Kind, facts: seq<Fact>, compared: seq<Datum>)
  datatype Unavailable = Unavailable(kind: Kind, reason: Reason)
  datatype Outcome = Outcome(found: seq<Found>, unavailable: set<Unavailable>)

  const NOTHING := Outcome([], {})

  function And(a: Outcome, b: Outcome): Outcome {
    Outcome(a.found + b.found, a.unavailable + b.unavailable)
  }

  function Missing(kind: Kind, reason: Reason): Outcome {
    Outcome([], {Unavailable(kind, reason)})
  }

  function One(kind: Kind, facts: seq<Fact>, compared: seq<Datum>): Outcome {
    Outcome([Found(kind, facts, compared)], {})
  }

  /** What a rule says of each fact, in order. */
  function Each(facts: seq<Fact>, rule: Fact -> Outcome): Outcome {
    if facts == [] then NOTHING else And(rule(facts[0]), Each(facts[1..], rule))
  }

  // ----- what the rules see -----

  /** The input as the rules see it: one fact per source in identity order, and what merely has to exist. Allocations stand beside it. */
  datatype View = View(tenant: string, job: string, scope: string, evaluatedAt: int, profile: Profile, lockState: LockState,
                       quotes: seq<Fact>, activity: seq<Fact>, works: seq<Fact>, assertions: seq<Fact>,
                       live: set<string>, reusable: bool, published: Option<PublishedView>)
  datatype PublishedView = PublishedView(lock: Fact, catches: seq<Fact>, completions: seq<Fact>, receipts: seq<Fact>, corrections: seq<Fact>,
                                         corrected: bool)

  function JobsOf(facts: seq<Fact>): set<string> {
    set f | f in facts :: f.source.job
  }

  predicate Applies(i: Input, a: Fact) {
    a.Assertion? && a.scopeId == i.scope && a.validFrom <= i.evaluatedAt <= a.validUntil
  }

  predicate ActualCorrection(f: Fact) {
    f.Correction? && f.actual
  }

  function PublishedViewOf(order: Order, p: Published): PublishedView {
    PublishedView(Lock(p.lockSource, p.account, p.lockId, p.cutoff, p.contract),
                  Unique(order, p.catches), Unique(order, p.completions), Unique(order, p.receipts), Unique(order, p.corrections),
                  exists f :: f in p.corrections && ActualCorrection(f))
  }

  function ViewOf(order: Order, i: Input): View {
    View(i.tenant, i.job, i.scope, i.evaluatedAt, i.profile, i.lockState,
         Unique(order, i.quotes), Unique(order, i.activity), Unique(order, i.works), Unique(order, i.assertions),
         JobsOf(i.activations), exists a :: a in i.assertions && Applies(i, a),
         if i.published.Some? then Some(PublishedViewOf(order, i.published.value)) else None)
  }

  function AllocationsOf(order: Order, i: Input): seq<Fact> {
    if i.published.Some? then Unique(order, i.published.value.allocations) else []
  }

  // ----- the rules -----

  const QUOTE_LIMIT := 200_000
  const NINETY_DAYS := 90 * 86_400_000_000

  predicate InWindow(v: View, f: Fact) {
    v.profile.window.start <= f.source.recordedAt <= v.profile.window.end
  }

  function NeverLiveRule(v: View): Outcome {
    if v.profile.wonDelay.None? then Missing(NeverLive, PolicyAbsent)
    else Each(v.quotes, (q: Fact) =>
      if q.Quote? && q.source.job == v.job && q.status == Accepted && q.source.job !in v.live
        && v.evaluatedAt - q.acceptedAt > v.profile.wonDelay.value
      then One(NeverLive, [q], [Number(q.acceptedAt), Number(v.profile.wonDelay.value)]) else NOTHING)
  }

  function WithoutLockRule(v: View): Outcome {
    if v.lockState == LockUnknown then Missing(ActivityWithoutLock, SourceAbsent)
    else if v.lockState == LockPresent then NOTHING
    else Each(v.activity, (a: Fact) =>
      if a.Activity? && InWindow(v, a) then One(ActivityWithoutLock, [a], [Word(if a.isInvoice then "invoice" else "payment")]) else NOTHING)
  }

  predicate SmallQuote(v: View, q: Fact) {
    && q.Quote? && q.status == Accepted && q.binding && q.value.basis == NetBasis && q.value.pence < QUOTE_LIMIT
    && v.profile.window.start <= q.acceptedAt <= v.profile.window.end
  }

  function Distance(a: int, b: int): int {
    if a < b then b - a else a - b
  }

  function QuotePair(v: View, policy: QuotePolicy, a: Fact, b: Fact): Outcome {
    if !SmallQuote(v, a) || !SmallQuote(v, b) || a.source.job == b.source.job || (a.source.job != v.job && b.source.job != v.job)
      || a.customer != b.customer || a.site != b.site then NOTHING
    else
      var distance := Distance(a.acceptedAt, b.acceptedAt);
      if (if policy.inclusive then distance <= NINETY_DAYS else distance < NINETY_DAYS)
      then One(RelatedQuotes, [a, b], [Number(a.value.pence), Number(b.value.pence), Number(distance)]) else NOTHING
  }

  /** Every pair of quotes once, the earlier identity first. */
  function QuotePairs(v: View, policy: QuotePolicy, quotes: seq<Fact>): Outcome {
    if quotes == [] then NOTHING
    else And(Each(quotes[1..], (b: Fact) => QuotePair(v, policy, quotes[0], b)), QuotePairs(v, policy, quotes[1..]))
  }

  function RelatedQuotesRule(v: View): Outcome {
    if v.profile.quotePolicy.None? then Missing(RelatedQuotes, PolicyAbsent) else QuotePairs(v, v.profile.quotePolicy.value, v.quotes)
  }

  /** Work events in time order, ties in identity order. */
  function ByTime(order: Order): (Fact, Fact) -> bool {
    (f: Fact, g: Fact) => f.source.recordedAt < g.source.recordedAt
                          || (f.source.recordedAt == g.source.recordedAt && order(IdentityOf(f.source), IdentityOf(g.source)))
  }

  function FirstIndex(facts: seq<Fact>, p: Fact -> bool): (n: nat)
    ensures n <= |facts| && (n < |facts| ==> p(facts[n]))
  {
    if facts == [] || p(facts[0]) then 0 else 1 + FirstIndex(facts[1..], p)
  }

  /** Each restart with the finish it undoes, the first for every finish. */
  function Cycles(events: seq<Fact>, all: seq<Fact>, seen: set<string>): seq<(Fact, Fact)>
    decreases |events|
  {
    if events == [] then []
    else
      var restart, rest := events[0], events[1..];
      if !restart.Work? || !(restart.kind == Resume || restart.kind == CancelFinish || restart.kind == Reopen) then Cycles(rest, all, seen)
      else
        var n := FirstIndex(all, (f: Fact) => f.Work? && Some(f.source.id) == restart.predecessor && (f.kind == Finish || f.kind == Close)
                                             && f.source.recordedAt < restart.source.recordedAt);
        if n == |all| || all[n].kind != (if restart.kind == Reopen then Close else Finish) || all[n].source.id in seen
        then Cycles(rest, all, seen)
        else [(all[n], restart)] + Cycles(rest, all, seen + {all[n].source.id})
  }

  function CycleFacts(cycles: seq<(Fact, Fact)>): seq<Fact> {
    if cycles == [] then [] else [cycles[0].0, cycles[0].1] + CycleFacts(cycles[1..])
  }

  function FinishRestartRule(order: Order, v: View): Outcome {
    if v.profile.minimumCycles.None? then Missing(FinishRestart, PolicyAbsent)
    else
      var events := Sort(Filter(v.works, (f: Fact) => InWindow(v, f)), ByTime(order));
      var cycles := Cycles(events, events, {});
      if |cycles| >= v.profile.minimumCycles.value
      then One(FinishRestart, CycleFacts(cycles), [Number(|cycles|), Number(v.profile.minimumCycles.value)]) else NOTHING
  }

  function IdentifierReuseRule(v: View): Outcome {
    And(Each(v.assertions, (a: Fact) =>
          if a.Assertion? && a.scopeId == v.scope && a.validFrom <= v.evaluatedAt <= a.validUntil && a.sharing == Unexplained && InWindow(v, a)
          then One(IdentifierReuse, [a], [Word(a.identifierKind), Word(a.subject), Word(a.authority)]) else NOTHING),
        if v.reusable then NOTHING else Missing(IdentifierReuse, SourceAbsent))
  }

  /** What one piece of evidence says of a dismissed catch. */
  function Proof(p: PublishedView, c: Fact): Fact -> Outcome
    requires p.lock.Lock? && c.Catch?
  {
    (proof: Fact) =>
      if proof.Completion? && proof.catchId == c.catchId && proof.state == Verified && proof.source.provenance == ServerRecorded
        && proof.original && proof.source.recordedAt <= p.lock.cutoff
      then One(CompletedDismissal, [c, proof, p.lock], [Word(c.catchId), Number(p.lock.cutoff), Word(p.lock.lockId)]) else NOTHING
  }

  function Dismissal(p: PublishedView): Fact -> Outcome
    requires p.lock.Lock?
  {
    (c: Fact) => if !c.Catch? || c.catchStatus != NotCompleted then NOTHING else Each(p.completions, Proof(p, c))
  }

  function CompletedDismissalRule(v: View, p: PublishedView): Outcome
    requires p.lock.Lock?
  {
    Each(p.catches, Dismissal(p))
  }

  function PenceOf(): Fact -> int {
    (f: Fact) => if f.Catch? then f.value.pence else if f.Receipt? then f.value.pence else 0
  }

  predicate Confirmable(c: Fact) {
    c.Catch? && c.catchStatus == Confirmed
  }

  predicate SameBasis(p: PublishedView, f: Fact)
    requires p.lock.Lock?
  {
    (f.Catch? ==> f.value.basis == p.lock.account.basis) && (f.Receipt? ==> f.value.basis == p.lock.account.basis)
  }

  function IsAdditional(): Fact -> bool {
    (c: Fact) => Confirmable(c) && !c.included
  }

  function IsStanding(): Fact -> bool {
    (r: Fact) => r.Receipt? && !r.reversed
  }

  predicate OnOneBasis(p: PublishedView, counted: seq<Fact>)
    requires p.lock.Lock?
  {
    p.lock.account.basis != UnknownBasis && forall f :: f in counted ==> SameBasis(p, f)
  }

  /** The rule's outcome, once it is known what is counted and what it comes to. */
  function ReceiptsOutcome(p: PublishedView, additional: seq<Fact>, oneBasis: bool, received: int, account: int): Outcome
    requires p.lock.Lock?
  {
    if p.corrected then Missing(ReceiptsExceed, CreditBasisUnavailable)
    else if !oneBasis then Missing(ReceiptsExceed, BasisUnavailable)
    else if received > account
    then One(ReceiptsExceed, [p.lock] + additional + p.receipts,
             [Number(received), Number(account), Tag(p.lock.account.basis), Word(p.lock.lockId), Number(p.lock.cutoff)])
    else NOTHING
  }

  function ReceiptsExceedRule(p: PublishedView): Outcome
    requires p.lock.Lock?
  {
    var additional, standing := Filter(p.catches, IsAdditional()), Filter(p.receipts, IsStanding());
    ReceiptsOutcome(p, additional, OnOneBasis(p, standing + additional), SumBy(standing, PenceOf()), p.lock.account.pence + SumBy(additional, PenceOf()))
  }

  function ConfirmedLine(p: PublishedView, line: string): Option<Fact> {
    var n := FirstIndex(p.catches, (c: Fact) => Confirmable(c) && c.line == Some(line));
    if n < |p.catches| then Some(p.catches[n]) else None
  }

  /** What one actual correction says of the confirmed catch on its line. */
  function Corrects(p: PublishedView): Fact -> Outcome
    requires p.lock.Lock?
  {
    (k: Fact) =>
      if !ActualCorrection(k) then NOTHING
      else if k.line.None? then Missing(LineCorrection, LineSourceAbsent)
      else
        var c := ConfirmedLine(p, k.line.value);
        if c.None? || !c.value.Catch? then NOTHING
        else if k.value.basis == UnknownBasis || k.value.basis != c.value.value.basis then Missing(LineCorrection, BasisUnavailable)
        else if k.value.pence > 0
        then One(LineCorrection, [c.value, k, p.lock],
                 [Word(if k.credit then "credit" else "writeoff"), Number(k.value.pence), Tag(k.value.basis), Word(k.line.value), Word(p.lock.lockId)])
        else NOTHING
  }

  function LineCorrectionRule(p: PublishedView): Outcome
    requires p.lock.Lock?
  {
    Each(p.corrections, Corrects(p))
  }

  function Allocated(): Fact -> int {
    (f: Fact) => if f.Allocation? then f.toCatches.pence + f.toOrdinary.pence else 0
  }

  /** The line ids without repetition, in order of first occurrence. */
  function Unrepeated(lines: seq<string>): seq<string> {
    if lines == [] then []
    else
      var front := Unrepeated(lines[..|lines| - 1]);
      if lines[|lines| - 1] in front then front else front + [lines[|lines| - 1]]
  }

  function LinePence(p: PublishedView): string -> int {
    (line: string) => var c := ConfirmedLine(p, line); if c.Some? && c.value.Catch? then c.value.value.pence else 0
  }

  /** What the confirmed catches on some lines come to. */
  function LinesPence(p: PublishedView, lines: seq<string>): int {
    SumBy(Unrepeated(lines), LinePence(p))
  }

  datatype Judged = Ignored | Unusable(reason: Reason) | Avoids

  predicate ConsideredIn(v: View, a: Fact) {
    a.Allocation? && !a.reversed && InWindow(v, a) && a.method_ == ExplicitUser
  }

  function IsReceipt(id: string): Fact -> bool {
    (r: Fact) => r.Receipt? && r.source.id == id
  }

  function StandingFor(receiptId: string): Fact -> bool {
    (o: Fact) => o.Allocation? && !o.reversed && o.receiptId == receiptId
  }

  function OffBasis(basis: Basis): Fact -> bool {
    (o: Fact) => o.Allocation? && (o.toCatches.basis != basis || o.toOrdinary.basis != basis)
  }

  predicate UnknownLine(p: PublishedView, lines: seq<string>) {
    exists line :: line in lines && ConfirmedLine(p, line).None?
  }

  predicate OffBasisLine(p: PublishedView, lines: seq<string>, basis: Basis) {
    exists line :: line in lines && (var c := ConfirmedLine(p, line); c.Some? && !(c.value.Catch? && c.value.value.basis == basis))
  }

  /** An allocation in the basis of its standing receipt, against all that is allocated of that receipt. */
  function JudgeAmounts(p: PublishedView, a: Fact, receipt: Value, total: seq<Fact>): Judged
    requires a.Allocation?
  {
    if UnknownLine(p, a.lines) then Unusable(LineSourceAbsent)
    else if OffBasisLine(p, a.lines, receipt.basis) then Unusable(BasisUnavailable)
    else if Filter(total, OffBasis(receipt.basis)) != [] || SumBy(total, Allocated()) > receipt.pence
      || a.outstanding.pence > LinesPence(p, a.lines) || a.toCatches.pence > a.outstanding.pence then Unusable(SourceAbsent)
    else if a.outstanding.pence > 0 && a.toCatches.pence == 0 && a.toOrdinary.pence > 0 then Avoids else Ignored
  }

  /** Whether a standing allocation avoids the catch lines of its receipt. */
  function Judge(v: View, p: PublishedView, allocations: seq<Fact>, a: Fact): Judged {
    if !ConsideredIn(v, a) then Ignored
    else
      var n := FirstIndex(p.receipts, IsReceipt(a.receiptId));
      if n == |p.receipts| then Unusable(SourceAbsent)
      else
        var receipt := p.receipts[n];
        if receipt.reversed then Ignored
        else if receipt.value.basis == UnknownBasis || a.outstanding.basis != receipt.value.basis
          || a.toCatches.basis != receipt.value.basis || a.toOrdinary.basis != receipt.value.basis then Unusable(BasisUnavailable)
        else JudgeAmounts(p, a, receipt.value, Filter(allocations, StandingFor(a.receiptId)))
  }

  function PaymentsOf(allocations: seq<Fact>): set<string> {
    set a | a in allocations && a.Allocation? :: a.receiptId
  }

  function UnusableIn(v: View, p: PublishedView, allocations: seq<Fact>): Fact -> Outcome {
    (a: Fact) => var j := Judge(v, p, allocations, a); if j.Unusable? then Missing(AllocationsAvoid, j.reason) else NOTHING
  }

  function AvoidsIn(v: View, p: PublishedView, allocations: seq<Fact>): Fact -> bool {
    (a: Fact) => Judge(v, p, allocations, a).Avoids?
  }

  function OnLinesOf(avoiding: seq<Fact>): Fact -> bool {
    (c: Fact) => Confirmable(c) && c.line.Some? && exists a :: a in avoiding && a.Allocation? && c.line.value in a.lines
  }

  function PaidIn(payments: set<string>): Fact -> bool {
    (r: Fact) => r.source.id in payments
  }

  /** The one finding on allocations that avoid catch lines, once they concern enough payments. */
  function AvoidFinding(p: PublishedView, avoiding: seq<Fact>, minimum: nat): Outcome
    requires p.lock.Lock?
  {
    var payments := PaymentsOf(avoiding);
    if |payments| >= minimum
    then One(AllocationsAvoid, [p.lock] + Filter(p.catches, OnLinesOf(avoiding)) + avoiding + Filter(p.receipts, PaidIn(payments)),
             [Number(|payments|), Number(minimum), Word(p.lock.lockId)])
    else NOTHING
  }

  function AllocationsAvoidRule(v: View, p: PublishedView, allocations: seq<Fact>): Outcome
    requires p.lock.Lock?
  {
    if v.profile.minimumPayments.None? then NOTHING
    else And(Each(allocations, UnusableIn(v, p, allocations)),
             AvoidFinding(p, Filter(allocations, AvoidsIn(v, p, allocations)), v.profile.minimumPayments.value))
  }

  /** The rules that need nothing published. */
  function OrdinaryRules(order: Order, v: View): Outcome {
    And(And(And(NeverLiveRule(v), WithoutLockRule(v)), And(RelatedQuotesRule(v), FinishRestartRule(order, v))),
        And(IdentifierReuseRule(v), if v.profile.minimumPayments.None? then Missing(AllocationsAvoid, PolicyAbsent) else NOTHING))
  }

  function PublishedRules(v: View, p: PublishedView, allocations: seq<Fact>): Outcome
    requires p.lock.Lock?
  {
    And(And(CompletedDismissalRule(v, p), ReceiptsExceedRule(p)), And(LineCorrectionRule(p), AllocationsAvoidRule(v, p, allocations)))
  }

  /** All nine rules, in the order they are evaluated. */
  function Rules(order: Order, v: View, allocations: seq<Fact>): Outcome {
    if v.published.None? || !v.published.value.lock.Lock? then OrdinaryRules(order, v)
    else And(OrdinaryRules(order, v), PublishedRules(v, v.published.value, allocations))
  }

  /** The rules as a function of what they see. */
  function Assessor(order: Order): (View, seq<Fact>) -> Outcome {
    (v: View, allocations: seq<Fact>) => Rules(order, v, allocations)
  }

  // ----- the result -----

  /** What tells findings apart: the kind, the rule's version and the sources, in a window. */
  datatype Key = Key(kind: Kind, ruleVersion: string, sources: set<Identity>, window: Window)
  datatype Finding = Finding(key: Key, references: seq<Source>, snapshot: Found)

  function KeyOf(profile: Profile, f: Found): Key {
    Key(f.kind, profile.ruleVersion, set x | x in f.facts :: IdentityOf(x.source), profile.window)
  }

  function SourceIn(): Fact -> Source {
    (f: Fact) => f.source
  }

  function FindingOf(order: Order, profile: Profile, f: Found): Finding {
    Finding(KeyOf(profile, f), Map(Unique(order, f.facts), SourceIn()), f)
  }

  predicate HasKey(findings: seq<Finding>, k: Key) {
    exists i :: 0 <= i < |findings| && findings[i].key == k
  }

  /** Findings in order of discovery, the first for every key. */
  function Kept(order: Order, profile: Profile, found: seq<Found>): seq<Finding> {
    if found == [] then []
    else
      var front := Kept(order, profile, found[..|found| - 1]);
      var f := found[|found| - 1];
      if HasKey(front, KeyOf(profile, f)) then front else front + [FindingOf(order, profile, f)]
  }

  type KeyOrder = (Key, Key) -> bool

  function ByKey(keys: KeyOrder): (Finding, Finding) -> bool {
    (a: Finding, b: Finding) => keys(a.key, b.key)
  }

  datatype Evaluation = Evaluation(findings: seq<Finding>, unavailable: set<Unavailable>)

  function Evaluate(order: Order, keys: KeyOrder, i: Input): Evaluation {
    var outcome := Assessor(order)(ViewOf(order, i), AllocationsOf(order, i));
    Evaluation(Sort(Kept(order, i.profile, outcome.found), ByKey(keys)), outcome.unavailable)
  }

  method EvaluateCommercialIntegrity(order: Order, keys: KeyOrder, i: Input) returns (r: Evaluation)
    requires OrderOk(order)
    ensures r == Evaluate(order, keys, i)
  {
    var quotes := UniqueFacts(order, i.quotes);
    var activity := UniqueFacts(order, i.activity);
    var works := UniqueFacts(order, i.works);
    var assertions := UniqueFacts(order, i.assertions);
    var published: Option<PublishedView> := None;
    var allocations: seq<Fact> := [];
    if i.published.Some? {
      var p := SeePublished(order, i.published.value);
      published := Some(p);
      allocations := UniqueFacts(order, i.published.value.allocations);
    }
    var view := View(i.tenant, i.job, i.scope, i.evaluatedAt, i.profile, i.lockState, quotes, activity, works, assertions,
                     JobsOf(i.activations), exists a :: a in i.assertions && Applies(i, a), published);
    var outcome := Assessor(order)(view, allocations);
    var findings := KeepFindings(order, i.profile, outcome.found);
    return Evaluation(Sort(findings, ByKey(keys)), outcome.unavailable);
  }

  method SeePublished(order: Order, p: Published) returns (view: PublishedView)
    requires OrderOk(order)
    ensures view == PublishedViewOf(order, p)
  {
    var catches := UniqueFacts(order, p.catches);
    var completions := UniqueFacts(order, p.completions);
    var receipts := UniqueFacts(order, p.receipts);
    var corrections := UniqueFacts(order, p.corrections);
    return PublishedView(Lock(p.lockSource, p.account, p.lockId, p.cutoff, p.contract), catches, completions, receipts,
                         corrections, exists f :: f in p.corrections && ActualCorrection(f));
  }

  method KeepFindings(order: Order, profile: Profile, found: seq<Found>) returns (findings: seq<Finding>)
    ensures findings == Kept(order, profile, found)
  {
    findings := [];
    for n := 0 to |found|
      invariant findings == Kept(order, profile, found[..n])
    {
      assert found[..n + 1][..n] == found[..n];
      var key := KeyOf(profile, found[n]);
      if !(exists m :: 0 <= m < |findings| && findings[m].key == key) {
        findings := findings + [FindingOf(order, profile, found[n])];
      }
    }
    assert found[..|found|] == found;
  }

  // ----- the rules cannot tell facts of one canonical text apart -----

  lemma AlikeAppend(a: seq<Fact>, b: seq<Fact>, c: seq<Fact>, d: seq<Fact>)
    requires AlikeAll(a, c) && AlikeAll(b, d)
    ensures AlikeAll(a + b, c + d)
  {
  }

  lemma AlikeSelf(a: seq<Fact>)
    ensures AlikeAll(a, a)
  {
  }

  lemma {:induction false} FilterAlike(a: seq<Fact>, b: seq<Fact>, p: Fact -> bool, q: Fact -> bool)
    requires AlikeAll(a, b) && forall i :: 0 <= i < |a| ==> p(a[i]) == q(b[i])
    ensures AlikeAll(Filter(a, p), Filter(b, q))
  {
    if a != [] {
      assert Alike(a[0], b[0]) && p(a[0]) == q(b[0]);
      FilterAlike(a[1..], b[1..], p, q);
      if p(a[0]) {
        AlikeAppend([a[0]], Filter(a[1..], p), [b[0]], Filter(b[1..], q));
      }
    }
  }

  lemma {:induction false} FilterAgrees(a: seq<Fact>, p: Fact -> bool, q: Fact -> bool)
    requires forall x :: x in a ==> p(x) == q(x)
    ensures Filter(a, p) == Filter(a, q)
  {
    if a != [] {
      assert a[0] in a && forall x :: x in a[1..] ==> x in a;
      FilterAgrees(a[1..], p, q);
    }
  }

  lemma {:induction false} EachAlike(a: seq<Fact>, b: seq<Fact>, p: Fact -> Outcome, q: Fact -> Outcome)
    requires |a| == |b| && forall i :: 0 <= i < |a| ==> p(a[i]) == q(b[i])
    ensures Each(a, p) == Each(b, q)
  {
    if a != [] {
      assert p(a[0]) == q(b[0]);
      EachAlike(a[1..], b[1..], p, q);
    }
  }

  lemma {:induction false} SumAlike(a: seq<Fact>, b: seq<Fact>)
    requires AlikeAll(a, b)
    ensures SumBy(a, Allocated()) == SumBy(b, Allocated())
  {
    if a != [] {
      assert Alike(a[0], b[0]);
      SumAlike(a[1..], b[1..]);
    }
  }

  lemma {:induction false} UnrepeatedSame(lines: seq<string>)
    ensures Distinct(Unrepeated(lines)) && SameLines(Unrepeated(lines), lines)
  {
    if lines != [] {
      var n := |lines| - 1;
      UnrepeatedSame(lines[..n]);
      assert forall x :: x in lines <==> x in lines[..n] || x == lines[n];
    }
  }

  lemma LinesPenceAlike(p: PublishedView, a: seq<string>, b: seq<string>)
    requires SameLines(a, b)
    ensures LinesPence(p, a) == LinesPence(p, b)
  {
    UnrepeatedSame(a);
    UnrepeatedSame(b);
    DistinctSameElements(Unrepeated(a), Unrepeated(b));
    SumByPermuted(Unrepeated(a), Unrepeated(b), LinePence(p));
  }

  lemma LinesAlike(p: PublishedView, a: seq<string>, b: seq<string>, basis: Basis)
    requires SameLines(a, b)
    ensures UnknownLine(p, a) == UnknownLine(p, b) && OffBasisLine(p, a, basis) == OffBasisLine(p, b, basis)
  {
  }

  lemma {:induction false} OffBasisAlike(a: seq<Fact>, b: seq<Fact>, basis: Basis)
    requires AlikeAll(a, b)
    ensures (Filter(a, OffBasis(basis)) == []) == (Filter(b, OffBasis(basis)) == [])
  {
    forall i | 0 <= i < |a|
      ensures OffBasis(basis)(a[i]) == OffBasis(basis)(b[i])
    {
      assert Alike(a[i], b[i]);
    }
    FilterAlike(a, b, OffBasis(basis), OffBasis(basis));
  }

  lemma JudgeAmountsAlike(p: PublishedView, a: Fact, b: Fact, receipt: Value, total: seq<Fact>, total': seq<Fact>)
    requires a.Allocation? && b.Allocation? && Alike(a, b) && AlikeAll(total, total')
    ensures JudgeAmounts(p, a, receipt, total) == JudgeAmounts(p, b, receipt, total')
  {
    LinesAlike(p, a.lines, b.lines, receipt.basis);
    LinesPenceAlike(p, a.lines, b.lines);
    OffBasisAlike(total, total', receipt.basis);
    SumAlike(total, total');
  }

  lemma {:induction false} StandingAlike(a: seq<Fact>, b: seq<Fact>, receiptId: string)
    requires AlikeAll(a, b)
    ensures AlikeAll(Filter(a, StandingFor(receiptId)), Filter(b, StandingFor(receiptId)))
  {
    forall i | 0 <= i < |a|
      ensures StandingFor(receiptId)(a[i]) == StandingFor(receiptId)(b[i])
    {
      assert Alike(a[i], b[i]);
    }
    FilterAlike(a, b, StandingFor(receiptId), StandingFor(receiptId));
  }

  lemma JudgeAlike(v: View, p: PublishedView, s: seq<Fact>, t: seq<Fact>, a: Fact, b: Fact)
    requires AlikeAll(s, t) && Alike(a, b)
    ensures Judge(v, p, s, a) == Judge(v, p, t, b)
  {
    if ConsideredIn(v, a) {
      StandingAlike(s, t, a.receiptId);
      var n := FirstIndex(p.receipts, IsReceipt(a.receiptId));
      if n < |p.receipts| {
        JudgeAmountsAlike(p, a, b, p.receipts[n].value, Filter(s, StandingFor(a.receiptId)), Filter(t, StandingFor(a.receiptId)));
      }
    }
  }

  lemma {:induction false} AllJudgedAlike(v: View, p: PublishedView, s: seq<Fact>, t: seq<Fact>)
    requires AlikeAll(s, t)
    ensures AlikeAll(Filter(s, AvoidsIn(v, p, s)), Filter(t, AvoidsIn(v, p, t)))
    ensures Each(s, UnusableIn(v, p, s)) == Each(t, UnusableIn(v, p, t))
  {
    forall i | 0 <= i < |s|
      ensures AvoidsIn(v, p, s)(s[i]) == AvoidsIn(v, p, t)(t[i]) && UnusableIn(v, p, s)(s[i]) == UnusableIn(v, p, t)(t[i])
    {
      JudgeAlike(v, p, s, t, s[i], t[i]);
    }
    FilterAlike(s, t, AvoidsIn(v, p, s), AvoidsIn(v, p, t));
    EachAlike(s, t, UnusableIn(v, p, s), UnusableIn(v, p, t));
  }

  lemma OnLinesOneWay(a: seq<Fact>, b: seq<Fact>, c: Fact)
    requires AlikeAll(a, b) && OnLinesOf(a)(c)
    ensures OnLinesOf(b)(c)
  {
    var x :| x in a && x.Allocation? && c.line.value in x.lines;
    var i :| 0 <= i < |a| && a[i] == x;
    assert Alike(a[i], b[i]) && b[i] in b;
  }

  lemma AlikeBack(a: seq<Fact>, b: seq<Fact>)
    requires AlikeAll(a, b)
    ensures AlikeAll(b, a)
  {
    forall i | 0 <= i < |a|
      ensures Alike(b[i], a[i])
    {
      AlikeChain(a[i], b[i], a[i]);
    }
  }

  lemma AvoidingAlike(p: PublishedView, a: seq<Fact>, b: seq<Fact>)
    requires AlikeAll(a, b)
    ensures Filter(p.catches, OnLinesOf(a)) == Filter(p.catches, OnLinesOf(b))
    ensures PaymentsOf(a) == PaymentsOf(b)
  {
    AlikeBack(a, b);
    forall c | c in p.catches
      ensures OnLinesOf(a)(c) == OnLinesOf(b)(c)
    {
      if OnLinesOf(a)(c) { OnLinesOneWay(a, b, c); }
      if OnLinesOf(b)(c) { OnLinesOneWay(b, a, c); }
    }
    FilterAgrees(p.catches, OnLinesOf(a), OnLinesOf(b));
    PaymentsWithin(a, b);
    PaymentsWithin(b, a);
  }

  lemma PaymentsWithin(a: seq<Fact>, b: seq<Fact>)
    requires AlikeAll(a, b)
    ensures PaymentsOf(a) <= PaymentsOf(b)
  {
    forall id | id in PaymentsOf(a)
      ensures id in PaymentsOf(b)
    {
      var x :| x in a && x.Allocation? && x.receiptId == id;
      var i :| 0 <= i < |a| && a[i] == x;
      assert Alike(a[i], b[i]) && b[i] in b;
    }
  }

  /** The same finding up to the canonical texts of its facts. */
  ghost predicate AlikeFound(x: Found, y: Found) {
    x.kind == y.kind && x.compared == y.compared && AlikeAll(x.facts, y.facts)
  }

  ghost predicate AlikeFounds(a: seq<Found>, b: seq<Found>) {
    |a| == |b| && forall i :: 0 <= i < |a| ==> AlikeFound(a[i], b[i])
  }

  ghost predicate AlikeOutcome(x: Outcome, y: Outcome) {
    x.unavailable == y.unavailable && AlikeFounds(x.found, y.found)
  }

  lemma AndAlike(a: Outcome, b: Outcome, c: Outcome, d: Outcome)
    requires AlikeOutcome(a, c) && AlikeOutcome(b, d)
    ensures AlikeOutcome(And(a, b), And(c, d))
  {
  }

  lemma OutcomeSelf(a: Outcome)
    ensures AlikeOutcome(a, a)
  {
    forall i | 0 <= i < |a.found|
      ensures AlikeFound(a.found[i], a.found[i])
    {
      AlikeSelf(a.found[i].facts);
    }
  }

  lemma AvoidFactsAlike(p: PublishedView, a: seq<Fact>, b: seq<Fact>)
    requires AlikeAll(a, b)
    ensures AlikeAll([p.lock] + Filter(p.catches, OnLinesOf(a)) + a + Filter(p.receipts, PaidIn(PaymentsOf(a))),
                     [p.lock] + Filter(p.catches, OnLinesOf(b)) + b + Filter(p.receipts, PaidIn(PaymentsOf(b))))
  {
    AvoidingAlike(p, a, b);
    var front, back := [p.lock] + Filter(p.catches, OnLinesOf(a)), Filter(p.receipts, PaidIn(PaymentsOf(a)));
    AlikeSelf(front);
    AlikeSelf(back);
    AlikeAppend(front, a, front, b);
    AlikeAppend(front + a, back, front + b, back);
  }

  lemma AvoidFindingAlike(p: PublishedView, a: seq<Fact>, b: seq<Fact>, minimum: nat)
    requires p.lock.Lock? && AlikeAll(a, b)
    ensures AlikeOutcome(AvoidFinding(p, a, minimum), AvoidFinding(p, b, minimum))
  {
    AvoidingAlike(p, a, b);
    AvoidFactsAlike(p, a, b);
  }

  /** The rule on allocations finds the same of allocations that are alike. */
  lemma AllocationsAvoidAlike(v: View, p: PublishedView, s: seq<Fact>, t: seq<Fact>)
    requires p.lock.Lock? && AlikeAll(s, t)
    ensures AlikeOutcome(AllocationsAvoidRule(v, p, s), AllocationsAvoidRule(v, p, t))
  {
    if v.profile.minimumPayments.Some? {
      var minimum := v.profile.minimumPayments.value;
      AllJudgedAlike(v, p, s, t);
      AvoidFindingAlike(p, Filter(s, AvoidsIn(v, p, s)), Filter(t, AvoidsIn(v, p, t)), minimum);
      AfterAlike(Each(s, UnusableIn(v, p, s)), AvoidFinding(p, Filter(s, AvoidsIn(v, p, s)), minimum),
                 AvoidFinding(p, Filter(t, AvoidsIn(v, p, t)), minimum));
    }
  }

  /** Whatever comes first, alike outcomes after it stay alike. */
  lemma AfterAlike(first: Outcome, a: Outcome, b: Outcome)
    requires AlikeOutcome(a, b)
    ensures AlikeOutcome(And(first, a), And(first, b))
  {
    OutcomeSelf(first);
    AndAlike(first, a, first, b);
  }

  lemma RulesAlike(order: Order, v: View, s: seq<Fact>, t: seq<Fact>)
    requires AlikeAll(s, t)
    ensures AlikeOutcome(Assessor(order)(v, s), Assessor(order)(v, t))
  {
    if v.published.Some? && v.published.value.lock.Lock? {
      var p := v.published.value;
      AllocationsAvoidAlike(v, p, s, t);
      AfterAlike(LineCorrectionRule(p), AllocationsAvoidRule(v, p, s), AllocationsAvoidRule(v, p, t));
      AfterAlike(And(CompletedDismissalRule(v, p), ReceiptsExceedRule(p)),
                 And(LineCorrectionRule(p), AllocationsAvoidRule(v, p, s)), And(LineCorrectionRule(p), AllocationsAvoidRule(v, p, t)));
      AfterAlike(OrdinaryRules(order, v), PublishedRules(v, p, s), PublishedRules(v, p, t));
    } else {
      OutcomeSelf(OrdinaryRules(order, v));
    }
  }

  // ----- nor can the findings -----

  lemma SourcesAlike(a: seq<Fact>, b: seq<Fact>)
    requires AlikeAll(a, b)
    ensures Map(a, SourceIn()) == Map(b, SourceIn())
  {
    forall i | 0 <= i < |a|
      ensures a[i].source == b[i].source
    {
      AlikeChain(a[i], b[i], a[i]);
    }
  }

  lemma HasIdentityAlike(a: seq<Fact>, b: seq<Fact>, k: Identity)
    requires AlikeAll(a, b)
    ensures HasIdentity(a, k) <==> HasIdentity(b, k)
  {
    SourcesAlike(a, b);
    forall i | 0 <= i < |a|
      ensures a[i].source == b[i].source
    {
      assert Map(a, SourceIn())[i] == Map(b, SourceIn())[i];
    }
  }

  lemma {:induction false} LatestAlike(a: seq<Fact>, b: seq<Fact>)
    requires AlikeAll(a, b)
    ensures AlikeAll(Latest(a), Latest(b))
  {
    if a != [] {
      assert Alike(a[0], b[0]);
      AlikeChain(a[0], b[0], a[0]);
      LatestAlike(a[1..], b[1..]);
      HasIdentityAlike(a[1..], b[1..], IdentityOf(a[0].source));
      AlikeAppend([a[0]], Latest(a[1..]), [b[0]], Latest(b[1..]));
    }
  }

  lemma UniqueAlike(order: Order, a: seq<Fact>, b: seq<Fact>)
    requires AlikeAll(a, b)
    ensures AlikeAll(Unique(order, a), Unique(order, b))
  {
    LatestAlike(a, b);
    SortTogether(Latest(a), Latest(b), (f: Fact, g: Fact) => Alike(f, g), ByIdentity(order));
  }

  /** The same finding up to the canonical text of its snapshot: its key and its references are equal. */
  ghost predicate AlikeFinding(x: Finding, y: Finding) {
    x.key == y.key && x.references == y.references && AlikeFound(x.snapshot, y.snapshot)
  }

  ghost predicate AlikeFindings(a: seq<Finding>, b: seq<Finding>) {
    |a| == |b| && forall i :: 0 <= i < |a| ==> AlikeFinding(a[i], b[i])
  }

  ghost predicate AlikeEvaluation(x: Evaluation, y: Evaluation) {
    x.unavailable == y.unavailable && AlikeFindings(x.findings, y.findings)
  }

  lemma KeyWithin(profile: Profile, x: Found, y: Found)
    requires AlikeFound(x, y)
    ensures KeyOf(profile, x).sources <= KeyOf(profile, y).sources
  {
    forall k | k in KeyOf(profile, x).sources
      ensures k in KeyOf(profile, y).sources
    {
      var f :| f in x.facts && IdentityOf(f.source) == k;
      var i :| 0 <= i < |x.facts| && x.facts[i] == f;
      AlikeChain(x.facts[i], y.facts[i], f);
      assert y.facts[i] in y.facts;
    }
  }

  lemma FindingOfAlike(order: Order, profile: Profile, x: Found, y: Found)
    requires AlikeFound(x, y)
    ensures AlikeFinding(FindingOf(order, profile, x), FindingOf(order, profile, y))
  {
    AlikeBack(x.facts, y.facts);
    KeyWithin(profile, x, y);
    KeyWithin(profile, y, x);
    UniqueAlike(order, x.facts, y.facts);
    SourcesAlike(Unique(order, x.facts), Unique(order, y.facts));
  }

  lemma HasKeyAlike(a: seq<Finding>, b: seq<Finding>, k: Key)
    requires AlikeFindings(a, b)
    ensures HasKey(a, k) <==> HasKey(b, k)
  {
    if HasKey(a, k) {
      var i :| 0 <= i < |a| && a[i].key == k;
      assert AlikeFinding(a[i], b[i]);
    }
    if HasKey(b, k) {
      var i :| 0 <= i < |b| && b[i].key == k;
      assert AlikeFinding(a[i], b[i]);
    }
  }

  lemma {:induction false} KeptAlike(order: Order, profile: Profile, a: seq<Found>, b: seq<Found>)
    requires AlikeFounds(a, b)
    ensures AlikeFindings(Kept(order, profile, a), Kept(order, profile, b))
    decreases |a|
  {
    if a != [] {
      var n := |a| - 1;
      assert AlikeFound(a[n], b[n]);
      KeptAlike(order, profile, a[..n], b[..n]);
      FindingOfAlike(order, profile, a[n], b[n]);
      HasKeyAlike(Kept(order, profile, a[..n]), Kept(order, profile, b[..n]), KeyOf(profile, a[n]));
    }
  }

  lemma {:induction false} EvaluationAlike(order: Order, keys: KeyOrder, profile: Profile, x: Outcome, y: Outcome)
    requires AlikeOutcome(x, y)
    ensures AlikeEvaluation(Evaluation(Sort(Kept(order, profile, x.found), ByKey(keys)), x.unavailable),
                            Evaluation(Sort(Kept(order, profile, y.found), ByKey(keys)), y.unavailable))
  {
    KeptAlike(order, profile, x.found, y.found);
    SortTogether(Kept(order, profile, x.found), Kept(order, profile, y.found), (f: Finding, g: Finding) => AlikeFinding(f, g), ByKey(keys));
  }

  // ----- the listing of facts does not matter -----

  /** Each list holds its own kind of facts, as the schema reads it. */
  predicate Typed(i: Input) {
    && (forall f :: f in i.quotes ==> f.Quote?) && (forall f :: f in i.activations ==> f.Activation?)
    && (forall f :: f in i.activity ==> f.Activity?) && (forall f :: f in i.works ==> f.Work?)
    && (forall f :: f in i.assertions ==> f.Assertion?)
    && (i.published.Some? ==> TypedPublished(i.published.value))
  }

  predicate TypedPublished(p: Published) {
    && (forall f :: f in p.catches ==> f.Catch?) && (forall f :: f in p.completions ==> f.Completion?)
    && (forall f :: f in p.receipts ==> f.Receipt?) && (forall f :: f in p.corrections ==> f.Correction?)
    && (forall f :: f in p.allocations ==> f.Allocation?)
  }

  ghost predicate SamePublished(a: Published, b: Published) {
    && b.lockId == a.lockId && b.contract == a.contract && b.cutoff == a.cutoff && b.lockSource == a.lockSource && b.account == a.account
    && SameFacts(a.catches, b.catches) && SameFacts(a.completions, b.completions) && SameFacts(a.receipts, b.receipts)
    && SameFacts(a.corrections, b.corrections) && SameFacts(a.allocations, b.allocations)
  }

  /** The same input but for the order and repetition of the facts in its lists and of the line ids in its facts. */
  ghost predicate SameListing(a: Input, b: Input) {
    && b == a.(quotes := b.quotes, activations := b.activations, activity := b.activity, works := b.works, assertions := b.assertions,
               published := b.published)
    && SameFacts(a.quotes, b.quotes) && SameFacts(a.activations, b.activations) && SameFacts(a.activity, b.activity)
    && SameFacts(a.works, b.works) && SameFacts(a.assertions, b.assertions)
    && a.published.Some? == b.published.Some? && (a.published.Some? ==> SamePublished(a.published.value, b.published.value))
  }

  /** The published facts; the lock's own source stands beside them as a bare source. */
  function PublishedFacts(p: Published): seq<Fact> {
    [Activation(p.lockSource)] + p.catches + p.completions + p.receipts + p.corrections + p.allocations
  }

  function AllFacts(i: Input): seq<Fact> {
    i.quotes + i.activations + i.activity + i.works + i.assertions + if i.published.Some? then PublishedFacts(i.published.value) else []
  }

  lemma ConsistentPart(whole: seq<Fact>, part: seq<Fact>)
    requires Consistent(whole) && forall f :: f in part ==> f in whole
    ensures Consistent(part)
  {
    forall i, j | 0 <= i < |part| && 0 <= j < |part| && IdentityOf(part[i].source) == IdentityOf(part[j].source)
      ensures Alike(part[i], part[j])
    {
      assert part[i] in part && part[j] in part;
      var k :| 0 <= k < |whole| && whole[k] == part[i];
      var m :| 0 <= m < |whole| && whole[m] == part[j];
    }
  }

  /** Facts that hold no list have no other fact of the same canonical text. */
  lemma SameMembers(a: seq<Fact>, b: seq<Fact>)
    requires SameFacts(a, b) && forall f :: f in a ==> !f.Allocation?
    ensures forall f :: f in a <==> f in b
  {
    forall f
      ensures f in a <==> f in b
    {
      if f in a {
        assert Lists(b, f);
        var j :| 0 <= j < |b| && Alike(b[j], f);
      }
      if f in b {
        assert Lists(a, f);
        var j :| 0 <= j < |a| && Alike(a[j], f);
        assert a[j] in a;
      }
    }
  }

  lemma AlikeEqual(a: seq<Fact>, b: seq<Fact>)
    requires AlikeAll(a, b) && forall f :: f in a ==> !f.Allocation?
    ensures a == b
  {
    forall i | 0 <= i < |a|
      ensures a[i] == b[i]
    {
      assert a[i] in a && Alike(a[i], b[i]);
    }
  }

  lemma UniqueKinds(order: Order, a: seq<Fact>)
    requires OrderOk(order) && forall f :: f in a ==> !f.Allocation?
    ensures forall f :: f in Unique(order, a) ==> !f.Allocation?
  {
    UniqueMeaning(order, a);
  }

  lemma UniquePart(order: Order, whole: seq<Fact>, a: seq<Fact>, b: seq<Fact>)
    requires OrderOk(order) && Consistent(whole) && (forall f :: f in a ==> f in whole) && SameFacts(a, b)
    ensures AlikeAll(Unique(order, a), Unique(order, b))
    ensures (forall f :: f in a ==> !f.Allocation?) ==> Unique(order, a) == Unique(order, b)
  {
    ConsistentPart(whole, a);
    UniqueForgetsListing(order, a, b);
    if forall f :: f in a ==> !f.Allocation? {
      UniqueKinds(order, a);
      AlikeEqual(Unique(order, a), Unique(order, b));
    }
  }

  lemma SamePublishedView(order: Order, whole: seq<Fact>, a: Published, b: Published)
    requires OrderOk(order) && Consistent(whole) && (forall f :: f in PublishedFacts(a) ==> f in whole) && SamePublished(a, b) && TypedPublished(a)
    ensures PublishedViewOf(order, a) == PublishedViewOf(order, b)
  {
    UniquePart(order, whole, a.catches, b.catches);
    UniquePart(order, whole, a.completions, b.completions);
    UniquePart(order, whole, a.receipts, b.receipts);
    UniquePart(order, whole, a.corrections, b.corrections);
    SameMembers(a.corrections, b.corrections);
  }

  lemma SameView(order: Order, a: Input, b: Input)
    requires OrderOk(order) && Consistent(AllFacts(a)) && Typed(a) && SameListing(a, b)
    ensures ViewOf(order, a) == ViewOf(order, b) && AlikeAll(AllocationsOf(order, a), AllocationsOf(order, b))
  {
    var whole := AllFacts(a);
    UniquePart(order, whole, a.quotes, b.quotes);
    UniquePart(order, whole, a.activity, b.activity);
    UniquePart(order, whole, a.works, b.works);
    UniquePart(order, whole, a.assertions, b.assertions);
    SameMembers(a.activations, b.activations);
    SameMembers(a.assertions, b.assertions);
    if a.published.Some? {
      SamePublishedView(order, whole, a.published.value, b.published.value);
      UniquePart(order, whole, a.published.value.allocations, b.published.value.allocations);
    }
    assert JobsOf(a.activations) == JobsOf(b.activations);
  }

  /**
   * Permuting or repeating facts, or the line ids inside them, changes neither the unavailable rules
   * nor any finding's key and references, and its snapshot at most within one canonical text.
   */
  lemma ListingIrrelevant(order: Order, keys: KeyOrder, a: Input, b: Input)
    requires OrderOk(order) && Consistent(AllFacts(a)) && Typed(a) && SameListing(a, b)
    ensures AlikeEvaluation(Evaluate(order, keys, a), Evaluate(order, keys, b))
  {
    SameView(order, a, b);
    var v := ViewOf(order, a);
    RulesAlike(order, v, AllocationsOf(order, a), AllocationsOf(order, b));
    EvaluationAlike(order, keys, a.profile, Assessor(order)(v, AllocationsOf(order, a)), Assessor(order)(v, AllocationsOf(order, b)));
  }

  // ----- nor does it matter for acceptance -----

  predicate InScope(i: Input, f: Fact, anyJob: bool) {
    && f.source.scope == i.scope && f.source.tenant == i.tenant && (anyJob || f.source.job == i.job) && f.source.recordedAt <= i.evaluatedAt
  }

  ghost predicate NoTwo(facts: seq<Fact>, same: (Fact, Fact) -> bool) {
    forall m, n :: 0 <= m < n < |facts| ==> !same(facts[m], facts[n])
  }

  function BothAccepted(): (Fact, Fact) -> bool {
    (f: Fact, g: Fact) => f.Quote? && g.Quote? && f.status == Accepted && g.status == Accepted && f.source.job == g.source.job
  }

  function OneReceipt(): (Fact, Fact) -> bool {
    (f: Fact, g: Fact) => f.source.id == g.source.id
  }

  function OneCatch(): (Fact, Fact) -> bool {
    (f: Fact, g: Fact) => f.Catch? && g.Catch? && (f.catchId == g.catchId || (f.line.Some? && f.line == g.line))
  }

  predicate LockIdentityOk(i: Input, p: Published) {
    && i.lockState == LockPresent && p.cutoff <= i.evaluatedAt
    && p.lockSource.id == p.lockId && p.lockSource.recordedAt == p.cutoff && p.lockSource.provenance == ServerRecorded
  }

  ghost predicate PublishedOk(order: Order, i: Input, p: Published) {
    && LockIdentityOk(i, p) && (forall f :: f in PublishedFacts(p) ==> InScope(i, f, false))
    && NoTwo(Unique(order, p.receipts), OneReceipt()) && NoTwo(Unique(order, p.catches), OneCatch())
  }

  /** What every fact of its list has to be. */
  predicate QuoteOk(i: Input, f: Fact) {
    InScope(i, f, true) && f.Quote? && f.acceptedAt <= i.evaluatedAt
  }

  predicate AssertionOk(i: Input, f: Fact) {
    InScope(i, f, false) && f.Assertion? && f.validFrom <= f.validUntil
  }

  /** The checks across facts that an input has to pass. */
  ghost predicate Admitted(order: Order, i: Input) {
    && Typed(i) && Consistent(AllFacts(i))
    && (forall f :: f in i.quotes ==> QuoteOk(i, f)) && (forall f :: f in i.assertions ==> AssertionOk(i, f))
    && (forall f :: f in i.activations + i.activity + i.works ==> InScope(i, f, false))
    && NoTwo(Unique(order, i.quotes), BothAccepted())
    && (i.published.Some? ==> PublishedOk(order, i, i.published.value))
  }

  lemma ListsMore(a: seq<Fact>, more: seq<Fact>, f: Fact)
    requires Lists(a, f) && forall x :: x in a ==> x in more
    ensures Lists(more, f)
  {
    var i :| 0 <= i < |a| && Alike(a[i], f);
    assert a[i] in more;
    var j :| 0 <= j < |more| && more[j] == a[i];
  }

  lemma SameTogether(a: seq<Fact>, b: seq<Fact>, c: seq<Fact>, d: seq<Fact>)
    requires SameFacts(a, b) && SameFacts(c, d)
    ensures SameFacts(a + c, b + d)
  {
    forall f | f in a + c
      ensures Lists(b + d, f)
    {
      if f in a { ListsMore(b, b + d, f); } else { ListsMore(d, b + d, f); }
    }
    forall f | f in b + d
      ensures Lists(a + c, f)
    {
      if f in b { ListsMore(a, a + c, f); } else { ListsMore(c, a + c, f); }
    }
  }

  lemma SameSelf(a: seq<Fact>)
    ensures SameFacts(a, a)
  {
    forall f | f in a
      ensures Lists(a, f)
    {
      var i :| 0 <= i < |a| && a[i] == f;
      AlikeChain(f, f, f);
    }
  }

  lemma SamePublishedFacts(a: Published, b: Published)
    requires SamePublished(a, b)
    ensures SameFacts(PublishedFacts(a), PublishedFacts(b))
  {
    var lock := [Activation(a.lockSource)];
    SameSelf(lock);
    SameTogether(lock, lock, a.catches, b.catches);
    SameTogether(lock + a.catches, lock + b.catches, a.completions, b.completions);
    SameTogether(lock + a.catches + a.completions, lock + b.catches + b.completions, a.receipts, b.receipts);
    SameTogether(lock + a.catches + a.completions + a.receipts, lock + b.catches + b.completions + b.receipts, a.corrections, b.corrections);
    SameTogether(lock + a.catches + a.completions + a.receipts + a.corrections,
                 lock + b.catches + b.completions + b.receipts + b.corrections, a.allocations, b.allocations);
  }

  lemma SameAll(a: Input, b: Input)
    requires SameListing(a, b)
    ensures SameFacts(AllFacts(a), AllFacts(b))
  {
    SameTogether(a.quotes, b.quotes, a.activations, b.activations);
    SameTogether(a.quotes + a.activations, b.quotes + b.activations, a.activity, b.activity);
    SameTogether(a.quotes + a.activations + a.activity, b.quotes + b.activations + b.activity, a.works, b.works);
    SameTogether(a.quotes + a.activations + a.activity + a.works, b.quotes + b.activations + b.activity + b.works, a.assertions, b.assertions);
    if a.published.Some? {
      SamePublishedFacts(a.published.value, b.published.value);
      SameTogether(a.quotes + a.activations + a.activity + a.works + a.assertions, b.quotes + b.activations + b.activity + b.works + b.assertions,
                   PublishedFacts(a.published.value), PublishedFacts(b.published.value));
    } else {
      SameSelf([]);
      SameTogether(a.quotes + a.activations + a.activity + a.works + a.assertions, b.quotes + b.activations + b.activity + b.works + b.assertions, [], []);
    }
  }

  /** A check that reads one canonical text passes on one listing if it passes on the other. */
  lemma CheckCarries(a: seq<Fact>, b: seq<Fact>, check: Fact -> bool)
    requires SameFacts(a, b) && (forall f, g :: Alike(f, g) ==> check(f) == check(g)) && forall f :: f in a ==> check(f)
    ensures forall f :: f in b ==> check(f)
  {
    forall f | f in b
      ensures check(f)
    {
      assert Lists(a, f);
      var i :| 0 <= i < |a| && Alike(a[i], f);
      assert a[i] in a;
    }
  }

  lemma TypedPublishedCarries(a: Published, b: Published)
    requires SamePublished(a, b) && TypedPublished(a)
    ensures TypedPublished(b)
  {
    CheckCarries(a.catches, b.catches, (f: Fact) => f.Catch?);
    CheckCarries(a.completions, b.completions, (f: Fact) => f.Completion?);
    CheckCarries(a.receipts, b.receipts, (f: Fact) => f.Receipt?);
    CheckCarries(a.corrections, b.corrections, (f: Fact) => f.Correction?);
    CheckCarries(a.allocations, b.allocations, (f: Fact) => f.Allocation?);
  }

  lemma TypedCarries(a: Input, b: Input)
    requires SameListing(a, b) && Typed(a)
    ensures Typed(b)
  {
    CheckCarries(a.quotes, b.quotes, (f: Fact) => f.Quote?);
    CheckCarries(a.activations, b.activations, (f: Fact) => f.Activation?);
    CheckCarries(a.activity, b.activity, (f: Fact) => f.Activity?);
    CheckCarries(a.works, b.works, (f: Fact) => f.Work?);
    CheckCarries(a.assertions, b.assertions, (f: Fact) => f.Assertion?);
    if a.published.Some? {
      TypedPublishedCarries(a.published.value, b.published.value);
    }
  }

  lemma ScopeAlike(a: Input, b: Input, f: Fact, g: Fact)
    requires b.scope == a.scope && b.tenant == a.tenant && b.job == a.job && b.evaluatedAt == a.evaluatedAt && Alike(f, g)
    ensures InScope(a, f, false) == InScope(b, g, false)
    ensures QuoteOk(a, f) == QuoteOk(b, g) && AssertionOk(a, f) == AssertionOk(b, g)
  {
    AlikeChain(f, g, f);
  }

  lemma PublishedCarries(order: Order, whole: seq<Fact>, a: Input, b: Input)
    requires OrderOk(order) && Consistent(whole) && SameListing(a, b) && Typed(a) && a.published.Some?
    requires (forall f :: f in PublishedFacts(a.published.value) ==> f in whole) && PublishedOk(order, a, a.published.value)
    ensures PublishedOk(order, b, b.published.value)
  {
    var p, q := a.published.value, b.published.value;
    UniquePart(order, whole, p.receipts, q.receipts);
    UniquePart(order, whole, p.catches, q.catches);
    SamePublishedFacts(p, q);
    forall f, g | Alike(f, g)
      ensures InScope(a, f, false) == InScope(a, g, false)
    {
      ScopeAlike(a, a, f, g);
    }
    CheckCarries(PublishedFacts(p), PublishedFacts(q), (f: Fact) => InScope(a, f, false));
  }

  lemma OrdinaryCarries(a: Input, b: Input)
    requires SameListing(a, b) && (forall f :: f in a.quotes ==> QuoteOk(a, f)) && (forall f :: f in a.assertions ==> AssertionOk(a, f))
    requires forall f :: f in a.activations + a.activity + a.works ==> InScope(a, f, false)
    ensures (forall f :: f in b.quotes ==> QuoteOk(b, f)) && (forall f :: f in b.assertions ==> AssertionOk(b, f))
    ensures forall f :: f in b.activations + b.activity + b.works ==> InScope(b, f, false)
  {
    forall f, g | Alike(f, g)
      ensures InScope(b, f, false) == InScope(b, g, false) && QuoteOk(b, f) == QuoteOk(b, g) && AssertionOk(b, f) == AssertionOk(b, g)
    {
      ScopeAlike(b, b, f, g);
    }
    SameTogether(a.activations, b.activations, a.activity, b.activity);
    SameTogether(a.activations + a.activity, b.activations + b.activity, a.works, b.works);
    CheckCarries(a.quotes, b.quotes, (f: Fact) => QuoteOk(b, f));
    CheckCarries(a.assertions, b.assertions, (f: Fact) => AssertionOk(b, f));
    CheckCarries(a.activations + a.activity + a.works, b.activations + b.activity + b.works, (f: Fact) => InScope(b, f, false));
  }

  lemma AdmittedOneWay(order: Order, a: Input, b: Input)
    requires OrderOk(order) && SameListing(a, b) && Admitted(order, a)
    ensures Admitted(order, b)
  {
    SameAll(a, b);
    ConsistentSame(AllFacts(a), AllFacts(b));
    TypedCarries(a, b);
    OrdinaryCarries(a, b);
    UniquePart(order, AllFacts(a), a.quotes, b.quotes);
    if a.published.Some? {
      PublishedCarries(order, AllFacts(a), a, b);
    }
  }

  lemma SameListingBack(a: Input, b: Input)
    requires SameListing(a, b)
    ensures SameListing(b, a)
  {
  }

  /** An input is admitted or refused whatever the order and repetition of its facts and of their line ids. */
  lemma AdmissionIrrelevant(order: Order, a: Input, b: Input)
    requires OrderOk(order) && SameListing(a, b)
    ensures Admitted(order, a) <==> Admitted(order, b)
  {
    SameListingBack(a, b);
    if Admitted(order, a) {
      AdmittedOneWay(order, a, b);
    }
    if Admitted(order, b) {
      AdmittedOneWay(order, b, a);
    }
  }
}
