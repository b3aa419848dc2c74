/**
 * When each of the nine rules finds something, and when a rule is unavailable, in terms of the facts of
 * the input: one per source, and nothing of how the rules are evaluated.
 */
module IntegrityFindings {
  import opened Prelude
  import opened Sorting
  import opened Integrity

  // ----- ordinary rules -----

  predicate Within(i: Input, time: int) {
    i.profile.window.start <= time <= i.profile.window.end
  }

  /** An accepted quote of this job whose job never went live within the declared delay. */
  ghost predicate QuoteNeverLive(order: Order, i: Input, q: Fact, delay: nat) {
    && q in Unique(order, i.quotes) && q.Quote? && q.status == Accepted && q.source.job == i.job
    && (forall a :: a in i.activations ==> a.source.job != i.job)
    && i.evaluatedAt - q.acceptedAt > delay
  }

  ghost predicate NeverLiveJustified(order: Order, i: Input, x: Found) {
    && i.profile.wonDelay.Some? && |x.facts| == 1 && QuoteNeverLive(order, i, x.facts[0], i.profile.wonDelay.value)
    && x == Found(NeverLive, [x.facts[0]], [Number(x.facts[0].acceptedAt), Number(i.profile.wonDelay.value)])
  }

  ghost predicate WithoutLockJustified(order: Order, i: Input, x: Found) {
    && i.lockState == LockAbsent && |x.facts| == 1 && x.facts[0] in Unique(order, i.activity) && x.facts[0].Activity?
    && Within(i, x.facts[0].source.recordedAt)
    && x == Found(ActivityWithoutLock, [x.facts[0]], [Word(if x.facts[0].isInvoice then "invoice" else "payment")])
  }

  /** An accepted binding net quote below 2,000 pounds. */
  ghost predicate Small(order: Order, i: Input, q: Fact) {
    && q in Unique(order, i.quotes) && q.Quote? && q.status == Accepted && q.binding && Within(i, q.acceptedAt)
    && q.value.basis == NetBasis && q.value.pence < 2000 * 100
  }

  const DAY := 24 * 60 * 60 * 1_000_000

  /** Two such quotes for different jobs, one of them this one, for one customer and site, at most ninety days apart. */
  ghost predicate RelatedJustified(order: Order, i: Input, x: Found) {
    && i.profile.quotePolicy.Some? && |x.facts| == 2 && Small(order, i, x.facts[0]) && Small(order, i, x.facts[1])
    && var a, b := x.facts[0], x.facts[1];
       && a != b && order(IdentityOf(a.source), IdentityOf(b.source))
       && a.source.job != b.source.job && (a.source.job == i.job || b.source.job == i.job) && a.customer == b.customer && a.site == b.site
       && -90 * DAY <= a.acceptedAt - b.acceptedAt <= 90 * DAY
       && (!i.profile.quotePolicy.value.inclusive ==> -90 * DAY < a.acceptedAt - b.acceptedAt < 90 * DAY)
       && exists d: nat :: (d == a.acceptedAt - b.acceptedAt || d == b.acceptedAt - a.acceptedAt)
                           && x == Found(RelatedQuotes, [a, b], [Number(a.value.pence), Number(b.value.pence), Number(d)])
  }

  ghost predicate ReuseJustified(order: Order, i: Input, x: Found) {
    && |x.facts| == 1 && x.facts[0] in Unique(order, i.assertions)
    && var a := x.facts[0];
       && a.Assertion? && a.scopeId == i.scope && a.validFrom <= i.evaluatedAt && i.evaluatedAt <= a.validUntil
       && a.sharing == Unexplained && Within(i, a.source.recordedAt)
       && x == Found(IdentifierReuse, [a], [Word(a.identifierKind), Word(a.subject), Word(a.authority)])
  }

  // ----- restarts -----

  predicate Before(order: Order, f: Fact, g: Fact) {
    || f.source.recordedAt < g.source.recordedAt
    || (f.source.recordedAt == g.source.recordedAt && f != g && order(IdentityOf(f.source), IdentityOf(g.source)))
  }

  ghost predicate Event(order: Order, i: Input, f: Fact) {
    f in Unique(order, i.works) && Within(i, f.source.recordedAt)
  }

  /** The event ends work before the restart and is its named predecessor. */
  predicate EndsFor(f: Fact, r: Fact) {
    && f.Work? && r.Work? && (f.kind == Finish || f.kind == Close) && r.predecessor == Some(f.source.id)
    && f.source.recordedAt < r.source.recordedAt
  }

  /** A resumption, a cancelled finish or a reopening undoes the earliest such event, a finish or for a reopening a closure. */
  ghost predicate Undoes(order: Order, events: set<Fact>, r: Fact, f: Fact) {
    && r in events && f in events && EndsFor(f, r)
    && (forall g :: g in events && EndsFor(g, r) ==> g == f || Before(order, f, g))
    && ((r.kind == Reopen && f.kind == Close) || ((r.kind == Resume || r.kind == CancelFinish) && f.kind == Finish))
  }

  /** The first restart to undo an event with that id. */
  ghost predicate FirstUndoes(order: Order, events: set<Fact>, r: Fact, f: Fact) {
    && Undoes(order, events, r, f)
    && (forall s, g :: Undoes(order, events, s, g) && g.source.id == f.source.id ==> s == r || Before(order, r, s))
  }

  /** The pairs of a finish and its restart, one for each id. */
  ghost function Pairs(order: Order, events: set<Fact>): set<(Fact, Fact)> {
    set r, f | r in events && f in events && FirstUndoes(order, events, r, f) :: (f, r)
  }

  ghost function Events(order: Order, i: Input): set<Fact> {
    set f | f in Unique(order, i.works) && Within(i, f.source.recordedAt)
  }

  ghost predicate RestartJustified(order: Order, i: Input, x: Found) {
    && i.profile.minimumCycles.Some?
    && x.kind == FinishRestart
    && var pairs := Pairs(order, Events(order, i));
       && |pairs| >= i.profile.minimumCycles.value
       && (forall f :: f in x.facts <==> exists p :: p in pairs && (f == p.0 || f == p.1))
       && |x.facts| == 2 * |pairs|
       && x.compared == [Number(|pairs|), Number(i.profile.minimumCycles.value)]
  }

  // ----- what the ordinary rules find -----

  lemma {:induction false} EachFinds(facts: seq<Fact>, rule: Fact -> Outcome)
    ensures forall x :: x in Each(facts, rule).found <==> exists f :: f in facts && x in rule(f).found
    ensures forall u :: u in Each(facts, rule).unavailable <==> exists f :: f in facts && u in rule(f).unavailable
  {
    if facts != [] {
      EachFinds(facts[1..], rule);
      assert forall f :: f in facts <==> f == facts[0] || f in facts[1..];
    }
  }

  /** One of the findings is of the same kind and rests on the same facts. */
  ghost predicate FoundLike(found: seq<Found>, x: Found) {
    exists y :: y in found && y.kind == x.kind && forall f :: f in y.facts <==> f in x.facts
  }

  lemma NeverLiveExactly(order: Order, i: Input, v: View, x: Found)
    requires v.quotes == Unique(order, i.quotes) && v.live == JobsOf(i.activations) && v.profile == i.profile
    requires v.job == i.job && v.evaluatedAt == i.evaluatedAt
    ensures x in NeverLiveRule(v).found <==> NeverLiveJustified(order, i, x)
    ensures forall u :: u in NeverLiveRule(v).unavailable <==> i.profile.wonDelay.None? && u == Unavailable(NeverLive, PolicyAbsent)
  {
    if v.profile.wonDelay.Some? {
      var rule := (q: Fact) =>
        if q.Quote? && q.source.job == v.job && q.status == Accepted && q.source.job !in v.live
          && v.evaluatedAt - q.acceptedAt > v.profile.wonDelay.value
        then One(NeverLive, [q], [Number(q.acceptedAt), Number(v.profile.wonDelay.value)]) else NOTHING;
      EachFinds(v.quotes, rule);
      assert i.job in v.live <==> exists a :: a in i.activations && a.source.job == i.job;
      if NeverLiveJustified(order, i, x) {
        assert x in rule(x.facts[0]).found;
      }
    }
  }

  lemma WithoutLockExactly(order: Order, i: Input, v: View, x: Found)
    requires v.activity == Unique(order, i.activity) && v.profile == i.profile && v.lockState == i.lockState
    ensures x in WithoutLockRule(v).found <==> WithoutLockJustified(order, i, x)
    ensures forall u :: u in WithoutLockRule(v).unavailable <==> i.lockState == LockUnknown && u == Unavailable(ActivityWithoutLock, SourceAbsent)
  {
    if v.lockState == LockAbsent {
      var rule := (a: Fact) =>
        if a.Activity? && InWindow(v, a) then One(ActivityWithoutLock, [a], [Word(if a.isInvoice then "invoice" else "payment")]) else NOTHING;
      EachFinds(v.activity, rule);
      if WithoutLockJustified(order, i, x) {
        assert x in rule(x.facts[0]).found;
      }
    }
  }

  lemma ReuseExactly(order: Order, i: Input, v: View, x: Found)
    requires v.assertions == Unique(order, i.assertions) && v.profile == i.profile && v.scope == i.scope && v.evaluatedAt == i.evaluatedAt
    requires v.reusable <==> exists a :: a in i.assertions && Applies(i, a)
    ensures x in IdentifierReuseRule(v).found <==> ReuseJustified(order, i, x)
    ensures forall u :: u in IdentifierReuseRule(v).unavailable <==>
              && u == Unavailable(IdentifierReuse, SourceAbsent)
              && !exists a :: a in i.assertions && Applies(i, a)
  {
    var rule := (a: Fact) =>
      if a.Assertion? && a.scopeId == v.scope && a.validFrom <= v.evaluatedAt <= a.validUntil && a.sharing == Unexplained && InWindow(v, a)
      then One(IdentifierReuse, [a], [Word(a.identifierKind), Word(a.subject), Word(a.authority)]) else NOTHING;
    EachFinds(v.assertions, rule);
    if ReuseJustified(order, i, x) {
      assert x in rule(x.facts[0]).found;
    }
  }

  lemma {:induction false} PairsStep(v: View, policy: QuotePolicy, quotes: seq<Fact>)
    requires quotes != []
    ensures forall x :: x in QuotePairs(v, policy, quotes).found <==>
              || x in QuotePairs(v, policy, quotes[1..]).found
              || exists b :: b in quotes[1..] && x in QuotePair(v, policy, quotes[0], b).found
    ensures QuotePairs(v, policy, quotes[1..]).unavailable == {} ==> QuotePairs(v, policy, quotes).unavailable == {}
  {
    EachFinds(quotes[1..], (b: Fact) => QuotePair(v, policy, quotes[0], b));
  }

  lemma {:induction false} PairsFind(v: View, policy: QuotePolicy, quotes: seq<Fact>, x: Found, finds: (Fact, Fact) -> bool)
    requires forall a, b :: finds(a, b) <==> x in QuotePair(v, policy, a, b).found
    ensures x in QuotePairs(v, policy, quotes).found <==> exists m, n :: 0 <= m < n < |quotes| && finds(quotes[m], quotes[n])
    ensures QuotePairs(v, policy, quotes).unavailable == {}
  {
    if quotes != [] {
      var rest := quotes[1..];
      PairsFind(v, policy, rest, x, finds);
      PairsStep(v, policy, quotes);
      PairsSplit(quotes, finds);
      assert forall b :: finds(quotes[0], b) <==> x in QuotePair(v, policy, quotes[0], b).found;
    }
  }

  lemma PairsSplit(quotes: seq<Fact>, finds: (Fact, Fact) -> bool)
    requires quotes != []
    ensures (exists m, n :: 0 <= m < n < |quotes| && finds(quotes[m], quotes[n])) <==>
            || (exists b :: b in quotes[1..] && finds(quotes[0], b))
            || (exists m, n :: 0 <= m < n < |quotes[1..]| && finds(quotes[1..][m], quotes[1..][n]))
  {
    var rest := quotes[1..];
    if b :| b in rest && finds(quotes[0], b) {
      var n :| 0 <= n < |rest| && rest[n] == b;
      assert quotes[n + 1] == b && finds(quotes[0], quotes[n + 1]);
    }
    if m, n :| 0 <= m < n < |rest| && finds(rest[m], rest[n]) {
      assert quotes[m + 1] == rest[m] && quotes[n + 1] == rest[n];
    }
    if m, n :| 0 <= m < n < |quotes| && finds(quotes[m], quotes[n]) {
      assert quotes[n] == rest[n - 1] && rest[n - 1] in rest;
      assert m > 0 ==> quotes[m] == rest[m - 1];
    }
  }

  /** One fact per source, each before those of later identities. */
  lemma UniqueOrdered(order: Order, facts: seq<Fact>)
    requires OrderOk(order)
    ensures var u := Unique(order, facts);
            forall m, n :: 0 <= m < n < |u| ==> order(IdentityOf(u[m].source), IdentityOf(u[n].source)) && IdentityOf(u[m].source) != IdentityOf(u[n].source)
  {
    var u, ids := Unique(order, facts), Map(Latest(facts), IdentityIn());
    UniqueMeaning(order, facts);
    LatestIdentities(facts);
    SortSorts(ids, order);
    SortPermutes(ids, order);
    DistinctPermuted(ids, Sort(ids, order));
    forall m, n | 0 <= m < n < |u|
      ensures order(IdentityOf(u[m].source), IdentityOf(u[n].source)) && IdentityOf(u[m].source) != IdentityOf(u[n].source)
    {
      SortedAt(Sort(ids, order), order, m, n);
      assert Map(u, IdentityIn())[m] == IdentityOf(u[m].source) && Map(u, IdentityIn())[n] == IdentityOf(u[n].source);
    }
  }

  lemma PlacedInOrder(order: Order, facts: seq<Fact>, a: Fact, b: Fact) returns (m: nat, n: nat)
    requires OrderOk(order) && a in Unique(order, facts) && b in Unique(order, facts)
    requires a != b && order(IdentityOf(a.source), IdentityOf(b.source))
    ensures m < n < |Unique(order, facts)| && Unique(order, facts)[m] == a && Unique(order, facts)[n] == b
  {
    var u := Unique(order, facts);
    m :| 0 <= m < |u| && u[m] == a;
    n :| 0 <= n < |u| && u[n] == b;
    UniqueOrdered(order, facts);
  }

  lemma PairJustified(order: Order, i: Input, v: View, policy: QuotePolicy, a: Fact, b: Fact, x: Found)
    requires v.job == i.job && v.profile == i.profile && i.profile.quotePolicy == Some(policy)
    requires a in Unique(order, i.quotes) && b in Unique(order, i.quotes) && a != b && order(IdentityOf(a.source), IdentityOf(b.source))
    ensures x in QuotePair(v, policy, a, b).found <==> x.facts == [a, b] && RelatedJustified(order, i, x)
  {
    if x.facts == [a, b] {
      assert x.facts[0] == a && x.facts[1] == b;
    }
  }

  lemma RelatedExactly(order: Order, i: Input, v: View, x: Found)
    requires OrderOk(order) && v.quotes == Unique(order, i.quotes) && v.job == i.job && v.profile == i.profile
    ensures x in RelatedQuotesRule(v).found <==> RelatedJustified(order, i, x)
    ensures forall u :: u in RelatedQuotesRule(v).unavailable <==> i.profile.quotePolicy.None? && u == Unavailable(RelatedQuotes, PolicyAbsent)
  {
    if i.profile.quotePolicy.Some? {
      var policy, u := i.profile.quotePolicy.value, v.quotes;
      var finds := (a: Fact, b: Fact) => x in QuotePair(v, policy, a, b).found;
      PairsFind(v, policy, u, x, finds);
      if m, n :| 0 <= m < n < |u| && finds(u[m], u[n]) {
        UniqueOrdered(order, i.quotes);
        PairJustified(order, i, v, policy, u[m], u[n], x);
      }
      if RelatedJustified(order, i, x) {
        var m, n := PlacedInOrder(order, i.quotes, x.facts[0], x.facts[1]);
        assert x.facts == [x.facts[0], x.facts[1]];
        PairJustified(order, i, v, policy, u[m], u[n], x);
        assert finds(u[m], u[n]);
      }
    }
  }

  // ----- what the restart rule finds -----

  /** The event a restart undoes, as the search over the events in time order finds it. */
  function TargetOf(all: seq<Fact>, r: Fact): (t: Option<Fact>) {
    if !r.Work? || !(r.kind == Resume || r.kind == CancelFinish || r.kind == Reopen) then None
    else
      var n := FirstIndex(all, (f: Fact) => f.Work? && Some(f.source.id) == r.predecessor && (f.kind == Finish || f.kind == Close)
                                           && f.source.recordedAt < r.source.recordedAt);
      if n == |all| || all[n].kind != (if r.kind == Reopen then Close else Finish) then None else Some(all[n])
  }

  /** Every event comes before the later ones and not after them. */
  ghost predicate Strict(order: Order, all: seq<Fact>) {
    forall m, n :: 0 <= m < n < |all| ==> Before(order, all[m], all[n]) && !Before(order, all[n], all[m]) && all[m] != all[n]
  }

  ghost function Members(s: seq<Fact>): set<Fact> {
    set f | f in s
  }

  lemma {:induction false} FirstMeaning(facts: seq<Fact>, p: Fact -> bool)
    ensures forall m :: 0 <= m < FirstIndex(facts, p) ==> !p(facts[m])
  {
    if facts != [] && !p(facts[0]) {
      FirstMeaning(facts[1..], p);
      forall m | 0 <= m < FirstIndex(facts, p)
        ensures !p(facts[m])
      {
        assert m > 0 ==> facts[m] == facts[1..][m - 1];
      }
    }
  }

  lemma TargetExactly(order: Order, all: seq<Fact>, r: Fact, f: Fact)
    requires Strict(order, all) && r in all
    ensures TargetOf(all, r) == Some(f) <==> Undoes(order, Members(all), r, f)
  {
    if r.Work? && (r.kind == Resume || r.kind == CancelFinish || r.kind == Reopen) {
      var p := (f: Fact) => f.Work? && Some(f.source.id) == r.predecessor && (f.kind == Finish || f.kind == Close)
                            && f.source.recordedAt < r.source.recordedAt;
      var n := FirstIndex(all, p);
      FirstMeaning(all, p);
      assert forall g :: EndsFor(g, r) <==> p(g);
      if n < |all| {
        forall g | g in Members(all) && EndsFor(g, r)
          ensures g == all[n] || Before(order, all[n], g)
        {
          var m :| 0 <= m < |all| && all[m] == g;
          assert p(all[m]);
        }
      }
    }
  }

  /** The restart is the first of these to undo an event with its target's id. */
  ghost predicate LeadsAt(events: seq<Fact>, all: seq<Fact>, j: nat, f: Fact) {
    && j < |events| && TargetOf(all, events[j]) == Some(f)
    && (forall m :: 0 <= m < j ==> TargetOf(all, events[m]).None? || TargetOf(all, events[m]).value.source.id != f.source.id)
  }

  ghost predicate Leads(events: seq<Fact>, all: seq<Fact>, p: (Fact, Fact)) {
    exists j: nat :: LeadsAt(events, all, j, p.0) && events[j] == p.1
  }

  ghost predicate TargetsDiffer(cycles: seq<(Fact, Fact)>) {
    forall m, n :: 0 <= m < n < |cycles| ==> cycles[m].0.source.id != cycles[n].0.source.id
  }

  lemma {:induction false} CyclesMeaning(events: seq<Fact>, all: seq<Fact>, seen: set<string>)
    ensures forall p :: p in Cycles(events, all, seen) <==> Leads(events, all, p) && p.0.source.id !in seen
    ensures TargetsDiffer(Cycles(events, all, seen))
    decreases |events|
  {
    if events != [] {
      var t, rest := TargetOf(all, events[0]), events[1..];
      forall p
        ensures Leads(events, all, p) <==>
                (t == Some(p.0) && events[0] == p.1) || ((t.None? || t.value.source.id != p.0.source.id) && Leads(rest, all, p))
      {
        LeadsNext(events, all, p);
      }
      if t.None? || t.value.source.id in seen {
        CyclesMeaning(rest, all, seen);
        assert Cycles(events, all, seen) == Cycles(rest, all, seen);
        forall p
          ensures p in Cycles(rest, all, seen) <==> Leads(events, all, p) && p.0.source.id !in seen
        {
          assert p in Cycles(rest, all, seen) <==> Leads(rest, all, p) && p.0.source.id !in seen;
        }
      } else {
        CyclesMeaning(rest, all, seen + {t.value.source.id});
        var c := Cycles(rest, all, seen + {t.value.source.id});
        assert Cycles(events, all, seen) == [(t.value, events[0])] + c;
        forall n | 0 <= n < |c|
          ensures c[n].0.source.id != t.value.source.id
        {
          assert c[n] in c;
        }
      }
    }
  }

  lemma LeadsNext(events: seq<Fact>, all: seq<Fact>, p: (Fact, Fact))
    requires events != []
    ensures var t := TargetOf(all, events[0]);
            Leads(events, all, p) <==>
            (t == Some(p.0) && events[0] == p.1) || ((t.None? || t.value.source.id != p.0.source.id) && Leads(events[1..], all, p))
  {
    var t, rest := TargetOf(all, events[0]), events[1..];
    if j: nat :| LeadsAt(events, all, j, p.0) && events[j] == p.1 {
      if j > 0 {
        assert rest[j - 1] == events[j];
        forall m | 0 <= m < j - 1
          ensures TargetOf(all, rest[m]).None? || TargetOf(all, rest[m]).value.source.id != p.0.source.id
        {
          assert rest[m] == events[m + 1];
        }
        assert LeadsAt(rest, all, j - 1, p.0);
      }
    }
    if t == Some(p.0) && events[0] == p.1 {
      assert LeadsAt(events, all, 0, p.0);
    }
    if j: nat :| LeadsAt(rest, all, j, p.0) && rest[j] == p.1 && (t.None? || t.value.source.id != p.0.source.id) {
      assert events[j + 1] == rest[j];
      forall m | 0 <= m < j + 1
        ensures TargetOf(all, events[m]).None? || TargetOf(all, events[m]).value.source.id != p.0.source.id
      {
        assert m > 0 ==> events[m] == rest[m - 1];
      }
      assert LeadsAt(events, all, j + 1, p.0);
    }
  }

  lemma ByTimeTotal(order: Order)
    requires OrderOk(order)
    ensures TotalPreorder(ByTime(order))
  {
    var le := ByTime(order);
    forall x, y
      ensures le(x, y) || le(y, x)
    {
      assert order(IdentityOf(x.source), IdentityOf(y.source)) || order(IdentityOf(y.source), IdentityOf(x.source));
    }
    forall x, y, z | le(x, y) && le(y, z)
      ensures le(x, z)
    {
      if x.source.recordedAt == y.source.recordedAt == z.source.recordedAt {
        assert order(IdentityOf(x.source), IdentityOf(y.source)) && order(IdentityOf(y.source), IdentityOf(z.source));
      }
    }
  }

  lemma {:induction false} FilterDistinct(s: seq<Fact>, p: Fact -> bool)
    requires Distinct(s)
    ensures Distinct(Filter(s, p))
  {
    if s != [] {
      assert Distinct(s[1..]);
      FilterDistinct(s[1..], p);
    }
  }

  lemma StrictAt(order: Order, a: Fact, b: Fact)
    requires OrderOk(order) && IdentityOf(a.source) != IdentityOf(b.source) && ByTime(order)(a, b)
    ensures Before(order, a, b) && !Before(order, b, a)
  {
  }

  lemma UniqueApart(order: Order, facts: seq<Fact>, a: Fact, b: Fact)
    requires OrderOk(order) && a in Unique(order, facts) && b in Unique(order, facts) && a != b
    ensures IdentityOf(a.source) != IdentityOf(b.source)
  {
    var u := Unique(order, facts);
    UniqueOrdered(order, facts);
    var m :| 0 <= m < |u| && u[m] == a;
    var n :| 0 <= n < |u| && u[n] == b;
  }

  /** In time order every event comes before the later ones. */
  lemma {:induction false} EventsStrict(order: Order, facts: seq<Fact>, kept: seq<Fact>)
    requires OrderOk(order) && Distinct(kept) && forall f :: f in kept ==> f in Unique(order, facts)
    ensures Strict(order, Sort(kept, ByTime(order))) && Members(Sort(kept, ByTime(order))) == Members(kept)
  {
    var events := Sort(kept, ByTime(order));
    SortPermutes(kept, ByTime(order));
    MembersPermuted(kept, events);
    DistinctPermuted(kept, events);
    ByTimeTotal(order);
    SortSorts(kept, ByTime(order));
    forall m, n | 0 <= m < n < |events|
      ensures Before(order, events[m], events[n]) && !Before(order, events[n], events[m]) && events[m] != events[n]
    {
      SortedAt(events, ByTime(order), m, n);
      UniqueApart(order, facts, events[m], events[n]);
      StrictAt(order, events[m], events[n]);
    }
  }

  lemma LeadsExactly(order: Order, all: seq<Fact>, p: (Fact, Fact))
    requires Strict(order, all)
    ensures Leads(all, all, p) <==> p in Pairs(order, Members(all))
  {
    if j: nat :| LeadsAt(all, all, j, p.0) && all[j] == p.1 {
      TargetExactly(order, all, p.1, p.0);
      forall s, g | Undoes(order, Members(all), s, g) && g.source.id == p.0.source.id
        ensures s == p.1 || Before(order, p.1, s)
      {
        TargetExactly(order, all, s, g);
        var m :| 0 <= m < |all| && all[m] == s;
      }
      assert FirstUndoes(order, Members(all), p.1, p.0);
    }
    if p in Pairs(order, Members(all)) {
      var j :| 0 <= j < |all| && all[j] == p.1;
      TargetExactly(order, all, p.1, p.0);
      forall m | 0 <= m < j
        ensures TargetOf(all, all[m]).None? || TargetOf(all, all[m]).value.source.id != p.0.source.id
      {
        if TargetOf(all, all[m]).Some? {
          TargetExactly(order, all, all[m], TargetOf(all, all[m]).value);
        }
      }
      assert LeadsAt(all, all, j, p.0);
    }
  }

  lemma {:induction false} CycleFactsMeaning(cycles: seq<(Fact, Fact)>)
    ensures |CycleFacts(cycles)| == 2 * |cycles|
    ensures forall f :: f in CycleFacts(cycles) <==> exists p :: p in cycles && (f == p.0 || f == p.1)
  {
    if cycles != [] {
      CycleFactsMeaning(cycles[1..]);
      assert forall p :: p in cycles <==> p == cycles[0] || p in cycles[1..];
    }
  }

  lemma {:induction false} AllOnce<T>(s: seq<T>, all: set<T>)
    requires Distinct(s) && forall x :: x in s <==> x in all
    ensures |s| == |all|
  {
    if s == [] {
      assert all == {};
    } else {
      AllOnce(s[1..], all - {s[0]});
    }
  }

  lemma {:induction false} CyclesArePairs(order: Order, all: seq<Fact>)
    requires Strict(order, all)
    ensures var cycles, pairs := Cycles(all, all, {}), Pairs(order, Members(all));
            |cycles| == |pairs| && forall p :: p in cycles <==> p in pairs
  {
    var cycles, pairs := Cycles(all, all, {}), Pairs(order, Members(all));
    CyclesMeaning(all, all, {});
    forall p
      ensures p in cycles <==> p in pairs
    {
      LeadsExactly(order, all, p);
    }
    forall m, n | 0 <= m < n < |cycles|
      ensures cycles[m] != cycles[n]
    {
      assert cycles[m].0.source.id != cycles[n].0.source.id;
    }
    AllOnce(cycles, pairs);
  }

  lemma UniqueDistinct(order: Order, facts: seq<Fact>)
    requires OrderOk(order)
    ensures Distinct(Unique(order, facts))
  {
    UniqueOrdered(order, facts);
  }

  /** The events the rule goes through are those of the window, in time order. */
  lemma EventsInOrder(order: Order, i: Input, v: View, p: Fact -> bool)
    requires OrderOk(order) && v.works == Unique(order, i.works) && v.profile == i.profile
    requires forall f :: p(f) <==> InWindow(v, f)
    ensures var events := Sort(Filter(v.works, p), ByTime(order)); Strict(order, events) && Members(events) == Events(order, i)
  {
    UniqueDistinct(order, i.works);
    FilterDistinct(v.works, p);
    EventsStrict(order, i.works, Filter(v.works, p));
    assert Members(Filter(v.works, p)) == Events(order, i);
  }

  /** The one finding of the rule lists the pairs. */
  lemma {:induction false} CyclesJustified(order: Order, i: Input, events: seq<Fact>, minimum: nat)
    requires i.profile.minimumCycles == Some(minimum) && Strict(order, events) && Members(events) == Events(order, i)
    ensures var cycles := Cycles(events, events, {});
            var x := Found(FinishRestart, CycleFacts(cycles), [Number(|cycles|), Number(minimum)]);
            && (RestartJustified(order, i, x) <==> |cycles| >= minimum)
            && (forall y :: RestartJustified(order, i, y) ==> |cycles| >= minimum && forall f :: f in y.facts <==> f in x.facts)
  {
    var cycles := Cycles(events, events, {});
    CyclesArePairs(order, events);
    CycleFactsMeaning(cycles);
    forall f
      ensures f in CycleFacts(cycles) <==> exists p :: p in Pairs(order, Events(order, i)) && (f == p.0 || f == p.1)
    {
      if p :| p in cycles && (f == p.0 || f == p.1) {
        assert p in Pairs(order, Events(order, i));
      }
      if p :| p in Pairs(order, Events(order, i)) && (f == p.0 || f == p.1) {
        assert p in cycles;
      }
    }
  }

  lemma RestartExactly(order: Order, i: Input, v: View)
    requires OrderOk(order) && v.works == Unique(order, i.works) && v.profile == i.profile
    ensures forall x :: x in FinishRestartRule(order, v).found ==> RestartJustified(order, i, x)
    ensures forall x :: RestartJustified(order, i, x) ==> FoundLike(FinishRestartRule(order, v).found, x)
    ensures forall u :: u in FinishRestartRule(order, v).unavailable <==> i.profile.minimumCycles.None? && u == Unavailable(FinishRestart, PolicyAbsent)
  {
    if i.profile.minimumCycles.Some? {
      var events := Sort(Filter(v.works, (f: Fact) => InWindow(v, f)), ByTime(order));
      var minimum, cycles := i.profile.minimumCycles.value, Cycles(events, events, {});
      var x := Found(FinishRestart, CycleFacts(cycles), [Number(|cycles|), Number(minimum)]);
      EventsInOrder(order, i, v, (f: Fact) => InWindow(v, f));
      CyclesJustified(order, i, events, minimum);
      assert FinishRestartRule(order, v).found == if |cycles| >= minimum then [x] else [];
      assert x in [x];
    }
  }
}
