/** The result of an evaluation: a finding for every justified one, no other, and a reason for every rule that is unavailable. */
module IntegrityResults {
  import opened Prelude
  import opened Sorting
  import opened Integrity
  import opened IntegrityFindings
  import opened IntegrityPublished

  /** The facts of the input justify the finding. */
  ghost predicate Justified(order: Order, i: Input, x: Found) {
    match x.kind
    case NeverLive => NeverLiveJustified(order, i, x)
    case ActivityWithoutLock => WithoutLockJustified(order, i, x)
    case RelatedQuotes => RelatedJustified(order, i, x)
    case FinishRestart => RestartJustified(order, i, x)
    case IdentifierReuse => ReuseJustified(order, i, x)
    case _ => i.published.Some? && PublishedJustified(i, i.published.value, OnceOf(order, i.published.value), x)
  }

  ghost predicate PublishedJustified(i: Input, p: Published, o: Once, x: Found) {
    || DismissalJustified(p, o, x) || ReceiptsJustified(p, o, x) || CorrectionJustified(p, o, x) || AvoidJustified(i, p, o, x)
  }

  /** The rule cannot be applied for that reason. */
  ghost predicate Lacks(order: Order, i: Input, u: Unavailable) {
    OrdinaryLacks(i, u) || (i.published.Some? && PublishedLacks(i, i.published.value, OnceOf(order, i.published.value), u))
  }

  predicate OrdinaryLacks(i: Input, u: Unavailable) {
    || (u == Unavailable(NeverLive, PolicyAbsent) && i.profile.wonDelay.None?)
    || (u == Unavailable(ActivityWithoutLock, SourceAbsent) && i.lockState == LockUnknown)
    || (u == Unavailable(RelatedQuotes, PolicyAbsent) && i.profile.quotePolicy.None?)
    || (u == Unavailable(FinishRestart, PolicyAbsent) && i.profile.minimumCycles.None?)
    || (u == Unavailable(IdentifierReuse, SourceAbsent) && !exists a :: a in i.assertions && InForce(i, a))
    || (u == Unavailable(AllocationsAvoid, PolicyAbsent) && i.profile.minimumPayments.None?)
  }

  /** An assertion about this scope that is valid when the evaluation takes place. */
  predicate InForce(i: Input, a: Fact) {
    a.Assertion? && a.scopeId == i.scope && a.validFrom <= i.evaluatedAt && i.evaluatedAt <= a.validUntil
  }

  ghost predicate PublishedLacks(i: Input, p: Published, o: Once, u: Unavailable) {
    || (u == Unavailable(ReceiptsExceed, CreditBasisUnavailable) && Corrected(p))
    || (u == Unavailable(ReceiptsExceed, BasisUnavailable) && !Corrected(p) && !OneBasis(p, o))
    || (u.kind == LineCorrection && exists k :: Uncorrectable(o, k, u.reason))
    || (u.kind == AllocationsAvoid && i.profile.minimumPayments.Some? && exists a :: Unjudgeable(i, o, a, u.reason))
  }

  // ----- the rules together -----

  /** The view shows the ordinary facts of the input. */
  ghost predicate Shows(order: Order, i: Input, v: View) {
    && v.job == i.job && v.scope == i.scope && v.evaluatedAt == i.evaluatedAt && v.profile == i.profile && v.lockState == i.lockState
    && v.quotes == Unique(order, i.quotes) && v.activity == Unique(order, i.activity) && v.works == Unique(order, i.works)
    && v.assertions == Unique(order, i.assertions) && v.live == JobsOf(i.activations)
    && (v.reusable <==> exists a :: a in i.assertions && Applies(i, a))
  }

  ghost predicate OrdinaryKind(k: Kind) {
    k == NeverLive || k == ActivityWithoutLock || k == RelatedQuotes || k == FinishRestart || k == IdentifierReuse
  }

  /** What a part of the rules finds is justified, and of the kinds it is about it finds all that is. */
  lemma OrdinarySound(order: Order, i: Input, v: View, x: Found)
    requires OrderOk(order) && Shows(order, i, v) && x in OrdinaryRules(order, v).found
    ensures OrdinaryKind(x.kind) && Justified(order, i, x)
  {
    NeverLiveExactly(order, i, v, x);
    WithoutLockExactly(order, i, v, x);
    RelatedExactly(order, i, v, x);
    RestartExactly(order, i, v);
    ReuseExactly(order, i, v, x);
    OrdinaryParts(order, v, x);
  }

  lemma OrdinaryParts(order: Order, v: View, x: Found)
    ensures x in OrdinaryRules(order, v).found <==>
            || x in NeverLiveRule(v).found || x in WithoutLockRule(v).found || x in RelatedQuotesRule(v).found
            || x in FinishRestartRule(order, v).found || x in IdentifierReuseRule(v).found
    ensures FoundLike(FinishRestartRule(order, v).found, x) ==> FoundLike(OrdinaryRules(order, v).found, x)
  {
  }

  lemma OrdinaryComplete(order: Order, i: Input, v: View, x: Found)
    requires OrderOk(order) && Shows(order, i, v) && OrdinaryKind(x.kind) && Justified(order, i, x)
    ensures FoundLike(OrdinaryRules(order, v).found, x)
  {
    OrdinaryParts(order, v, x);
    match x.kind {
      case NeverLive => NeverLiveExactly(order, i, v, x);
      case ActivityWithoutLock => WithoutLockExactly(order, i, v, x);
      case RelatedQuotes => RelatedExactly(order, i, v, x);
      case FinishRestart => RestartExactly(order, i, v);
      case _ => ReuseExactly(order, i, v, x);
    }
  }

  lemma OrdinaryUnavailable(order: Order, i: Input, v: View, u: Unavailable)
    requires OrderOk(order) && Shows(order, i, v)
    ensures u in OrdinaryRules(order, v).unavailable <==> OrdinaryLacks(i, u)
  {
    var x := Found(NeverLive, [], []);
    NeverLiveExactly(order, i, v, x);
    WithoutLockExactly(order, i, v, x);
    RelatedExactly(order, i, v, x);
    RestartExactly(order, i, v);
    ReuseExactly(order, i, v, x);
    OrdinaryReasons(order, v, u);
    assert forall a :: Applies(i, a) <==> InForce(i, a);
  }

  lemma OrdinaryReasons(order: Order, v: View, u: Unavailable)
    ensures u in OrdinaryRules(order, v).unavailable <==>
            || u in NeverLiveRule(v).unavailable || u in WithoutLockRule(v).unavailable || u in RelatedQuotesRule(v).unavailable
            || u in FinishRestartRule(order, v).unavailable || u in IdentifierReuseRule(v).unavailable
            || (v.profile.minimumPayments.None? && u == Unavailable(AllocationsAvoid, PolicyAbsent))
  {
  }

  lemma PublishedParts(v: View, pv: PublishedView, allocations: seq<Fact>, x: Found)
    requires pv.lock.Lock?
    ensures x in PublishedRules(v, pv, allocations).found <==>
            || x in CompletedDismissalRule(v, pv).found || x in ReceiptsExceedRule(pv).found
            || x in LineCorrectionRule(pv).found || x in AllocationsAvoidRule(v, pv, allocations).found
    ensures FoundLike(ReceiptsExceedRule(pv).found, x) || FoundLike(AllocationsAvoidRule(v, pv, allocations).found, x) ==>
              FoundLike(PublishedRules(v, pv, allocations).found, x)
  {
    var a, b := CompletedDismissalRule(v, pv).found, ReceiptsExceedRule(pv).found;
    var c, d := LineCorrectionRule(pv).found, AllocationsAvoidRule(v, pv, allocations).found;
    assert PublishedRules(v, pv, allocations).found == (a + b) + (c + d);
    if y :| (y in b || y in d) && y.kind == x.kind && forall f :: f in y.facts <==> f in x.facts {
      assert y in (a + b) + (c + d);
    }
  }

  lemma PublishedSound(i: Input, p: Published, o: Once, v: View, pv: PublishedView, x: Found)
    requires Sees(p, o, pv) && v.profile == i.profile && x in PublishedRules(v, pv, o.allocations).found
    ensures PublishedJustified(i, p, o, x)
  {
    PublishedParts(v, pv, o.allocations, x);
    DismissalExactly(p, o, v, pv, x);
    ReceiptsExactly(p, o, pv, x);
    CorrectionExactly(p, o, pv);
    AvoidExactly(i, p, o, v, pv, x);
  }

  lemma PublishedKinds(i: Input, p: Published, o: Once, x: Found)
    requires PublishedJustified(i, p, o, x)
    ensures !OrdinaryKind(x.kind)
  {
  }

  lemma PublishedComplete(i: Input, p: Published, o: Once, v: View, pv: PublishedView, x: Found)
    requires Sees(p, o, pv) && v.profile == i.profile && PublishedJustified(i, p, o, x)
    ensures FoundLike(PublishedRules(v, pv, o.allocations).found, x)
  {
    PublishedParts(v, pv, o.allocations, x);
    DismissalExactly(p, o, v, pv, x);
    ReceiptsExactly(p, o, pv, x);
    CorrectionExactly(p, o, pv);
    AvoidExactly(i, p, o, v, pv, x);
  }

  lemma PublishedUnavailable(i: Input, p: Published, o: Once, v: View, pv: PublishedView, u: Unavailable)
    requires Sees(p, o, pv) && v.profile == i.profile
    ensures u in PublishedRules(v, pv, o.allocations).unavailable <==> PublishedLacks(i, p, o, u)
  {
    DismissalExactly(p, o, v, pv, Found(CompletedDismissal, [], []));
    ReceiptsUnavailable(p, o, pv);
    CorrectionExactly(p, o, pv);
    AvoidUnavailable(i, p, o, v, pv);
  }

  // ----- the input as the rules see it -----

  lemma ViewShows(order: Order, i: Input)
    ensures Shows(order, i, ViewOf(order, i))
    ensures i.published.Some? ==> Sees(i.published.value, OnceOf(order, i.published.value), PublishedViewOf(order, i.published.value))
  {
  }

  lemma RulesWithout(order: Order, i: Input)
    requires i.published.None?
    ensures Rules(order, ViewOf(order, i), AllocationsOf(order, i)) == OrdinaryRules(order, ViewOf(order, i))
  {
  }

  lemma RulesWith(order: Order, i: Input, p: Published)
    requires i.published == Some(p)
    ensures Rules(order, ViewOf(order, i), AllocationsOf(order, i)) ==
            And(OrdinaryRules(order, ViewOf(order, i)),
                PublishedRules(ViewOf(order, i), PublishedViewOf(order, p), OnceOf(order, p).allocations))
  {
  }

  lemma AndFinds(a: Outcome, b: Outcome, x: Found, u: Unavailable)
    ensures x in And(a, b).found <==> x in a.found || x in b.found
    ensures FoundLike(a.found, x) || FoundLike(b.found, x) ==> FoundLike(And(a, b).found, x)
    ensures u in And(a, b).unavailable <==> u in a.unavailable || u in b.unavailable
  {
    if y :| (y in a.found || y in b.found) && y.kind == x.kind && forall f :: f in y.facts <==> f in x.facts {
      assert y in a.found + b.found;
    }
  }

  lemma RulesExactly(order: Order, i: Input, v: View, rules: Outcome, x: Found, u: Unavailable)
    requires OrderOk(order) && v == ViewOf(order, i) && rules == Rules(order, v, AllocationsOf(order, i))
    ensures x in rules.found ==> Justified(order, i, x)
    ensures Justified(order, i, x) ==> FoundLike(rules.found, x)
    ensures u in rules.unavailable <==> Lacks(order, i, u)
  {
    ViewShows(order, i);
    if i.published.None? {
      RulesWithout(order, i);
      PartExactly(order, i, v, x, u);
    } else {
      var p := i.published.value;
      var o, pv := OnceOf(order, p), PublishedViewOf(order, p);
      RulesWith(order, i, p);
      PartExactly(order, i, v, x, u);
      PublishedExactly(i, p, o, v, pv, x, u);
      AndFinds(OrdinaryRules(order, v), PublishedRules(v, pv, o.allocations), x, u);
    }
  }

  lemma PartExactly(order: Order, i: Input, v: View, x: Found, u: Unavailable)
    requires OrderOk(order) && Shows(order, i, v)
    ensures x in OrdinaryRules(order, v).found ==> OrdinaryKind(x.kind) && Justified(order, i, x)
    ensures OrdinaryKind(x.kind) && Justified(order, i, x) ==> FoundLike(OrdinaryRules(order, v).found, x)
    ensures u in OrdinaryRules(order, v).unavailable <==> OrdinaryLacks(i, u)
  {
    if x in OrdinaryRules(order, v).found {
      OrdinarySound(order, i, v, x);
    }
    if OrdinaryKind(x.kind) && Justified(order, i, x) {
      OrdinaryComplete(order, i, v, x);
    }
    OrdinaryUnavailable(order, i, v, u);
  }

  lemma PublishedExactly(i: Input, p: Published, o: Once, v: View, pv: PublishedView, x: Found, u: Unavailable)
    requires Sees(p, o, pv) && v.profile == i.profile
    ensures x in PublishedRules(v, pv, o.allocations).found ==> !OrdinaryKind(x.kind) && PublishedJustified(i, p, o, x)
    ensures PublishedJustified(i, p, o, x) ==> FoundLike(PublishedRules(v, pv, o.allocations).found, x)
    ensures u in PublishedRules(v, pv, o.allocations).unavailable <==> PublishedLacks(i, p, o, u)
  {
    if x in PublishedRules(v, pv, o.allocations).found {
      PublishedSound(i, p, o, v, pv, x);
      PublishedKinds(i, p, o, x);
    }
    if PublishedJustified(i, p, o, x) {
      PublishedComplete(i, p, o, v, pv, x);
    }
    PublishedUnavailable(i, p, o, v, pv, u);
  }

  // ----- the findings that are kept -----

  ghost function Sources(facts: seq<Fact>): set<Identity> {
    set f | f in facts :: IdentityOf(f.source)
  }

  /** What tells this finding apart. */
  ghost predicate KeyFor(i: Input, x: Found, k: Key) {
    k.kind == x.kind && k.ruleVersion == i.profile.ruleVersion && k.window == i.profile.window && k.sources == Sources(x.facts)
  }

  lemma HasKeyStill(front: seq<Finding>, kept: seq<Finding>, k: Key)
    requires front <= kept && HasKey(front, k)
    ensures HasKey(kept, k)
  {
    var m :| 0 <= m < |front| && front[m].key == k;
    assert kept[m] == front[m];
  }

  lemma {:induction false} KeptMeaning(order: Order, profile: Profile, found: seq<Found>)
    ensures forall g :: g in Kept(order, profile, found) ==> g.snapshot in found && g == FindingOf(order, profile, g.snapshot)
    ensures forall x :: x in found ==> HasKey(Kept(order, profile, found), KeyOf(profile, x))
    ensures KeysApart(Kept(order, profile, found))
    decreases |found|
  {
    if found != [] {
      var n := |found| - 1;
      var init, front, f := found[..n], Kept(order, profile, found[..n]), found[n];
      KeptMeaning(order, profile, init);
      var kept := Kept(order, profile, found);
      forall x | x in found
        ensures HasKey(kept, KeyOf(profile, x))
      {
        if HasKey(front, KeyOf(profile, x)) {
          HasKeyStill(front, kept, KeyOf(profile, x));
        } else {
          assert x == f || x in init;
          assert kept[|front|].key == KeyOf(profile, f);
        }
      }
    }
  }

  ghost predicate KeysApart(findings: seq<Finding>) {
    forall a, b :: 0 <= a < b < |findings| ==> findings[a].key != findings[b].key
  }

  lemma KeysApartPermuted(a: seq<Finding>, b: seq<Finding>)
    requires multiset(a) == multiset(b) && KeysApart(a)
    ensures KeysApart(b)
  {
    forall m, n | 0 <= m < n < |b|
      ensures b[m].key != b[n].key
    {
      MembersPermuted(a, b);
      assert b[m] in a && b[n] in a;
      if b[m] == b[n] {
        CountTwo(b, m, n);
        var c, d := FindTwo(a, b[m]);
      }
    }
  }

  lemma SameKey(i: Input, x: Found, y: Found)
    requires y.kind == x.kind && forall f :: f in y.facts <==> f in x.facts
    ensures KeyOf(i.profile, y) == KeyOf(i.profile, x) && KeyFor(i, x, KeyOf(i.profile, x))
  {
  }

  /**
   * The evaluation reports exactly what the facts justify: every finding is justified by what it shows,
   * cites one source of each identity and is told apart by kind, rule version, sources and window, and
   * every justified finding is reported under its key, once.
   */
  lemma FindingsExactly(order: Order, keys: KeyOrder, i: Input)
    requires OrderOk(order)
    ensures var findings := Evaluate(order, keys, i).findings;
            && KeysApart(findings) && (TotalPreorder(ByKey(keys)) ==> Sorted(findings, ByKey(keys)))
            && (forall g :: g in findings ==>
                  Justified(order, i, g.snapshot) && KeyFor(i, g.snapshot, g.key) && g.references == Map(Unique(order, g.snapshot.facts), SourceIn()))
            && (forall x :: Justified(order, i, x) ==> exists g :: g in findings && KeyFor(i, x, g.key))
  {
    var rules := Rules(order, ViewOf(order, i), AllocationsOf(order, i));
    var kept, findings := Kept(order, i.profile, rules.found), Evaluate(order, keys, i).findings;
    KeptMeaning(order, i.profile, rules.found);
    SortPermutes(kept, ByKey(keys));
    MembersPermuted(kept, findings);
    KeysApartPermuted(kept, findings);
    if TotalPreorder(ByKey(keys)) {
      SortSorts(kept, ByKey(keys));
    }
    forall g | g in findings
      ensures Justified(order, i, g.snapshot) && KeyFor(i, g.snapshot, g.key) && g.references == Map(Unique(order, g.snapshot.facts), SourceIn())
    {
      RulesExactly(order, i, ViewOf(order, i), rules, g.snapshot, Unavailable(NeverLive, PolicyAbsent));
      SameKey(i, g.snapshot, g.snapshot);
    }
    forall x | Justified(order, i, x)
      ensures exists g :: g in findings && KeyFor(i, x, g.key)
    {
      RulesExactly(order, i, ViewOf(order, i), rules, x, Unavailable(NeverLive, PolicyAbsent));
      Reported(i, rules.found, kept, findings, x);
    }
  }

  lemma Reported(i: Input, found: seq<Found>, kept: seq<Finding>, findings: seq<Finding>, x: Found)
    requires FoundLike(found, x) && (forall y :: y in found ==> HasKey(kept, KeyOf(i.profile, y))) && (forall g :: g in kept ==> g in findings)
    ensures exists g :: g in findings && KeyFor(i, x, g.key)
  {
    var y :| y in found && y.kind == x.kind && forall f :: f in y.facts <==> f in x.facts;
    SameKey(i, x, y);
    var m :| 0 <= m < |kept| && kept[m].key == KeyOf(i.profile, y);
    assert kept[m] in findings;
  }

  /** A rule is reported unavailable exactly for the reasons that hold. */
  lemma UnavailableExactly(order: Order, keys: KeyOrder, i: Input)
    requires OrderOk(order)
    ensures forall u :: u in Evaluate(order, keys, i).unavailable <==> Lacks(order, i, u)
  {
    forall u
      ensures u in Evaluate(order, keys, i).unavailable <==> Lacks(order, i, u)
    {
      RulesExactly(order, i, ViewOf(order, i), Rules(order, ViewOf(order, i), AllocationsOf(order, i)), Found(NeverLive, [], []), u);
    }
  }
}
